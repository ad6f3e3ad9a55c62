# Donation page: payment-method store and collection view

A Dafny model of the logic behind a single static donation page. The page shows the site owner's payment channels in a tabbed card: QR codes, a crypto wallet address, and bank-card details. It has two parts:

- **Configuration store** (module `PaymentConfig`, `payment_config.dfy`). It holds the `PaymentMethodConfig` record, whose variant fields are `Option`s gated by a `type` tag. It also holds the shipped literal list `paymentConfig`, the `siteConfig` display record, and two read-only queries. `EnabledMethods` is the `enabled` filter and `FindById` the first-match lookup. `GetEnabledPaymentMethods` and `GetPaymentMethodById` apply them to the shipped list.
- **Collection view** (module `PaymentCollection`, `payment_collection.dfy`).
  - The render policy is a set of pure functions. They give each method its tab trigger, its tab panel and its guarded type-specific block, plus the copy buttons with their `copied` keys.
  - The `copied` state cell is the class `CopyIndicator`. Its event methods stand for a resolved clipboard write, a rejected one, and a reset timer firing.
  - Beside the class sits a pure event-trace model (`Step`, `Run`, `PendingTimers`). The class's ghost `history` is tied to it, and the lemmas about the cell are proved on it.

JavaScript truthiness of an optional string field (`method.qrCodeUrl && …`) is `Truthy`: the field is present and not the empty string.

The model follows what the code does, including three places where a tidier design would differ:
- The default tab is the literal `"alipay"`, with no fallback to the first method (`DefaultTabLiteral`, `DefaultTabWithoutAlipay`).
- The account-name copy button is not gated on `accountName` being non-empty (`BankCardPolicy`).
- A reset timer clears `copied` whichever copy scheduled it, so a stale timer can clear a newer confirmation early (`StaleTimerClearsNewerConfirmation`).

## Model

| member | source | states |
|---|---|---|
| PaymentConfig.EnabledMethods | src/config/payment-config.ts:80 | the filtered list is no longer than the input, and every element is enabled and taken from the input |
| PaymentConfig.EnabledMembership | src/config/payment-config.ts:79-81 | a method is in the enabled list if and only if it is configured and enabled |
| PaymentConfig.EnabledMultiplicity | src/config/payment-config.ts:80 | each enabled method keeps all its occurrences and each disabled one has none, so no enabled method is dropped |
| PaymentConfig.EnabledIsSubsequence | src/config/payment-config.ts:80 | the enabled list keeps declaration order: it is a subsequence of the configured list |
| PaymentConfig.EnabledOfAllEnabled | src/config/payment-config.ts:80 | a list whose methods are all enabled passes the filter unchanged |
| PaymentConfig.EnabledIdempotent | src/config/payment-config.ts:80 | filtering the enabled list again yields the same list |
| PaymentConfig.FindById | src/config/payment-config.ts:85 | a found method is in the list and has the requested id |
| PaymentConfig.FindNoneIff | src/config/payment-config.ts:84-86 | the lookup returns undefined if and only if no configured method has that id |
| PaymentConfig.FindReturnsFirst | src/config/payment-config.ts:85 | the lookup returns the method at the first index carrying the id |
| PaymentConfig.FindFoundIsFirst | src/config/payment-config.ts:85 | a successful lookup's result sits at the first index carrying the id |
| PaymentConfig.FindIgnoresEnabled | src/config/payment-config.ts:85 | with distinct ids every configured method is found by its id, enabled or not |
| PaymentConfig.DisabledStillFound | src/config/payment-config.ts:79-86 | a disabled method is absent from the enabled list but still returned by the lookup |
| PaymentConfig.GetEnabledPaymentMethods | src/config/payment-config.ts:79-81 | every method returned for the page is enabled and comes from the shipped list |
| PaymentConfig.GetPaymentMethodById | src/config/payment-config.ts:84-86 | a method found in the shipped list has the requested id |
| PaymentConfig.ShippedConfigWellFormed | src/config/payment-config.ts:41-76 | the four shipped ids are distinct and every shipped method is enabled |
| PaymentConfig.ShippedAllEnabled | src/config/payment-config.ts:41-81 | for the shipped list the enabled list equals the full list |
| PaymentCollection.RenderBlocks | src/components/payment-collection.tsx:52-122 | at most one type-specific block renders per method, since the three guards test different type tags |
| PaymentCollection.QrCodePolicy | src/components/payment-collection.tsx:52-60 | the QR image renders if and only if the type is qrcode and the URL is non-empty; it shows that URL and a qrcode method has no copy button |
| PaymentCollection.AddressPolicy | src/components/payment-collection.tsx:62-79 | the address block renders if and only if the type is address and the address is non-empty; its one copy button has key method.id and copies the address |
| PaymentCollection.BankCardPolicy | src/components/payment-collection.tsx:81-122 | the bank-card block renders if and only if the type is bankcard and the card number is non-empty; it then always has exactly the keys id-card and id-name, whatever accountName holds |
| PaymentCollection.BankCardKeysDistinct | src/components/payment-collection.tsx:98-111 | the two bank-card keys of one method differ |
| PaymentCollection.CopyKeysCanCollide | src/components/payment-collection.tsx:69-111 | distinct method ids do not by themselves give distinct copy keys |
| PaymentCollection.RenderView | src/components/payment-collection.tsx:37-126 | one tab trigger and one tab panel per method, in list order, each keyed and valued by method.id, each panel holding the method's guarded blocks |
| PaymentCollection.PageTabsFollowEnabledList | src/components/payment-collection.tsx:15-47 | the page's tabs follow the enabled list; for the shipped list there are four tabs and the first is the default |
| PaymentCollection.PageView | src/components/payment-collection.tsx:15-126 | one trigger and one panel per enabled method, in the enabled list's order, each keyed and valued by the method's id, each panel holding that method's guarded blocks; the default tab is the literal "alipay" |
| PaymentCollection.DefaultTabLiteral | src/components/payment-collection.tsx:37 | the default value is the literal "alipay", and it matches a trigger if and only if a method with that id is listed |
| PaymentCollection.DefaultTabWithoutAlipay | src/components/payment-collection.tsx:37 | without an "alipay" method no tab matches the default, even though other tabs exist |
| PaymentCollection.AtMostOneCheck | src/components/payment-collection.tsx:71-113 | given distinct keys, at most one copy button shows the confirmed icon |
| PaymentCollection.ViewButtonsOfRender | src/components/payment-collection.tsx:46-122 | the copy buttons of the rendered panels are the methods' copy buttons, in list order |
| PaymentCollection.ShippedMethodButtons | src/components/payment-collection.tsx:62-122 | the shipped methods give exactly three copy buttons: usdt, bankcard-card and bankcard-name, with the texts they copy |
| PaymentCollection.PageButtons | src/components/payment-collection.tsx:15-122 | the copy buttons on the page are exactly those of the shipped methods, in order |
| PaymentCollection.ShippedKeysDistinct | src/components/payment-collection.tsx:69-111 | the three shipped copy keys are distinct |
| PaymentCollection.ShippedButtons | src/components/payment-collection.tsx:39-122 | on the shipped page at most one copy button is confirmed at a time |
| PaymentCollection.Step | src/components/payment-collection.tsx:18-20 | one event's effect on copied: a resolved write sets its key, a rejected write never changes copied, and a fired timer resets it to null whichever copy scheduled it |
| PaymentCollection.RunFromNull | src/components/payment-collection.tsx:12-21 | starting from null, copied holds k exactly when the last successful write was for k and only rejected writes came after it |
| PaymentCollection.ConfirmationHasPendingTimer | src/components/payment-collection.tsx:18-21 | whenever copied is set, a reset timer is still pending |
| PaymentCollection.StaleTimerClearsNewerConfirmation | src/components/payment-collection.tsx:20 | two successful copies followed by the first copy's timer leave copied null while the second copy's timer is still pending |
| PaymentCollection.CopyIndicator.constructor | src/components/payment-collection.tsx:12 | copied starts as null with an empty history |
| PaymentCollection.CopyIndicator.OnCopySucceeded | src/components/payment-collection.tsx:18-19 | a resolved write sets copied to its key, overwriting any previous key, and schedules a reset timer behind those already pending |
| PaymentCollection.CopyIndicator.OnCopyFailed | src/components/payment-collection.tsx:18-21 | a rejected write leaves copied unchanged |
| PaymentCollection.CopyIndicator.OnResetTimerFired | src/components/payment-collection.tsx:20 | the oldest pending timer fires and sets copied to null, whichever key scheduled it |
| PaymentCollection.CopyIndicator.CopyToClipboard | src/components/payment-collection.tsx:17-22 | after the clipboard answers, copied is the key on success and unchanged on failure |
| PaymentCollection.CopyIndicator.IsConfirmed | src/components/payment-collection.tsx:71-113 | a button shows the confirmed icon exactly when its key is what the event history confirms |

## Left out

- The clipboard call `navigator.clipboard.writeText` and the 2000 ms `setTimeout` belong to the browser. The model sees only their outcomes, as events: a write resolved, a write rejected, a timer fired. Wall-clock time and promise scheduling are not modelled. `CopyButton.text` records the argument a button passes to the clipboard, and `None` stands for an undefined field passed through a non-null assertion. What the clipboard then stores is not modelled.
- Markup, CSS classes, icons, and the `Card`, `Tabs`, `Button` and `ThemeToggle` components are presentation or foreign code. The view keeps only what is decided: which triggers, panels, blocks and buttons exist, their keys and values, and whether a button shows the check icon.
- What the tab library does when the default value matches no tab, and tab switching itself, are left out. Only the literal default value is modelled.
- `siteConfig` is kept as a constant record. The view reads only its `pageTitle`, `pageDescription`, `thankYouText` and `enableThemeToggle` fields.
- src/app/layout.tsx (page metadata, font loading, the theme provider) is framework plumbing and is not part of this model.
- PaymentCollection.CopyIndicator.OnResetTimerFired: requires that the firing timer is the oldest one pending. All timers have the same 2000 ms delay, so the browser never fires them in any other order. No case the page can reach is excluded.
