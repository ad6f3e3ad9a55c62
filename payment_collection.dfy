/**
 * The collection view of the donation page: which tab, block and copy
 * button appear for each enabled payment method, and the single `copied`
 * state cell that the copy buttons set and the reset timers clear.
 */
module PaymentCollection {

  import opened Wrappers
  import opened PaymentConfig

  // ---------------------------------------------------------------------
  // Render policy
  // ---------------------------------------------------------------------

  /** JavaScript truthiness of an optional string field: present and non-empty. */
  predicate Truthy(field: Option<string>)
  {
    field.Some? && field.value != ""
  }

  /**
   * A copy button: the key it writes into `copied` and the text it hands to
   * the clipboard. `text` is `None` when the component passes an undefined
   * field through its non-null assertion.
   */
  datatype CopyButton = CopyButton(key: string, text: Option<string>)

  /** The type-specific block under a tab panel's heading. */
  datatype Block =
    | QrImage(src: string, alt: string)
    | AddressBlock(address: string, copy: CopyButton)
    | BankCardBlock(cardNumber: string, bankName: Option<string>, accountName: Option<string>,
                    copyCard: CopyButton, copyName: CopyButton)

  function QrBlocks(m: PaymentMethodConfig): seq<Block>
  {
    if m.kind == QrCode && Truthy(m.qrCodeUrl) then [QrImage(m.qrCodeUrl.value, m.name + "收款码")] else []
  }

  function AddressBlocks(m: PaymentMethodConfig): seq<Block>
  {
    if m.kind == Address && Truthy(m.address) then [AddressBlock(m.address.value, CopyButton(m.id, m.address))] else []
  }

  /** The account-name button is not conditioned on `accountName`. */
  function BankCardBlocks(m: PaymentMethodConfig): seq<Block>
  {
    if m.kind == BankCard && Truthy(m.bankCardNumber) then
      [BankCardBlock(m.bankCardNumber.value, m.bankName, m.accountName,
                     CopyButton(m.id + "-card", m.bankCardNumber),
                     CopyButton(m.id + "-name", m.accountName))]
    else []
  }

  /** The three guarded blocks of a panel, in the order the component renders them. */
  function RenderBlocks(m: PaymentMethodConfig): (r: seq<Block>)
    ensures |r| <= 1
  {
    QrBlocks(m) + AddressBlocks(m) + BankCardBlocks(m)
  }

  function BlockButtons(b: Block): seq<CopyButton>
  {
    match b
    case QrImage(_, _) => []
    case AddressBlock(_, copy) => [copy]
    case BankCardBlock(_, _, _, copyCard, copyName) => [copyCard, copyName]
  }

  /** The copy buttons of a list of blocks, in order. */
  function ButtonsOf(blocks: seq<Block>): seq<CopyButton>
  {
    if blocks == [] then [] else BlockButtons(blocks[0]) + ButtonsOf(blocks[1..])
  }

  lemma ButtonsOfSingle(b: Block)
    ensures ButtonsOf([b]) == BlockButtons(b)
  {
    assert [b][1..] == [];
  }

  function MethodButtons(m: PaymentMethodConfig): seq<CopyButton>
  {
    ButtonsOf(RenderBlocks(m))
  }

  /** The QR image appears exactly for a `qrcode` method with a non-empty URL, shows that URL, and offers no copy button. */
  lemma QrCodePolicy(m: PaymentMethodConfig)
    ensures (exists b :: b in RenderBlocks(m) && b.QrImage?) <==> m.kind == QrCode && Truthy(m.qrCodeUrl)
    ensures forall b :: b in RenderBlocks(m) && b.QrImage? ==> Some(b.src) == m.qrCodeUrl
    ensures m.kind == QrCode ==> MethodButtons(m) == []
  {
    var r := RenderBlocks(m);
    if m.kind == QrCode && Truthy(m.qrCodeUrl) {
      assert r == QrBlocks(m) && r[0] in r;
      ButtonsOfSingle(r[0]);
    }
  }

  /** The address copy button exists exactly for an `address` method with a non-empty address; its key is the method id. */
  lemma AddressPolicy(m: PaymentMethodConfig)
    ensures (exists b :: b in RenderBlocks(m) && b.AddressBlock?) <==> m.kind == Address && Truthy(m.address)
    ensures m.kind == Address ==>
      MethodButtons(m) == if Truthy(m.address) then [CopyButton(m.id, m.address)] else []
  {
    if m.kind == Address && Truthy(m.address) {
      var r := RenderBlocks(m);
      assert r == AddressBlocks(m) && r[0] in r;
      ButtonsOfSingle(r[0]);
    }
  }

  /**
   * The bank-card block appears exactly for a `bankcard` method with a
   * non-empty card number, and then always offers the card and the name
   * buttons, whatever `accountName` holds.
   */
  lemma BankCardPolicy(m: PaymentMethodConfig)
    ensures (exists b :: b in RenderBlocks(m) && b.BankCardBlock?) <==> m.kind == BankCard && Truthy(m.bankCardNumber)
    ensures m.kind == BankCard ==>
      MethodButtons(m) == if Truthy(m.bankCardNumber)
                          then [CopyButton(m.id + "-card", m.bankCardNumber), CopyButton(m.id + "-name", m.accountName)]
                          else []
  {
    if m.kind == BankCard && Truthy(m.bankCardNumber) {
      var r := RenderBlocks(m);
      assert r == BankCardBlocks(m) && r[0] in r;
      ButtonsOfSingle(r[0]);
    }
  }

  /** The two bank-card keys of one method differ (at the first letter after the dash). */
  lemma BankCardKeysDistinct(id: string)
    ensures id + "-card" != id + "-name"
  {
    assert (id + "-card")[|id| + 1] == 'c';
    assert (id + "-name")[|id| + 1] == 'n';
  }

  /** Distinct identifiers do not guarantee distinct copy keys: a bank card "a" and an address "a-card" both use the key "a-card". */
  lemma CopyKeysCanCollide()
    ensures var card := PaymentMethodConfig("a", "", "", BankCard, None, None, Some("1"), None, None, true);
            var addr := PaymentMethodConfig("a-card", "", "", Address, None, Some("x"), None, None, None, true);
            card.id != addr.id && MethodButtons(card)[0].key == MethodButtons(addr)[0].key
  {
  }

  // ---------------------------------------------------------------------
  // The tabbed view
  // ---------------------------------------------------------------------

  /** The literal default tab value; the view has no fallback to the first method. */
  const DefaultTab: string := "alipay"

  datatype TabTrigger = TabTrigger(key: string, value: string, caption: string)

  datatype TabPanel = TabPanel(key: string, value: string, heading: string, description: string, blocks: seq<Block>)

  datatype View = View(
    showThemeToggle: bool,
    title: string,
    subtitle: string,
    defaultValue: string,
    triggers: seq<TabTrigger>,
    panels: seq<TabPanel>,
    footer: string
  )

  function Trigger(m: PaymentMethodConfig): TabTrigger
  {
    TabTrigger(m.id, m.id, m.name)
  }

  function Panel(m: PaymentMethodConfig): TabPanel
  {
    TabPanel(m.id, m.id, m.name, m.description, RenderBlocks(m))
  }

  /** The card for a list of methods: one trigger and one panel per method, in list order. */
  function RenderView(methods: seq<PaymentMethodConfig>): (v: View)
    ensures |v.triggers| == |v.panels| == |methods|
    ensures forall i :: 0 <= i < |methods| ==>
      v.triggers[i].value == v.triggers[i].key == v.panels[i].value == v.panels[i].key == methods[i].id
    ensures forall i :: 0 <= i < |methods| ==> v.panels[i].blocks == RenderBlocks(methods[i])
  {
    View(siteConfig.enableThemeToggle, siteConfig.pageTitle, siteConfig.pageDescription, DefaultTab,
         seq(|methods|, i requires 0 <= i < |methods| => Trigger(methods[i])),
         seq(|methods|, i requires 0 <= i < |methods| => Panel(methods[i])),
         siteConfig.thankYouText)
  }

  /** PaymentCollection: the view of the enabled methods. */
  function PageView(): (v: View)
    ensures |v.triggers| == |v.panels| == |GetEnabledPaymentMethods()|
    ensures forall i :: 0 <= i < |v.triggers| ==>
      v.triggers[i].value == v.triggers[i].key == v.panels[i].value == v.panels[i].key == GetEnabledPaymentMethods()[i].id
    ensures forall i :: 0 <= i < |v.panels| ==> v.panels[i].blocks == RenderBlocks(GetEnabledPaymentMethods()[i])
    ensures v.defaultValue == DefaultTab
  {
    RenderView(GetEnabledPaymentMethods())
  }

  /** The default value matches some trigger exactly when a method with id "alipay" is in the list; nothing else is selected instead. */
  lemma DefaultTabLiteral(methods: seq<PaymentMethodConfig>)
    ensures RenderView(methods).defaultValue == "alipay"
    ensures (exists i :: 0 <= i < |methods| && RenderView(methods).triggers[i].value == RenderView(methods).defaultValue)
        <==> (exists i :: 0 <= i < |methods| && methods[i].id == "alipay")
  {
  }

  /** Without a method "alipay" no tab matches the default, even when other methods exist. */
  lemma DefaultTabWithoutAlipay()
    ensures var v := RenderView(paymentConfig[1..]);
            |v.triggers| == 3 && forall i :: 0 <= i < |v.triggers| ==> v.triggers[i].value != v.defaultValue
  {
    assert paymentConfig[1..][0].id[0] == 'w';
    assert paymentConfig[1..][1].id[0] == 'u';
    assert paymentConfig[1..][2].id[0] == 'b';
  }

  /** The tabs follow the enabled list; for the shipped list the default tab is the first one. */
  lemma PageTabsFollowEnabledList()
    ensures forall i :: 0 <= i < |PageView().triggers| ==>
      PageView().triggers[i].value == GetEnabledPaymentMethods()[i].id
    ensures |PageView().triggers| == 4 && PageView().triggers[0].value == PageView().defaultValue
  {
    ShippedAllEnabled();
  }

  // ---------------------------------------------------------------------
  // Confirmation icons
  // ---------------------------------------------------------------------

  /** A button shows the check icon exactly when `copied` holds its key. */
  predicate ShowsCheck(b: CopyButton, copied: Option<string>)
  {
    copied == Some(b.key)
  }

  /** Number of buttons showing the check icon. */
  function CheckCount(buttons: seq<CopyButton>, copied: Option<string>): nat
  {
    if buttons == [] then 0
    else (if ShowsCheck(buttons[0], copied) then 1 else 0) + CheckCount(buttons[1..], copied)
  }

  predicate DistinctKeys(buttons: seq<CopyButton>)
  {
    forall i, j :: 0 <= i < j < |buttons| ==> buttons[i].key != buttons[j].key
  }

  /** All copy buttons of a view, panel by panel. */
  function ViewButtons(panels: seq<TabPanel>): seq<CopyButton>
  {
    if panels == [] then [] else ButtonsOf(panels[0].blocks) + ViewButtons(panels[1..])
  }

  /** With distinct keys at most one button is confirmed at a time. */
  lemma {:induction false} AtMostOneCheck(buttons: seq<CopyButton>, copied: Option<string>)
    requires DistinctKeys(buttons)
    ensures CheckCount(buttons, copied) <= 1
  {
    if buttons != [] {
      var rest := buttons[1..];
      assert DistinctKeys(rest) by {
        forall i, j | 0 <= i < j < |rest| ensures rest[i].key != rest[j].key {
          assert rest[i] == buttons[i + 1] && rest[j] == buttons[j + 1];
        }
      }
      AtMostOneCheck(rest, copied);
      if ShowsCheck(buttons[0], copied) {
        NoneChecked(rest, copied, buttons[0].key);
      }
    }
  }

  /** When `copied` holds a key no button in the list has, none shows the check icon. */
  lemma {:induction false} NoneChecked(buttons: seq<CopyButton>, copied: Option<string>, key: string)
    requires copied == Some(key)
    requires forall i :: 0 <= i < |buttons| ==> buttons[i].key != key
    ensures CheckCount(buttons, copied) == 0
  {
    if buttons != [] {
      NoneChecked(buttons[1..], copied, key);
    }
  }

  /** The copy buttons of a list of methods, method by method. */
  function AllMethodButtons(methods: seq<PaymentMethodConfig>): seq<CopyButton>
  {
    if methods == [] then [] else MethodButtons(methods[0]) + AllMethodButtons(methods[1..])
  }

  /** The buttons of the rendered panels are the buttons of the methods, in list order. */
  lemma {:induction false} ViewButtonsOfRender(methods: seq<PaymentMethodConfig>)
    ensures ViewButtons(RenderView(methods).panels) == AllMethodButtons(methods)
  {
    if methods != [] {
      assert RenderView(methods).panels[1..] == RenderView(methods[1..]).panels;
      ViewButtonsOfRender(methods[1..]);
    }
  }

  lemma ShippedQrButtons()
    ensures MethodButtons(alipay) == [] && MethodButtons(wechat) == []
  {
    QrCodePolicy(alipay);
    QrCodePolicy(wechat);
  }

  lemma ShippedAddressButtons()
    ensures MethodButtons(usdt) == [CopyButton("usdt", usdt.address)]
  {
    AddressPolicy(usdt);
  }

  lemma ShippedBankCardButtons()
    ensures MethodButtons(bankcard) ==
      [CopyButton("bankcard-card", bankcard.bankCardNumber), CopyButton("bankcard-name", bankcard.accountName)]
  {
    BankCardPolicy(bankcard);
    assert bankcard.id + "-card" == "bankcard-card";
    assert bankcard.id + "-name" == "bankcard-name";
  }

  /** The copy buttons of the shipped methods. */
  lemma ShippedMethodButtons()
    ensures AllMethodButtons(paymentConfig) == [
      CopyButton("usdt", usdt.address),
      CopyButton("bankcard-card", bankcard.bankCardNumber),
      CopyButton("bankcard-name", bankcard.accountName)]
  {
    var c := paymentConfig;
    ShippedQrButtons();
    ShippedAddressButtons();
    ShippedBankCardButtons();
    assert AllMethodButtons(c[3..]) == MethodButtons(bankcard) by {
      assert c[3..][0] == bankcard && c[3..][1..] == [];
    }
    assert AllMethodButtons(c[2..]) == MethodButtons(usdt) + MethodButtons(bankcard) by {
      assert c[2..][0] == usdt && c[2..][1..] == c[3..];
    }
    assert AllMethodButtons(c[1..]) == AllMethodButtons(c[2..]) by {
      assert c[1..][0] == wechat && c[1..][1..] == c[2..];
    }
    assert AllMethodButtons(c) == AllMethodButtons(c[1..]) by {
      assert c[0] == alipay;
    }
  }

  /** The copy buttons of the shipped page are those of the shipped methods. */
  lemma PageButtons()
    ensures ViewButtons(PageView().panels) == AllMethodButtons(paymentConfig)
  {
    ShippedAllEnabled();
    ViewButtonsOfRender(paymentConfig);
  }

  /** The three shipped copy keys are distinct. */
  lemma ShippedKeysDistinct()
    ensures DistinctKeys(AllMethodButtons(paymentConfig))
  {
    ShippedMethodButtons();
    var bs := AllMethodButtons(paymentConfig);
    assert bs[0].key[0] == 'u' && bs[1].key[0] == 'b' && bs[2].key[0] == 'b';
    BankCardKeysDistinct("bankcard");
  }

  /** On the shipped page at most one check icon shows at a time. */
  lemma ShippedButtons(copied: Option<string>)
    ensures CheckCount(ViewButtons(PageView().panels), copied) <= 1
  {
    PageButtons();
    ShippedKeysDistinct();
    AtMostOneCheck(AllMethodButtons(paymentConfig), copied);
  }

  // ---------------------------------------------------------------------
  // The `copied` state cell
  // ---------------------------------------------------------------------

  /**
   * What can happen to `copied`: a clipboard write resolves (its
   * `then` runs), a write is rejected (there is no `catch`), or a reset
   * timer scheduled by an earlier successful copy fires.
   */
  datatype CopyEvent =
    | CopySucceeded(key: string)
    | CopyFailed(key: string)
    | ResetTimerFired(scheduledBy: string)

  /** One event's effect on `copied`; the reset ignores which copy scheduled it. */
  function Step(copied: Option<string>, e: CopyEvent): (r: Option<string>)
    ensures r.Some? ==> r == copied || e == CopySucceeded(r.value)
    ensures r != copied ==> e.CopySucceeded? || e.ResetTimerFired?
    ensures e.CopySucceeded? ==> r == Some(e.key)
    ensures e.ResetTimerFired? ==> r == None
  {
    match e
    case CopySucceeded(key) => Some(key)
    case CopyFailed(_) => copied
    case ResetTimerFired(_) => None
  }

  /** `copied` after a sequence of events. */
  function Run(copied: Option<string>, events: seq<CopyEvent>): Option<string>
    decreases |events|
  {
    if events == [] then copied
    else Step(Run(copied, events[..|events| - 1]), events[|events| - 1])
  }

  /** The last successful copy was of `key`, and only failed writes came after it. */
  predicate Confirms(events: seq<CopyEvent>, key: string)
  {
    exists i :: 0 <= i < |events| && events[i] == CopySucceeded(key) &&
      forall j :: i < j < |events| ==> events[j].CopyFailed?
  }

  /** Starting from `null`, `copied` holds `key` exactly when the history confirms `key`. */
  lemma {:induction false} RunFromNull(events: seq<CopyEvent>, key: string)
    ensures Run(None, events) == Some(key) <==> Confirms(events, key)
  {
    if events != [] {
      var n := |events| - 1;
      var prefix := events[..n];
      RunFromNull(prefix, key);
      match events[n]
      case CopySucceeded(k) =>
        if k == key {
          assert events[n] == CopySucceeded(key);
        } else {
          forall i | 0 <= i < |events| && events[i] == CopySucceeded(key)
            ensures i < n && !events[n].CopyFailed?
          {
          }
        }
      case CopyFailed(_) =>
        if Confirms(prefix, key) {
          var i :| 0 <= i < |prefix| && prefix[i] == CopySucceeded(key) &&
            forall j :: i < j < |prefix| ==> prefix[j].CopyFailed?;
          assert events[i] == CopySucceeded(key);
        }
        if Confirms(events, key) {
          var i :| 0 <= i < |events| && events[i] == CopySucceeded(key) &&
            forall j :: i < j < |events| ==> events[j].CopyFailed?;
          assert i < n && prefix[i] == CopySucceeded(key);
        }
      case ResetTimerFired(_) =>
        forall i | 0 <= i < |events| && events[i] == CopySucceeded(key)
          ensures i < n && !events[n].CopyFailed?
        {
        }
    }
  }

  /**
   * The reset timers still waiting to fire, oldest first, named by the key
   * whose copy scheduled them. All have the same delay, so they fire in the
   * order they were scheduled.
   */
  function PendingTimers(events: seq<CopyEvent>): seq<string>
    decreases |events|
  {
    if events == [] then []
    else
      var pending := PendingTimers(events[..|events| - 1]);
      match events[|events| - 1]
      case CopySucceeded(key) => pending + [key]
      case CopyFailed(_) => pending
      case ResetTimerFired(_) => if pending == [] then [] else pending[1..]
  }

  /** Every timer event in the history is the oldest pending timer firing. */
  predicate WellTimed(events: seq<CopyEvent>)
    decreases |events|
  {
    events == [] ||
    (WellTimed(events[..|events| - 1]) &&
     (events[|events| - 1].ResetTimerFired? ==>
        var pending := PendingTimers(events[..|events| - 1]);
        pending != [] && pending[0] == events[|events| - 1].scheduledBy))
  }

  /** A confirmation never outlives every timer: whenever `copied` is set, some reset is still pending. */
  lemma {:induction false} ConfirmationHasPendingTimer(events: seq<CopyEvent>)
    ensures Run(None, events).Some? ==> PendingTimers(events) != []
  {
    if events != [] {
      ConfirmationHasPendingTimer(events[..|events| - 1]);
    }
  }

  /**
   * A stale timer clears a newer confirmation: after copies of `a` and then
   * `b`, the first timer (scheduled by `a`) resets `copied` to `null` while
   * the timer scheduled by `b` is still pending.
   */
  lemma StaleTimerClearsNewerConfirmation(a: string, b: string)
    ensures var events := [CopySucceeded(a), CopySucceeded(b), ResetTimerFired(a)];
            WellTimed(events) && Run(None, events) == None && PendingTimers(events) == [b]
  {
    var first := [CopySucceeded(a)];
    var both := first + [CopySucceeded(b)];
    var events := both + [ResetTimerFired(a)];
    assert first[..0] == [];
    assert both[..1] == first;
    assert events[..2] == both;
    assert PendingTimers(first) == [a] && WellTimed(first);
    assert PendingTimers(both) == [a, b] && WellTimed(both);
    assert [a, b][1..] == [b];
    assert events == [CopySucceeded(a), CopySucceeded(b), ResetTimerFired(a)];
  }

  /** The `copied` cell of the PaymentCollection component, driven by clipboard and timer events. */
  class CopyIndicator {
    var copied: Option<string>
    /** Every event that has reached the cell so far. */
    ghost var history: seq<CopyEvent>

    /** `copied` is the effect of the history, and every timer that fired had been scheduled. */
    ghost predicate Valid()
      reads this
    {
      copied == Run(None, history) && WellTimed(history)
    }

    /** The state cell starts as `null`. */
    constructor ()
      ensures Valid() && copied == None && history == []
    {
      copied := None;
      history := [];
    }

    /** The clipboard write for `key` resolved: the cell takes that key and a reset timer is scheduled. */
    method OnCopySucceeded(key: string)
      requires Valid()
      modifies this
      ensures Valid() && history == old(history) + [CopySucceeded(key)]
      ensures copied == Some(key)
      ensures PendingTimers(history) == old(PendingTimers(history)) + [key]
    {
      history := history + [CopySucceeded(key)];
      copied := Some(key);
      assert history[..|history| - 1] == old(history);
    }

    /** The clipboard write was rejected: nothing handles it, so nothing changes. */
    method OnCopyFailed(key: string)
      requires Valid()
      modifies this
      ensures Valid() && history == old(history) + [CopyFailed(key)]
      ensures copied == old(copied)
    {
      history := history + [CopyFailed(key)];
      assert history[..|history| - 1] == old(history);
    }

    /** A 2000 ms reset timer fired: the cell returns to `null`, whichever copy scheduled it. */
    method OnResetTimerFired(scheduledBy: string)
      requires Valid()
      requires PendingTimers(history) != [] && PendingTimers(history)[0] == scheduledBy
      modifies this
      ensures Valid() && history == old(history) + [ResetTimerFired(scheduledBy)]
      ensures copied == None
      ensures PendingTimers(history) == old(PendingTimers(history))[1..]
    {
      history := history + [ResetTimerFired(scheduledBy)];
      copied := None;
      assert history[..|history| - 1] == old(history);
    }

    /** copyToClipboard for the button with `key`, once the clipboard has answered `writeSucceeded`. */
    method CopyToClipboard(key: string, writeSucceeded: bool)
      requires Valid()
      modifies this
      ensures Valid()
      ensures history == old(history) + [if writeSucceeded then CopySucceeded(key) else CopyFailed(key)]
      ensures copied == if writeSucceeded then Some(key) else old(copied)
    {
      if writeSucceeded {
        OnCopySucceeded(key);
      } else {
        OnCopyFailed(key);
      }
    }

    /** Whether the button with this key shows the check icon: exactly when the history confirms the key. */
    function IsConfirmed(key: string): (r: bool)
      reads this
      requires Valid()
      ensures r <==> Confirms(history, key)
    {
      RunFromNull(history, key);
      copied == Some(key)
    }
  }
}
