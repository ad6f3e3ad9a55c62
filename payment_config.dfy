/**
 * The configuration store of the donation page: the payment-method record,
 * the site display settings, the literal list of methods shipped with the
 * page, and its two read-only queries.
 */
module PaymentConfig {

  import opened Wrappers

  /** The `type` tag of a payment method. */
  datatype MethodType = QrCode | Address | BankCard

  /** One sponsorship channel; the variant-specific fields are optional. */
  datatype PaymentMethodConfig = PaymentMethodConfig(
    id: string,
    name: string,
    description: string,
    kind: MethodType,
    qrCodeUrl: Option<string>,
    address: Option<string>,
    bankCardNumber: Option<string>,
    bankName: Option<string>,
    accountName: Option<string>,
    enabled: bool
  )

  datatype Theme = Light | Dark | System

  /** Site-wide display text and theme settings, read and never changed. */
  datatype SiteConfig = SiteConfig(
    title: string,
    description: string,
    favicon: Option<string>,
    pageTitle: string,
    pageDescription: string,
    thankYouText: string,
    enableThemeToggle: bool,
    defaultTheme: Theme
  )

  const siteConfig: SiteConfig := SiteConfig(
    "赞助给 AcoFork",
    "赞助给 AcoFork - 支持多种支付方式的统一收款界面",
    Some("https://q2.qlogo.cn/headimg_dl?dst_uin=2726730791&spec=5"),
    "赞助给 AcoFork",
    "请选择您的赞助方式",
    "感谢您的赞助！如果您赞助后留下了个人信息，我们将会将您公布在赞助列表中。",
    true,
    System
  )

  const alipay: PaymentMethodConfig :=
    PaymentMethodConfig("alipay", "支付宝", "请使用支付宝扫码赞助",
      QrCode, Some("/alipay.svg"), None, None, None, None, true)

  const wechat: PaymentMethodConfig :=
    PaymentMethodConfig("wechat", "微信支付", "请使用微信扫码赞助",
      QrCode, Some("/wechat.svg"), None, None, None, None, true)

  const usdt: PaymentMethodConfig :=
    PaymentMethodConfig("usdt", "加密货币",
      "如需赞助，请发送USDT到下述钱包地址。仅支持如下链：AVAXCHAIN、ERC20、BEP20。请勿向当前地址进行任何非 USDT 的发送或者使用不支持的链发送。",
      Address, None, Some("0xe2bacffb78145af2e8d8fe3e28073badb7e9e56c"), None, None, None, true)

  const bankcard: PaymentMethodConfig :=
    PaymentMethodConfig("bankcard", "境内汇款", "请使用境内银行卡转账赞助",
      BankCard, None, None, Some("6217211302009309146"), Some("中国工商银行"), Some("胡丁"), true)

  /** The methods shipped with the page, in declaration order. */
  const paymentConfig: seq<PaymentMethodConfig> := [alipay, wechat, usdt, bankcard]

  // ---------------------------------------------------------------------
  // The two queries, over an arbitrary list and over the shipped one
  // ---------------------------------------------------------------------

  /** The enabled methods of the list, in list order. */
  function EnabledMethods(methods: seq<PaymentMethodConfig>): (r: seq<PaymentMethodConfig>)
    ensures |r| <= |methods|
    ensures forall i :: 0 <= i < |r| ==> r[i].enabled && r[i] in methods
  {
    if methods == [] then []
    else if methods[0].enabled then [methods[0]] + EnabledMethods(methods[1..])
    else EnabledMethods(methods[1..])
  }

  /** The first method of the list with identifier `id`; `None` stands for JavaScript's `undefined`. */
  function FindById(methods: seq<PaymentMethodConfig>, id: string): (r: Option<PaymentMethodConfig>)
    ensures r.Some? ==> r.value in methods && r.value.id == id
  {
    if methods == [] then None
    else if methods[0].id == id then Some(methods[0])
    else FindById(methods[1..], id)
  }

  /** The enabled methods of the shipped list (getEnabledPaymentMethods). */
  function GetEnabledPaymentMethods(): (r: seq<PaymentMethodConfig>)
    ensures forall i :: 0 <= i < |r| ==> r[i].enabled && r[i] in paymentConfig
  {
    EnabledMethods(paymentConfig)
  }

  /** Lookup by identifier in the shipped list (getPaymentMethodById). */
  function GetPaymentMethodById(id: string): (r: Option<PaymentMethodConfig>)
    ensures r.Some? ==> r.value in paymentConfig && r.value.id == id
  {
    FindById(paymentConfig, id)
  }

  // ---------------------------------------------------------------------
  // Reference notions
  // ---------------------------------------------------------------------

  /** `a` is obtained from `b` by deleting elements, keeping the order. */
  predicate IsSubsequence<T(==)>(a: seq<T>, b: seq<T>)
  {
    if a == [] then true
    else if b == [] then false
    else if a[0] == b[0] then IsSubsequence(a[1..], b[1..])
    else IsSubsequence(a, b[1..])
  }

  /** No two methods of the list share an `id`. */
  predicate DistinctIds(methods: seq<PaymentMethodConfig>)
  {
    forall i, j :: 0 <= i < j < |methods| ==> methods[i].id != methods[j].id
  }

  /** Index `i` is the first position whose method has identifier `id`. */
  predicate FirstWithId(methods: seq<PaymentMethodConfig>, id: string, i: int)
  {
    0 <= i < |methods| && methods[i].id == id &&
    forall j :: 0 <= j < i ==> methods[j].id != id
  }

  // ---------------------------------------------------------------------
  // Properties of the enabled filter
  // ---------------------------------------------------------------------

  /** A method is in the enabled list if and only if it is configured and enabled. */
  lemma {:induction false} EnabledMembership(methods: seq<PaymentMethodConfig>, m: PaymentMethodConfig)
    ensures m in EnabledMethods(methods) <==> m in methods && m.enabled
  {
    if methods != [] {
      EnabledMembership(methods[1..], m);
      assert methods == [methods[0]] + methods[1..];
    }
  }

  /** Exact multiplicities: every enabled method keeps each of its occurrences, every disabled one is dropped. */
  lemma {:induction false} EnabledMultiplicity(methods: seq<PaymentMethodConfig>, m: PaymentMethodConfig)
    ensures multiset(EnabledMethods(methods))[m] == if m.enabled then multiset(methods)[m] else 0
  {
    if methods != [] {
      EnabledMultiplicity(methods[1..], m);
      assert methods == [methods[0]] + methods[1..];
    }
  }

  /** The enabled list keeps declaration order. */
  lemma {:induction false} EnabledIsSubsequence(methods: seq<PaymentMethodConfig>)
    ensures IsSubsequence(EnabledMethods(methods), methods)
  {
    if methods != [] {
      EnabledIsSubsequence(methods[1..]);
      if methods[0].enabled {
        var r := EnabledMethods(methods);
        assert r[0] == methods[0] && r[1..] == EnabledMethods(methods[1..]);
      } else {
        SubsequenceOfTail(EnabledMethods(methods[1..]), methods);
      }
    }
  }

  /** A subsequence of the tail is a subsequence of the whole. */
  lemma {:induction false} SubsequenceOfTail<T>(a: seq<T>, b: seq<T>)
    requires b != [] && IsSubsequence(a, b[1..])
    ensures IsSubsequence(a, b)
  {
    if a != [] && a[0] == b[0] {
      SubsequenceDropHead(a, b[1..]);
    }
  }

  /** Dropping the head of a subsequence keeps it a subsequence. */
  lemma {:induction false} SubsequenceDropHead<T>(a: seq<T>, b: seq<T>)
    requires a != [] && IsSubsequence(a, b)
    ensures IsSubsequence(a[1..], b)
  {
    if a[0] == b[0] {
      if a[1..] != [] {
        SubsequenceOfTail(a[1..], b);
      }
    } else {
      SubsequenceDropHead(a, b[1..]);
      if a[1..] != [] {
        SubsequenceOfTail(a[1..], b);
      }
    }
  }

  /** A list whose methods are all enabled passes the filter unchanged. */
  lemma {:induction false} EnabledOfAllEnabled(methods: seq<PaymentMethodConfig>)
    requires forall i :: 0 <= i < |methods| ==> methods[i].enabled
    ensures EnabledMethods(methods) == methods
  {
    if methods != [] {
      EnabledOfAllEnabled(methods[1..]);
    }
  }

  /** Filtering twice is filtering once. */
  lemma EnabledIdempotent(methods: seq<PaymentMethodConfig>)
    ensures EnabledMethods(EnabledMethods(methods)) == EnabledMethods(methods)
  {
    EnabledOfAllEnabled(EnabledMethods(methods));
  }

  // ---------------------------------------------------------------------
  // Properties of the lookup by identifier
  // ---------------------------------------------------------------------

  /** The lookup reports "not found" exactly when no configured method has the identifier. */
  lemma {:induction false} FindNoneIff(methods: seq<PaymentMethodConfig>, id: string)
    ensures FindById(methods, id).None? <==> forall i :: 0 <= i < |methods| ==> methods[i].id != id
  {
    if methods != [] && methods[0].id != id {
      FindNoneIff(methods[1..], id);
      assert forall i :: 1 <= i < |methods| ==> methods[i] == methods[1..][i - 1];
    }
  }

  /** The lookup returns the method at the first index with that identifier. */
  lemma {:induction false} FindReturnsFirst(methods: seq<PaymentMethodConfig>, id: string, i: int)
    requires FirstWithId(methods, id, i)
    ensures FindById(methods, id) == Some(methods[i])
  {
    if i > 0 {
      FindReturnsFirst(methods[1..], id, i - 1);
    }
  }

  /** When the lookup succeeds, its result sits at a first index with that identifier. */
  lemma {:induction false} FindFoundIsFirst(methods: seq<PaymentMethodConfig>, id: string)
    requires FindById(methods, id).Some?
    ensures exists i :: FirstWithId(methods, id, i) && FindById(methods, id) == Some(methods[i])
  {
    if methods[0].id == id {
      assert FirstWithId(methods, id, 0);
    } else {
      FindFoundIsFirst(methods[1..], id);
      var k :| FirstWithId(methods[1..], id, k) && FindById(methods[1..], id) == Some(methods[1..][k]);
      assert FirstWithId(methods, id, k + 1);
    }
  }

  /** With distinct identifiers the lookup finds the method, whether it is enabled or not. */
  lemma FindIgnoresEnabled(methods: seq<PaymentMethodConfig>, i: int)
    requires DistinctIds(methods) && 0 <= i < |methods|
    ensures FindById(methods, methods[i].id) == Some(methods[i])
  {
    FindReturnsFirst(methods, methods[i].id, i);
  }

  /** A disabled method is absent from the enabled list yet still found by its identifier. */
  lemma DisabledStillFound(methods: seq<PaymentMethodConfig>, i: int)
    requires DistinctIds(methods) && 0 <= i < |methods| && !methods[i].enabled
    ensures methods[i] !in EnabledMethods(methods)
    ensures FindById(methods, methods[i].id) == Some(methods[i])
  {
    EnabledMembership(methods, methods[i]);
    FindIgnoresEnabled(methods, i);
  }

  // ---------------------------------------------------------------------
  // The shipped list
  // ---------------------------------------------------------------------

  /** The shipped identifiers are distinct and every shipped method is enabled. */
  lemma ShippedConfigWellFormed()
    ensures DistinctIds(paymentConfig)
    ensures forall i :: 0 <= i < |paymentConfig| ==> paymentConfig[i].enabled
  {
  }

  /** Since every shipped method is enabled, the page shows the whole list. */
  lemma ShippedAllEnabled()
    ensures GetEnabledPaymentMethods() == paymentConfig
  {
    ShippedConfigWellFormed();
    EnabledOfAllEnabled(paymentConfig);
  }
}
