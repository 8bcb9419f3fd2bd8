/**
 * The payment-link builder: the checkout parameters `m=<merchant>;ac.order_id=<order>;a=<amount>`
 * (with `;c=<return url>` when one is given) are UTF-8 encoded, Base64 encoded (section 4 of
 * RFC 4648) and appended to the checkout host.
 */
module PaymentLink {
  import opened Common
  import Base64
  import Utf8
  import opened Rpc

  const TestCheckoutUrl: string := "https://test.paycom.uz"
  const CheckoutUrl: string := "https://checkout.paycom.uz"

  /** The checkout host for the mode the server runs in. */
  function CheckoutBase(cfg: Config): (url: string)
    ensures url == TestCheckoutUrl <==> cfg.testMode
    ensures url == CheckoutUrl <==> !cfg.testMode
  {
    if cfg.testMode then TestCheckoutUrl else CheckoutUrl
  }

  /** The body of a link request; amounts are in whole sum. */
  datatype LinkRequest = LinkRequest(order_id: Option<string>, amount: Option<int>, return_url: Option<string>)

  /** The success response; `amount_tiyin` is the amount in minor units (1 sum = 100 tiyin). */
  datatype Link = Link(payment_url: string, order_id: string, amount: int, amount_tiyin: int)

  /** HTTP 400 for a missing field, HTTP 500 when no merchant id is configured. */
  datatype LinkError = BadRequest | NotConfigured {
    function HttpStatus(): int {
      match this
      case BadRequest => 400
      case NotConfigured => 500
    }
  }

  function DigitChar(d: int): char
    requires 0 <= d < 10
  {
    ('0' as int + d) as char
  }

  /** The number a string of decimal digits denotes, most significant digit first. */
  function DecimalValue(s: string): nat
    requires forall k :: 0 <= k < |s| ==> '0' <= s[k] <= '9'
  {
    if |s| == 0 then 0
    else 10 * DecimalValue(s[..|s| - 1]) + (s[|s| - 1] as int - '0' as int)
  }

  /** The number a printed integer denotes: an optional `-` followed by decimal digits. */
  function SignedValue(s: string): int
    requires |s| >= 1
    requires s[0] == '-' || '0' <= s[0] <= '9'
    requires forall k :: 1 <= k < |s| ==> '0' <= s[k] <= '9'
  {
    if s[0] == '-' then -(DecimalValue(s[1..]) as int) else DecimalValue(s)
  }

  /** Decimal digits of a natural number, without leading zeros. */
  function Digits(n: nat): (s: string)
    ensures |s| >= 1 && forall k :: 0 <= k < |s| ==> '0' <= s[k] <= '9'
    ensures DecimalValue(s) == n
    ensures |s| > 1 ==> s[0] != '0'
  {
    if n < 10 then [DigitChar(n)]
    else
      var init := Digits(n / 10);
      var s := init + [DigitChar(n % 10)];
      assert s[..|s| - 1] == init;
      s
  }

  /**
   * How a template literal prints an integer below 1e21 in magnitude: `-` before the digits
   * of a negative one. Larger numbers print in exponent form, which is not modelled.
   */
  function IntToString(n: int): (s: string)
    ensures |s| >= 1 && (s[0] == '-' || '0' <= s[0] <= '9')
    ensures forall k :: 1 <= k < |s| ==> '0' <= s[k] <= '9'
    ensures SignedValue(s) == n
    ensures s[0] == '-' <==> n < 0
  {
    if n < 0 then
      var s := "-" + Digits(-n);
      assert s[1..] == Digits(-n);
      s
    else Digits(n)
  }

  /** The checkout parameter string. */
  function ParamString(merchantId: string, orderId: string, amountTiyin: int, returnUrl: Option<string>): string {
    "m=" + merchantId + ";ac.order_id=" + orderId + ";a=" + IntToString(amountTiyin)
      + (if Truthy(returnUrl) then ";c=" + returnUrl.value else "")
  }

  /** The opaque token of the checkout URL. */
  function Token(params: string): string {
    Base64.Encode(Utf8.Encode(params))
  }

  /** `POST /api/create-payment`. */
  function CreatePayment(cfg: Config, req: LinkRequest): (r: Result<Link, LinkError>)
    ensures r == Failure(BadRequest) <==> !Truthy(req.order_id) || !TruthyNum(req.amount)
    ensures r == Failure(NotConfigured) <==> Truthy(req.order_id) && TruthyNum(req.amount) && cfg.merchantId == ""
    ensures r.Success? ==>
      && r.value.order_id == req.order_id.value
      && r.value.amount == req.amount.value
      && r.value.amount_tiyin == req.amount.value * 100
      && r.value.payment_url ==
           CheckoutBase(cfg) + "/" + Token(ParamString(cfg.merchantId, req.order_id.value, req.amount.value * 100, req.return_url))
  {
    if !Truthy(req.order_id) || !TruthyNum(req.amount) then Failure(BadRequest)
    else if cfg.merchantId == "" then Failure(NotConfigured)
    else
      var amountTiyin := req.amount.value * 100;
      var params := ParamString(cfg.merchantId, req.order_id.value, amountTiyin, req.return_url);
      Success(Link(CheckoutBase(cfg) + "/" + Token(params), req.order_id.value, req.amount.value, amountTiyin))
  }

  /**
   * The part of a successful link after the checkout host decodes back to exactly the
   * parameter string: Base64 decoding yields its UTF-8 octets, which decode to it.
   */
  lemma LinkTokenRoundTrip(cfg: Config, req: LinkRequest)
    requires CreatePayment(cfg, req).Success?
    ensures var url := CreatePayment(cfg, req).value.payment_url;
      var prefix := CheckoutBase(cfg) + "/";
      var params := ParamString(cfg.merchantId, req.order_id.value, req.amount.value * 100, req.return_url);
      |prefix| <= |url| && url[..|prefix|] == prefix &&
      Base64.Decode(url[|prefix|..]) == Some(Utf8.Encode(params)) &&
      Utf8.Decode(Utf8.Encode(params)) == Some(params)
  {
    var url := CreatePayment(cfg, req).value.payment_url;
    var prefix := CheckoutBase(cfg) + "/";
    var params := ParamString(cfg.merchantId, req.order_id.value, req.amount.value * 100, req.return_url);
    assert url == prefix + Token(params);
    assert url[|prefix|..] == Token(params);
    Base64.DecodeEncode(Utf8.Encode(params));
    Utf8.DecodeEncode(params);
  }

  /**
   * When no field contains `;`, splitting the parameter string at `;` gives back the
   * individual `key=value` fields, so the provider reads exactly the values sent.
   */
  lemma ParamFieldsRecoverable(merchantId: string, orderId: string, amountTiyin: int, returnUrl: Option<string>)
    requires ';' !in merchantId && ';' !in orderId
    requires returnUrl.Some? ==> ';' !in returnUrl.value
    ensures Split(ParamString(merchantId, orderId, amountTiyin, returnUrl), ';') ==
      ["m=" + merchantId, "ac.order_id=" + orderId, "a=" + IntToString(amountTiyin)]
      + (if Truthy(returnUrl) then ["c=" + returnUrl.value] else [])
  {
    var f0, f1, f2 := "m=" + merchantId, "ac.order_id=" + orderId, "a=" + IntToString(amountTiyin);
    var parts := [f0, f1, f2] + (if Truthy(returnUrl) then ["c=" + returnUrl.value] else []);
    ParamStringIsJoin(merchantId, orderId, amountTiyin, returnUrl);
    forall k | 0 <= k < |parts| ensures ';' !in parts[k] {
      if k == 2 {
        assert forall j :: 0 <= j < |IntToString(amountTiyin)| ==> IntToString(amountTiyin)[j] != ';';
      }
    }
    SplitJoin(parts, ';');
  }

  /** The `a=` field of a created link prints the amount in tiyin (100 per sum), and reads back as it. */
  lemma LinkAmountRecoverable(cfg: Config, req: LinkRequest)
    requires CreatePayment(cfg, req).Success?
    requires ';' !in cfg.merchantId && ';' !in req.order_id.value
    requires req.return_url.Some? ==> ';' !in req.return_url.value
    ensures var tiyin := CreatePayment(cfg, req).value.amount_tiyin;
      var fields := Split(ParamString(cfg.merchantId, req.order_id.value, req.amount.value * 100, req.return_url), ';');
      |fields| >= 3 && fields[2] == "a=" + IntToString(tiyin) &&
      SignedValue(IntToString(tiyin)) == req.amount.value * 100
  {
    ParamFieldsRecoverable(cfg.merchantId, req.order_id.value, req.amount.value * 100, req.return_url);
  }

  lemma ParamStringIsJoin(merchantId: string, orderId: string, amountTiyin: int, returnUrl: Option<string>)
    ensures ParamString(merchantId, orderId, amountTiyin, returnUrl) ==
      Join(["m=" + merchantId, "ac.order_id=" + orderId, "a=" + IntToString(amountTiyin)]
           + (if Truthy(returnUrl) then ["c=" + returnUrl.value] else []), ';')
  {
    var f0, f1, f2 := "m=" + merchantId, "ac.order_id=" + orderId, "a=" + IntToString(amountTiyin);
    var head := f0 + ";" + f1 + ";" + f2;
    assert "m=" + merchantId + ";ac.order_id=" + orderId + ";a=" + IntToString(amountTiyin) == head by {
      assert ";ac.order_id=" == ";" + "ac.order_id=";
      assert ";a=" == ";" + "a=";
    }
    if Truthy(returnUrl) {
      var f3 := "c=" + returnUrl.value;
      assert ";c=" + returnUrl.value == ";" + f3;
      JoinFour(f0, f1, f2, f3);
    } else {
      assert ParamString(merchantId, orderId, amountTiyin, returnUrl) == head + "";
      assert head + "" == head;
      assert [f0, f1, f2] + [] == [f0, f1, f2];
      JoinThree(f0, f1, f2);
    }
  }

  lemma JoinThree(a: string, b: string, c: string)
    ensures Join([a, b, c], ';') == a + ";" + b + ";" + c
  {
    assert [b, c][1..] == [c];
    assert Join([b, c], ';') == b + ";" + c;
    assert [a, b, c][1..] == [b, c];
    assert Join([a, b, c], ';') == a + ";" + (b + ";" + c);
  }

  lemma JoinFour(a: string, b: string, c: string, d: string)
    ensures Join([a, b, c] + [d], ';') == a + ";" + b + ";" + c + ";" + d
  {
    assert [c, d][1..] == [d];
    assert Join([c, d], ';') == c + ";" + d;
    assert [b, c, d][1..] == [c, d];
    assert Join([b, c, d], ';') == b + ";" + (c + ";" + d);
    assert ([a, b, c] + [d])[1..] == [b, c, d];
    assert Join([a, b, c] + [d], ';') == a + ";" + (b + ";" + (c + ";" + d));
  }
}
