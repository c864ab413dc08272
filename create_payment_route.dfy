/** `POST /api/paxum/create-payment` (app/api/paxum/create-payment/route.ts):
    required-field and amount checks, the `refId` composition, the provider
    request with a two-decimal amount, the created-session reply with its
    fallback URL and 24-hour expiry, and the mapping of errors to 503/500. */
module CreatePaymentRoute {
  import opened Outcomes
  import opened JsText
  import opened PaymentModel
  import opened PaxumToken

  const MissingFieldsMessage: string := "Missing required fields: amount, currency, description, reportId, leadId"
  const NonPositiveAmountMessage: string := "Amount must be greater than 0"
  const NotConfiguredMessage: string := "Payment service not configured. Please contact support."
  const CreateFailedMessage: string := "Failed to create payment"
  const PayPageBase: string := "https://pay.paxum.com/pay/"
  /** 24 * 60 * 60 * 1000. */
  const DayMillis: int := 86400000

  /** The JSON body: `amount` as the exact value of the JavaScript number, None
      when absent; the strings are "" when absent. */
  datatype CreatePaymentBody = CreatePaymentBody(
    amount: Option<real>, currency: string, description: string, reportId: string, leadId: string)

  datatype CreatePaymentReply =
    | Created(paymentSessionId: string, paymentUrl: string, refId: string, expiresAt: int)
    | ErrorBody(error: string, details: Option<string>)

  /** The reply, and the request handed to `createPaxosPayment` if it was called. */
  datatype CreatePaymentHandled = CreatePaymentHandled(
    response: Response<CreatePaymentReply>, providerRequest: Option<PaxosPaymentRequest>)

  /** The five truthiness tests of the first guard. */
  predicate HasRequiredFields(b: CreatePaymentBody) {
    b.amount.Some? && b.amount.value != 0.0
    && b.currency != "" && b.description != "" && b.reportId != "" && b.leadId != ""
  }

  // ---------------------------------------------------------------------------
  // refId
  // ---------------------------------------------------------------------------

  function RefIdPrefix(leadId: string, reportId: string): string {
    leadId + "-" + reportId + "-"
  }

  /** `${leadId}-${reportId}-${timestamp}`. */
  function RefId(leadId: string, reportId: string, timestamp: nat): string {
    RefIdPrefix(leadId, reportId) + NatToString(timestamp)
  }

  /** The timestamp is read back from the end of the refId. */
  lemma RefIdCarriesTimestamp(leadId: string, reportId: string, timestamp: nat)
    ensures var r := RefId(leadId, reportId, timestamp);
            var p := RefIdPrefix(leadId, reportId);
            && StartsWith(r, p)
            && AllDigits(r[|p|..]) && ParseNat(r[|p|..]) == timestamp
  {
    var r := RefId(leadId, reportId, timestamp);
    var p := RefIdPrefix(leadId, reportId);
    assert r[..|p|] == p;
    assert r[|p|..] == NatToString(timestamp);
    ParseNatToString(timestamp);
  }

  /** The same lead and report at different timestamps get different refIds. */
  lemma RefIdsDistinct(leadId: string, reportId: string, t1: nat, t2: nat)
    requires t1 != t2
    ensures RefId(leadId, reportId, t1) != RefId(leadId, reportId, t2)
  {
    RefIdCarriesTimestamp(leadId, reportId, t1);
    RefIdCarriesTimestamp(leadId, reportId, t2);
  }

  // ---------------------------------------------------------------------------
  // Number.prototype.toFixed(2)
  // ---------------------------------------------------------------------------

  /** The integer n with n/100 closest to x, the larger one on a tie. */
  function Cents(x: real): (n: nat)
    requires x >= 0.0
    ensures n as real <= x * 100.0 + 0.5 < n as real + 1.0
  {
    (x * 100.0 + 0.5).Floor
  }

  /** 10^21: from this value on `toFixed` gives up fixed-point notation. */
  const ExponentThreshold: real := 1_000_000_000_000_000_000_000.0

  /** `x.toFixed(2)`: fixed-point digits with two decimals below 1e21, and the
      number's own string form, in exponent notation, from 1e21 on. */
  function ToFixed2(x: real): (s: string)
    requires x >= 0.0
    ensures x < ExponentThreshold <==> IsFixed2(s)
  {
    if x < ExponentThreshold then FixedPoint2(x) else ExponentForm(x)
  }

  /** The fixed-point branch of `toFixed(2)`. */
  function FixedPoint2(x: real): (s: string)
    requires 0.0 <= x < ExponentThreshold
    ensures IsFixed2(s)
  {
    var n := Cents(x);
    NatToString(n / 100) + "." + [DigitChar(n % 100 / 10), DigitChar(n % 10)]
  }

  function Pow10(k: nat): (p: nat)
    ensures p >= 1
  {
    if k == 0 then 1 else 10 * Pow10(k - 1)
  }

  /** The decimal numeral of a positive n has one digit more than the power
      of ten at or below n. */
  lemma {:induction false} NatToStringMagnitude(n: nat)
    requires n >= 1
    ensures Pow10(|NatToString(n)| - 1) <= n < Pow10(|NatToString(n)|)
    decreases n
  {
    if n >= 10 {
      NatToStringMagnitude(n / 10);
      var k := |NatToString(n / 10)|;
      assert |NatToString(n)| == k + 1;
      assert Pow10(k) == 10 * Pow10(k - 1);
      assert Pow10(k + 1) == 10 * Pow10(k);
    }
  }

  /** `d` with its trailing '0's removed. */
  function StripTrailingZeros(d: string): (m: string)
    ensures |m| <= |d| && m == d[..|m|]
    ensures forall i :: |m| <= i < |d| ==> d[i] == '0'
    ensures |d| > 0 && d[0] != '0' ==> |m| > 0 && m[|m| - 1] != '0'
    decreases |d|
  {
    if d != [] && d[|d| - 1] == '0' then StripTrailingZeros(d[..|d| - 1]) else d
  }

  /** The exponent of x in scientific notation: the power of ten at or below x. */
  function Exponent(x: real): (e: nat)
    requires x >= ExponentThreshold
    ensures Pow10(e) <= x.Floor < Pow10(e + 1)
  {
    NatToStringMagnitude(x.Floor);
    |NatToString(x.Floor)| - 1
  }

  /** The string form of a number of 1e21 or more: its first significant
      digit, a point and the further significant digits when there are any,
      then "e+" and the exponent. */
  function ExponentForm(x: real): (s: string)
    requires x >= ExponentThreshold
    ensures |s| > 0 && IsDigit(s[0]) && s[0] != '0'
    ensures !IsFixed2(s)
  {
    var digits := NatToString(x.Floor);
    var m := StripTrailingZeros(digits);
    var mantissa := [m[0]] + (if |m| > 1 then "." + m[1..] else "");
    var e := NatToString(Exponent(x));
    var s := mantissa + "e+" + e;
    assert s[|mantissa|] == 'e';
    assert |s| - 3 <= |mantissa| ==> s[|s| - 3] == 'e' by {
      if |s| - 3 <= |mantissa| {
        assert |e| == 1;
      }
    }
    assert |s| - 3 > |mantissa| ==> s[..|s| - 3][|mantissa|] == 'e';
    s
  }

  /** Digits, a point, and exactly two digits. */
  predicate IsFixed2(s: string) {
    |s| >= 4 && AllDigits(s[..|s| - 3]) && s[|s| - 3] == '.' && IsDigit(s[|s| - 2]) && IsDigit(s[|s| - 1])
  }

  /** The value of a two-decimal numeral. */
  function Fixed2Value(s: string): real
    requires IsFixed2(s)
  {
    ParseNat(s[..|s| - 3]) as real + (10 * DigitValue(s[|s| - 2]) + DigitValue(s[|s| - 1])) as real / 100.0
  }

  /** The amount sent to the provider reads back as x rounded to the nearest
      cent: within half a cent of x. */
  lemma ToFixed2Value(x: real)
    requires 0.0 <= x < ExponentThreshold
    ensures Fixed2Value(ToFixed2(x)) == Cents(x) as real / 100.0
    ensures x - 0.005 < Fixed2Value(ToFixed2(x)) <= x + 0.005
  {
    var n := Cents(x);
    var s := ToFixed2(x);
    var w := NatToString(n / 100);
    assert s[..|s| - 3] == w;
    ParseNatToString(n / 100);
    assert DigitValue(s[|s| - 2]) == n % 100 / 10;
    assert DigitValue(s[|s| - 1]) == n % 10;
    assert 10 * (n % 100 / 10) + n % 10 == n % 100;
    assert (n / 100) * 100 + n % 100 == n;
  }

  // ---------------------------------------------------------------------------
  // The handler
  // ---------------------------------------------------------------------------

  /** The request built for the provider once the body has passed both guards. */
  function ProviderRequest(b: CreatePaymentBody, timestamp: nat): PaxosPaymentRequest
    requires b.amount.Some? && b.amount.value > 0.0
  {
    PaxosPaymentRequest(ToFixed2(b.amount.value), b.currency, b.description, RefId(b.leadId, b.reportId, timestamp))
  }

  /** The provider's `payment_url` when non-empty, else the pay page for its id. */
  function PaymentUrl(p: PaxosPaymentResponse): string {
    if p.paymentUrl.Some? && p.paymentUrl.value != "" then p.paymentUrl.value else PayPageBase + p.id
  }

  /** The catch block. */
  function ErrorResponse(t: Thrown): Response<CreatePaymentReply> {
    match t
    case Error(m) =>
      if Contains(m, MissingCredentialsPhrase) then Response(503, ErrorBody(NotConfiguredMessage, None))
      else Response(500, ErrorBody(CreateFailedMessage, Some(m)))
    case NonError => Response(500, ErrorBody(CreateFailedMessage, None))
  }

  /** `POST`: `timestamp` is the clock read for the refId, `expiryClock` the
      one read for the expiry, and `provider` what `createPaxosPayment`
      returns or throws for a request. */
  function HandleCreatePayment(body: Parsed<CreatePaymentBody>, timestamp: nat, expiryClock: int,
                               provider: PaxosPaymentRequest -> Outcome<PaxosPaymentResponse>): (r: CreatePaymentHandled)
    ensures r.providerRequest.Some? <==>
              body.Parsed? && HasRequiredFields(body.value) && body.value.amount.value > 0.0
    ensures r.response.status == 400 <==> body.Parsed? && r.providerRequest.None?
    ensures r.response.status == 201 ==> r.providerRequest.Some? && provider(r.providerRequest.value).Ok?
  {
    match body
    case Unparsable(m) => CreatePaymentHandled(ErrorResponse(Error(m)), None)
    case Parsed(b) =>
      if !HasRequiredFields(b) then
        CreatePaymentHandled(Response(400, ErrorBody(MissingFieldsMessage, None)), None)
      else if b.amount.value <= 0.0 then
        CreatePaymentHandled(Response(400, ErrorBody(NonPositiveAmountMessage, None)), None)
      else
        var request := ProviderRequest(b, timestamp);
        match provider(request)
        case Threw(t) => CreatePaymentHandled(ErrorResponse(t), Some(request))
        case Ok(p) =>
          CreatePaymentHandled(
            Response(201, Created(p.id, PaymentUrl(p), request.refId, expiryClock + DayMillis)),
            Some(request))
  }

  // ---------------------------------------------------------------------------
  // Properties
  // ---------------------------------------------------------------------------

  /** A falsy field gives 400 with the missing-fields message and no provider call;
      an amount of 0 is caught here, before the positivity check. */
  lemma MissingFieldRejected(b: CreatePaymentBody, timestamp: nat, expiryClock: int,
                             provider: PaxosPaymentRequest -> Outcome<PaxosPaymentResponse>)
    requires !HasRequiredFields(b)
    ensures HandleCreatePayment(Parsed(b), timestamp, expiryClock, provider)
            == CreatePaymentHandled(Response(400, ErrorBody(MissingFieldsMessage, None)), None)
  {
  }

  /** A negative amount gives 400 "Amount must be greater than 0" without a provider call. */
  lemma NegativeAmountRejected(b: CreatePaymentBody, timestamp: nat, expiryClock: int,
                               provider: PaxosPaymentRequest -> Outcome<PaxosPaymentResponse>)
    requires HasRequiredFields(b) && b.amount.value < 0.0
    ensures HandleCreatePayment(Parsed(b), timestamp, expiryClock, provider)
            == CreatePaymentHandled(Response(400, ErrorBody(NonPositiveAmountMessage, None)), None)
  {
  }

  /** Past the guards the provider gets the body's currency and description,
      the composed refId and the amount as `toFixed(2)` writes it, whatever
      the currency code is (an unsupported "XYZ" included): rounded to cents
      below 1e21, in exponent notation from there on. */
  lemma ProviderRequestCarriesBody(b: CreatePaymentBody, timestamp: nat, expiryClock: int,
                                   provider: PaxosPaymentRequest -> Outcome<PaxosPaymentResponse>)
    requires HasRequiredFields(b) && b.amount.value > 0.0
    ensures var h := HandleCreatePayment(Parsed(b), timestamp, expiryClock, provider);
            && h.providerRequest.Some?
            && h.providerRequest.value.currency == b.currency
            && h.providerRequest.value.description == b.description
            && h.providerRequest.value.refId == RefId(b.leadId, b.reportId, timestamp)
            && h.providerRequest.value.amount == ToFixed2(b.amount.value)
            && (b.amount.value < ExponentThreshold ==>
                  && IsFixed2(h.providerRequest.value.amount)
                  && b.amount.value - 0.005 < Fixed2Value(h.providerRequest.value.amount) <= b.amount.value + 0.005)
            && (b.amount.value >= ExponentThreshold ==>
                  h.providerRequest.value.amount == ExponentForm(b.amount.value)
                  && !IsFixed2(h.providerRequest.value.amount))
  {
    if b.amount.value < ExponentThreshold {
      ToFixed2Value(b.amount.value);
    }
  }

  /** The schema's currency list is not consulted: "XYZ" reaches the provider. */
  lemma UnsupportedCurrencyReachesProvider(timestamp: nat, expiryClock: int,
                                           provider: PaxosPaymentRequest -> Outcome<PaxosPaymentResponse>)
    ensures var b := CreatePaymentBody(Some(10.0), "XYZ", "Report", "r1", "l1");
            && ParseCurrency(b.currency).None?
            && HandleCreatePayment(Parsed(b), timestamp, expiryClock, provider).providerRequest.value.currency == "XYZ"
  {
  }

  /** A created payment answers 201 with the provider's id, its URL or the pay
      page fallback, the refId that was sent, and an expiry one day on. */
  lemma CreatedReply(b: CreatePaymentBody, timestamp: nat, expiryClock: int,
                     provider: PaxosPaymentRequest -> Outcome<PaxosPaymentResponse>)
    requires HasRequiredFields(b) && b.amount.value > 0.0
    requires provider(ProviderRequest(b, timestamp)).Ok?
    ensures var p := provider(ProviderRequest(b, timestamp)).value;
            var h := HandleCreatePayment(Parsed(b), timestamp, expiryClock, provider);
            && h.response.status == 201
            && h.response.body.Created?
            && h.response.body.paymentSessionId == p.id
            && (p.paymentUrl.Some? && p.paymentUrl.value != "" ==> h.response.body.paymentUrl == p.paymentUrl.value)
            && (p.paymentUrl.None? || p.paymentUrl.value == "" ==> h.response.body.paymentUrl == PayPageBase + p.id)
            && h.response.body.refId == h.providerRequest.value.refId
            && h.response.body.expiresAt == expiryClock + 86400000
  {
  }

  /** The response status is 201 exactly when the provider created the payment;
      every failure is 400, 500 or 503. */
  lemma StatusClassification(body: Parsed<CreatePaymentBody>, timestamp: nat, expiryClock: int,
                             provider: PaxosPaymentRequest -> Outcome<PaxosPaymentResponse>)
    ensures var h := HandleCreatePayment(body, timestamp, expiryClock, provider);
            && (h.response.status == 201 <==> h.providerRequest.Some? && provider(h.providerRequest.value).Ok?)
            && (h.response.status != 201 ==> h.response.status in {400, 500, 503} && h.response.body.ErrorBody?)
  {
  }

  /** Errors: one whose message mentions missing credentials is 503, any other
      Error is 500 with its message as details, a non-Error is 500 without. */
  lemma ErrorMapping(t: Thrown)
    ensures t.Error? && Contains(t.message, MissingCredentialsPhrase) ==>
              ErrorResponse(t) == Response(503, ErrorBody(NotConfiguredMessage, None))
    ensures t.Error? && !Contains(t.message, MissingCredentialsPhrase) ==>
              ErrorResponse(t) == Response(500, ErrorBody(CreateFailedMessage, Some(t.message)))
    ensures t.NonError? ==> ErrorResponse(t) == Response(500, ErrorBody(CreateFailedMessage, None))
  {
  }

  /** The token cache's credentials error surfaces as 503. */
  lemma MissingCredentialsIsServiceUnavailable()
    ensures ErrorResponse(Error(MissingCredentialsMessage)) == Response(503, ErrorBody(NotConfiguredMessage, None))
  {
    ContainsInfix("", MissingCredentialsPhrase, ": PAXUM_CLIENT_ID and PAXUM_CLIENT_SECRET are required");
    assert "" + MissingCredentialsPhrase == MissingCredentialsPhrase;
  }
}
