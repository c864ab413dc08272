/** The payment types of lib/models/payment.ts: the internal status and
    currency enumerations with their wire names, and the records exchanged
    with the provider. */
module PaymentModel {
  import opened Outcomes

  // ---------------------------------------------------------------------------
  // PaymentStatus
  // ---------------------------------------------------------------------------

  datatype PaymentStatus = Pending | Processing | Completed | Failed | Cancelled | Expired

  /** The wire name of a status. */
  function StatusName(s: PaymentStatus): string {
    match s
    case Pending => "pending"
    case Processing => "processing"
    case Completed => "completed"
    case Failed => "failed"
    case Cancelled => "cancelled"
    case Expired => "expired"
  }

  /** The status with a given wire name, if any. */
  function ParseStatus(name: string): (r: Option<PaymentStatus>)
    ensures r.Some? ==> StatusName(r.value) == name
  {
    if name == "pending" then Some(Pending)
    else if name == "processing" then Some(Processing)
    else if name == "completed" then Some(Completed)
    else if name == "failed" then Some(Failed)
    else if name == "cancelled" then Some(Cancelled)
    else if name == "expired" then Some(Expired)
    else None
  }

  const StatusNames: set<string> := {"pending", "processing", "completed", "failed", "cancelled", "expired"}

  /** Every status is read back from its name, and exactly six names are statuses. */
  lemma StatusNamesRoundTrip(s: PaymentStatus, name: string)
    ensures ParseStatus(StatusName(s)) == Some(s)
    ensures ParseStatus(name).Some? <==> name in StatusNames
    ensures |StatusNames| == 6
  {
    assert StatusNames == {"pending", "processing", "completed", "failed", "cancelled", "expired"};
  }

  // ---------------------------------------------------------------------------
  // Currency
  // ---------------------------------------------------------------------------

  datatype Currency = USD | EUR | GBP | CAD | AUD

  function CurrencyCode(c: Currency): string {
    match c
    case USD => "USD"
    case EUR => "EUR"
    case GBP => "GBP"
    case CAD => "CAD"
    case AUD => "AUD"
  }

  function ParseCurrency(code: string): (r: Option<Currency>)
    ensures r.Some? ==> CurrencyCode(r.value) == code
  {
    if code == "USD" then Some(USD)
    else if code == "EUR" then Some(EUR)
    else if code == "GBP" then Some(GBP)
    else if code == "CAD" then Some(CAD)
    else if code == "AUD" then Some(AUD)
    else None
  }

  const CurrencyCodes: set<string> := {"USD", "EUR", "GBP", "CAD", "AUD"}

  lemma CurrencyCodesRoundTrip(c: Currency, code: string)
    ensures ParseCurrency(CurrencyCode(c)) == Some(c)
    ensures ParseCurrency(code).Some? <==> code in CurrencyCodes
  {
  }

  // ---------------------------------------------------------------------------
  // Provider records
  // ---------------------------------------------------------------------------

  /** PaxosTokenResponse (the token type is not used). */
  datatype TokenResponse = TokenResponse(accessToken: string, expiresIn: int)

  /** PaxosPaymentRequest: the amount travels as a decimal string. */
  datatype PaxosPaymentRequest = PaxosPaymentRequest(amount: string, currency: string, description: string, refId: string)

  /** PaxosPaymentResponse. */
  datatype PaxosPaymentResponse = PaxosPaymentResponse(
    id: string, refId: string, amount: string, currency: string, status: string,
    paymentUrl: Option<string>, createdAt: string)

  /** One element of PaxosPaymentListResponse.payments. */
  datatype PaxosStatementEntry = PaxosStatementEntry(
    id: string, refId: string, paymentAmount: string, paymentStatus: string,
    createdAt: string, updatedAt: string)

  /** PaxosPaymentListResponse; `payments` may be absent from the body. */
  datatype PaxosPaymentList = PaxosPaymentList(payments: Option<seq<PaxosStatementEntry>>)

  /** WebhookPayload.data. */
  datatype WebhookData = WebhookData(
    refId: string, paymentAmount: real, status: string,
    paymentId: Option<string>, transactionId: Option<string>, error: Option<string>)
}
