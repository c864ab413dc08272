/** The payment schemas of lib/validators/payment.schema.ts, as the issue lists
    a `safeParse` reports, each proved equal to "no issue" exactly when an
    independent statement of the field constraints holds, and set against the
    looser hand-written checks of the routes. */
module PaymentSchema {
  import opened Outcomes
  import opened JsText
  import opened Zod
  import opened PaymentModel
  import opened CreatePaymentRoute
  import opened WebhookRoute
  import PaxumClient

  /** `currencyEnum`. */
  predicate IsCurrencyCode(code: string) {
    code in CurrencyCodes
  }

  /** `paymentStatusEnum`. */
  predicate IsPaymentStatusName(name: string) {
    name in StatusNames
  }

  // ---------------------------------------------------------------------------
  // createPaymentSchema
  // ---------------------------------------------------------------------------

  /** The issues of `createPaymentSchema` for a body whose fields have the
      declared types; an absent amount is the library's "Required". */
  function CreatePaymentIssues(b: CreatePaymentBody): (r: seq<Issue>)
    ensures r == [] <==> ValidCreatePayment(b)
  {
    CurrencyCodesRoundTrip(USD, b.currency);
    NonEmptyIsMinOne(b.description);
    NonEmptyIsMinOne(b.reportId);
    NonEmptyIsMinOne(b.leadId);
    (if b.amount.None? then [Issue([Key("amount")], None)]
     else Check([Key("amount")], b.amount.value > 0.0, Some("Amount must be greater than 0")))
    + Check([Key("currency")], IsCurrencyCode(b.currency), None)
    + Check([Key("description")], LengthAtLeast(b.description, 1), Some("Description is required"))
    + Check([Key("description")], LengthAtMost(b.description, 500), Some("Description too long"))
    + Check([Key("reportId")], LengthAtLeast(b.reportId, 1), Some("Report ID is required"))
    + Check([Key("leadId")], LengthAtLeast(b.leadId, 1), Some("Lead ID is required"))
  }

  /** What a valid create-payment request is: a positive amount, a supported
      currency, a description of 1 to 500 UTF-16 units, and non-empty ids. */
  predicate ValidCreatePayment(b: CreatePaymentBody) {
    && b.amount.Some? && b.amount.value > 0.0
    && ParseCurrency(b.currency).Some?
    && b.description != "" && Utf16Length(b.description) <= 500
    && b.reportId != "" && b.leadId != ""
  }

  /** A body the schema accepts passes both guards of the route and reaches the provider. */
  lemma SchemaValidBodyReachesProvider(b: CreatePaymentBody, timestamp: nat, expiryClock: int,
                                       provider: PaxosPaymentRequest -> Outcome<PaxosPaymentResponse>)
    requires ValidCreatePayment(b)
    ensures HandleCreatePayment(Parsed(b), timestamp, expiryClock, provider).providerRequest.Some?
  {
  }

  /** The route is looser than the schema: a body with an unsupported currency
      reaches the provider while the schema reports the currency. */
  lemma UnsupportedCurrencyPassesRouteOnly(b: CreatePaymentBody, timestamp: nat, expiryClock: int,
                                           provider: PaxosPaymentRequest -> Outcome<PaxosPaymentResponse>)
    requires HasRequiredFields(b) && b.amount.value > 0.0 && !IsCurrencyCode(b.currency)
    ensures Issue([Key("currency")], None) in CreatePaymentIssues(b)
    ensures !ValidCreatePayment(b)
    ensures HandleCreatePayment(Parsed(b), timestamp, expiryClock, provider).providerRequest.Some?
  {
    var front := if b.amount.None? then [Issue([Key("amount")], None)]
                 else Check([Key("amount")], b.amount.value > 0.0, Some("Amount must be greater than 0"));
    assert CreatePaymentIssues(b)[|front|] == Issue([Key("currency")], None);
  }

  /** Likewise a description longer than 500 UTF-16 units. */
  lemma OverlongDescriptionPassesRouteOnly(b: CreatePaymentBody, timestamp: nat, expiryClock: int,
                                           provider: PaxosPaymentRequest -> Outcome<PaxosPaymentResponse>)
    requires HasRequiredFields(b) && b.amount.value > 0.0 && Utf16Length(b.description) > 500
    ensures Issue([Key("description")], Some("Description too long")) in CreatePaymentIssues(b)
    ensures !ValidCreatePayment(b)
    ensures HandleCreatePayment(Parsed(b), timestamp, expiryClock, provider).providerRequest.Some?
  {
    var before := Check([Key("amount")], b.amount.value > 0.0, Some("Amount must be greater than 0"))
                  + Check([Key("currency")], IsCurrencyCode(b.currency), None)
                  + Check([Key("description")], LengthAtLeast(b.description, 1), Some("Description is required"));
    assert CreatePaymentIssues(b)[|before|] == Issue([Key("description")], Some("Description too long"));
  }

  // ---------------------------------------------------------------------------
  // webhookPayloadSchema
  // ---------------------------------------------------------------------------

  function WebhookPayloadIssues(p: WebhookPayload): (r: seq<Issue>)
    ensures r == [] <==> ValidWebhookPayload(p)
  {
    NonEmptyIsMinOne(p.event);
    Check([Key("event")], LengthAtLeast(p.event, 1), Some("Event type is required"))
    + match p.data
      case None => [Issue([Key("data")], None)]
      case Some(d) =>
        NonEmptyIsMinOne(d.refId);
        NonEmptyIsMinOne(d.status);
        Check([Key("data"), Key("ref_id")], LengthAtLeast(d.refId, 1), Some("Reference ID is required"))
        + Check([Key("data"), Key("payment_amount")], d.paymentAmount > 0.0, None)
        + Check([Key("data"), Key("status")], LengthAtLeast(d.status, 1), None)
  }

  /** A valid webhook payload: non-empty event, ref_id and status and a positive
      amount; payment_id, transaction_id and error may be absent. */
  predicate ValidWebhookPayload(p: WebhookPayload) {
    p.event != "" && p.data.Some? && p.data.value.refId != ""
    && p.data.value.paymentAmount > 0.0 && p.data.value.status != ""
  }

  /** The route acknowledges every payload the schema accepts, and also some it
      rejects (a zero amount, an empty status). */
  lemma WebhookRouteAcceptsSchemaValid(signature: string, secret: string, p: WebhookPayload)
    ensures ValidWebhookPayload(p) ==>
              HandleWebhook(signature, secret, Parsed(Some(p))).response == Response(200, Acknowledged(None))
    ensures var q := WebhookPayload("payment.completed", Some(WebhookData("r1", 0.0, "", None, None, None)));
            && !ValidWebhookPayload(q)
            && HandleWebhook(signature, secret, Parsed(Some(q))).response == Response(200, Acknowledged(None))
  {
  }

  // ---------------------------------------------------------------------------
  // paymentSessionSchema
  // ---------------------------------------------------------------------------

  /** A PaymentSession record as the schema sees it (metadata, a record of
      anything, always passes and is not carried). */
  datatype PaymentSessionRecord = PaymentSessionRecord(
    id: string, organizationId: string, leadId: Option<string>, reportId: Option<string>,
    amount: real, currency: string, description: string, refId: string,
    paxosPaymentId: Option<string>, paymentUrl: Option<string>, status: string,
    errorMessage: Option<string>, createdAt: string, updatedAt: string,
    completedAt: Option<string>, expiresAt: string)

  function OptionalCheck(path: seq<PathPart>, v: Option<string>, check: string -> bool): seq<Issue> {
    if v.None? then [] else Check(path, check(v.value), None)
  }

  function PaymentSessionIssues(s: PaymentSessionRecord, f: FormatChecks): (r: seq<Issue>)
    ensures r == [] <==> ValidPaymentSession(s, f)
  {
    CurrencyCodesRoundTrip(USD, s.currency);
    StatusNamesRoundTrip(Pending, s.status);
    Check([Key("id")], f.isUuid(s.id), None)
    + Check([Key("organizationId")], f.isUuid(s.organizationId), None)
    + OptionalCheck([Key("leadId")], s.leadId, f.isUuid)
    + OptionalCheck([Key("reportId")], s.reportId, f.isUuid)
    + Check([Key("amount")], s.amount > 0.0, None)
    + Check([Key("currency")], IsCurrencyCode(s.currency), None)
    + OptionalCheck([Key("paymentUrl")], s.paymentUrl, f.isUrl)
    + Check([Key("status")], IsPaymentStatusName(s.status), None)
    + Check([Key("createdAt")], f.isDatetime(s.createdAt), None)
    + Check([Key("updatedAt")], f.isDatetime(s.updatedAt), None)
    + OptionalCheck([Key("completedAt")], s.completedAt, f.isDatetime)
    + Check([Key("expiresAt")], f.isDatetime(s.expiresAt), None)
  }

  /** A valid session has a positive amount, a currency and status of the
      enumerations, and well-formed identifiers, URL and timestamps. */
  predicate ValidPaymentSession(s: PaymentSessionRecord, f: FormatChecks) {
    && f.isUuid(s.id) && f.isUuid(s.organizationId)
    && (s.leadId.Some? ==> f.isUuid(s.leadId.value))
    && (s.reportId.Some? ==> f.isUuid(s.reportId.value))
    && s.amount > 0.0
    && ParseCurrency(s.currency).Some?
    && (s.paymentUrl.Some? ==> f.isUrl(s.paymentUrl.value))
    && ParseStatus(s.status).Some?
    && f.isDatetime(s.createdAt) && f.isDatetime(s.updatedAt)
    && (s.completedAt.Some? ==> f.isDatetime(s.completedAt.value))
    && f.isDatetime(s.expiresAt)
  }

  /** The status the payment-status route reports always satisfies the
      session schema's status enum. */
  lemma MappedStatusFitsSessionSchema(paxosStatus: string)
    ensures IsPaymentStatusName(PaxumClient.MapPaxosStatus(paxosStatus))
    ensures ParseStatus(PaxumClient.MapPaxosStatus(paxosStatus)).Some?
  {
    StatusNamesRoundTrip(Pending, PaxumClient.MapPaxosStatus(paxosStatus));
  }
}
