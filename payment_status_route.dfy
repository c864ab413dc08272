/** `GET /api/paxum/payment-status?refId=…` (app/api/paxum/payment-status/route.ts):
    a read-only lookup of one payment at the provider, answered 400, 404, 200
    or 500. */
module PaymentStatusRoute {
  import opened Outcomes
  import opened PaymentModel
  import opened PaxumClient

  const MissingRefIdMessage: string := "Missing required parameter: refId"
  const NotFoundMessage: string := "Payment not found"
  const StatusFailedMessage: string := "Failed to check payment status"
  const ReportDescription: string := "Payment for Ignitia AI Report"

  datatype StatusReply =
    | StatusView(paymentSessionId: string, status: string, amount: string, currency: string,
                 description: string, createdAt: string, completedAt: Option<int>)
    | StatusError(error: string, details: Option<string>)

  /** The reply, and the refId passed to `getPaxosPaymentByRefId` if it was called. */
  datatype StatusHandled = StatusHandled(response: Response<StatusReply>, lookedUp: Option<string>)

  /** The catch block. */
  function StatusErrorResponse(t: Thrown): Response<StatusReply> {
    match t
    case Error(m) => Response(500, StatusError(StatusFailedMessage, Some(m)))
    case NonError => Response(500, StatusError(StatusFailedMessage, None))
  }

  /** `GET`: `refId` is `searchParams.get("refId")`, `lookup` what
      `getPaxosPaymentByRefId` returns or throws, and `now` the clock read for
      `completedAt`. */
  function HandlePaymentStatus(refId: Option<string>, lookup: string -> Outcome<Option<PaxosPaymentResponse>>,
                               now: int): (r: StatusHandled)
    ensures r.lookedUp.Some? <==> refId.Some? && refId.value != ""
    ensures r.lookedUp.Some? ==> r.lookedUp == refId
    ensures r.response.status == 200 <==> r.lookedUp.Some? && lookup(refId.value).Ok? && lookup(refId.value).value.Some?
    ensures r.response.status == 200 <==> r.response.body.StatusView?
  {
    if refId.None? || refId.value == "" then
      StatusHandled(Response(400, StatusError(MissingRefIdMessage, None)), None)
    else
      match lookup(refId.value)
      case Threw(t) => StatusHandled(StatusErrorResponse(t), Some(refId.value))
      case Ok(None) => StatusHandled(Response(404, StatusError(NotFoundMessage, None)), Some(refId.value))
      case Ok(Some(p)) =>
        var status := MapPaxosStatus(p.status);
        StatusHandled(
          Response(200, StatusView(p.id, status, p.amount, p.currency, ReportDescription, p.createdAt,
                                   if status == "completed" then Some(now) else None)),
          Some(refId.value))
  }

  /** A missing or empty refId is 400 and nothing is looked up. */
  lemma MissingRefIdRejected(refId: Option<string>, lookup: string -> Outcome<Option<PaxosPaymentResponse>>, now: int)
    requires refId.None? || refId.value == ""
    ensures HandlePaymentStatus(refId, lookup, now)
            == StatusHandled(Response(400, StatusError(MissingRefIdMessage, None)), None)
  {
  }

  /** Otherwise exactly that refId is looked up, and no lookup result yields 400. */
  lemma RefIdLookedUp(refId: string, lookup: string -> Outcome<Option<PaxosPaymentResponse>>, now: int)
    requires refId != ""
    ensures var h := HandlePaymentStatus(Some(refId), lookup, now);
            h.lookedUp == Some(refId) && h.response.status in {200, 404, 500}
  {
  }

  /** No payment at the provider is 404 "Payment not found". */
  lemma UnknownPaymentNotFound(refId: string, lookup: string -> Outcome<Option<PaxosPaymentResponse>>, now: int)
    requires refId != "" && lookup(refId) == Ok(None)
    ensures HandlePaymentStatus(Some(refId), lookup, now).response
            == Response(404, StatusError(NotFoundMessage, None))
  {
  }

  /** A found payment is 200 with its id, currency and creation time, the fixed
      description, an internal status, and `completedAt` exactly when that
      status is "completed". */
  lemma FoundPaymentView(refId: string, lookup: string -> Outcome<Option<PaxosPaymentResponse>>, now: int)
    requires refId != "" && lookup(refId).Ok? && lookup(refId).value.Some?
    ensures var p := lookup(refId).value.value;
            var r := HandlePaymentStatus(Some(refId), lookup, now).response;
            && r.status == 200 && r.body.StatusView?
            && r.body.paymentSessionId == p.id
            && r.body.currency == p.currency && r.body.createdAt == p.createdAt
            && r.body.description == ReportDescription
            && r.body.status == MapPaxosStatus(p.status) && r.body.status in StatusNames
            && (r.body.completedAt.Some? <==> r.body.status == "completed")
            && (r.body.completedAt.Some? ==> r.body.completedAt.value == now)
  {
  }

  /** Any thrown error is 500, with its message as details when it is an Error. */
  lemma LookupFailureIs500(refId: string, lookup: string -> Outcome<Option<PaxosPaymentResponse>>, now: int)
    requires refId != "" && lookup(refId).Threw?
    ensures var t := lookup(refId).thrown;
            var r := HandlePaymentStatus(Some(refId), lookup, now).response;
            && r.status == 500 && r.body.StatusError?
            && (r.body.details.Some? <==> t.Error?)
            && (t.Error? ==> r.body.details.value == t.message)
  {
  }

  /** Composed with the client: a statement list whose first entry is marked
      completed answers 200 in US dollars with a completion time. */
  lemma CompletedStatementShowsCompletion(refId: string, entries: seq<PaxosStatementEntry>, text: string, now: int)
    requires refId != "" && |entries| > 0 && entries[0].paymentStatus == "PAYMENT_STATUS_COMPLETED"
    ensures var lookup := (r: string) => LookupOutcome(Reply(200, text, Parsed(PaxosPaymentList(Some(entries)))));
            var reply := HandlePaymentStatus(Some(refId), lookup, now).response;
            && reply.status == 200 && reply.body.StatusView?
            && reply.body.status == "completed" && reply.body.currency == "USD"
            && reply.body.paymentSessionId == entries[0].id
            && reply.body.completedAt == Some(now)
  {
  }
}
