/** `POST /api/paxum/webhook` (app/api/paxum/webhook/route.ts): the payload
    check, the dispatch on the event name, and the acknowledgement that the
    catch block sends for anything thrown. The handlers only log, so the
    route is a function of its input. */
module WebhookRoute {
  import opened Outcomes
  import opened PaymentModel

  const InvalidPayloadMessage: string := "Invalid webhook payload"
  const ProcessingErrorMessage: string := "Processing error"

  /** A parsed JSON object: `event` is "" when absent, `data` None when falsy. */
  datatype WebhookPayload = WebhookPayload(event: string, data: Option<WebhookData>)

  /** The four handler functions. */
  datatype Handler = OnCompleted | OnFailed | OnPending | OnCancelled

  datatype WebhookReply =
    | Acknowledged(processingError: Option<string>)
    | Rejected(error: string)

  /** The reply, and the handler the switch invoked, if any. */
  datatype WebhookHandled = WebhookHandled(response: Response<WebhookReply>, invoked: Option<Handler>)

  function EventName(h: Handler): string {
    match h
    case OnCompleted => "payment.completed"
    case OnFailed => "payment.failed"
    case OnPending => "payment.pending"
    case OnCancelled => "payment.cancelled"
  }

  /** The `switch` on `payload.event`; the default branch only warns. */
  function Dispatch(event: string): (r: Option<Handler>)
    ensures r.Some? ==> EventName(r.value) == event
    ensures r.None? ==> forall h: Handler :: EventName(h) != event
  {
    if event == "payment.completed" then Some(OnCompleted)
    else if event == "payment.failed" then Some(OnFailed)
    else if event == "payment.pending" then Some(OnPending)
    else if event == "payment.cancelled" then Some(OnCancelled)
    else None
  }

  /** Each handler is reached by exactly its own event name, and no other name
      reaches any handler. */
  lemma DispatchIsExact(event: string, h: Handler)
    ensures Dispatch(event) == Some(h) <==> event == EventName(h)
    ensures Dispatch(event).None? <==> event !in {"payment.completed", "payment.failed", "payment.pending", "payment.cancelled"}
  {
  }

  /** The structural check of the route. */
  predicate IsWellFormed(p: WebhookPayload) {
    p.event != "" && p.data.Some? && p.data.value.refId != ""
  }

  /** `POST`: `signature` is the x-paxos-signature header and `secret`
      PAXUM_WEBHOOK_SECRET ("" when unset); `body` is what `req.json()` gives,
      None standing for JSON `null`, whose property read throws. */
  function HandleWebhook(signature: string, secret: string, body: Parsed<Option<WebhookPayload>>): (r: WebhookHandled)
    ensures r.invoked.Some? ==>
              body.Parsed? && body.value.Some? && IsWellFormed(body.value.value)
              && EventName(r.invoked.value) == body.value.value.event
    ensures r.response.status == 400 <==> r.response.body.Rejected?
  {
    match body
    case Unparsable(_) => WebhookHandled(Response(200, Acknowledged(Some(ProcessingErrorMessage))), None)
    case Parsed(None) => WebhookHandled(Response(200, Acknowledged(Some(ProcessingErrorMessage))), None)
    case Parsed(Some(p)) =>
      if !IsWellFormed(p) then WebhookHandled(Response(400, Rejected(InvalidPayloadMessage)), None)
      else WebhookHandled(Response(200, Acknowledged(None)), Dispatch(p.event))
  }

  /** A payload without event, data or data.ref_id is 400 and reaches no handler. */
  lemma MalformedPayloadRejected(signature: string, secret: string, p: WebhookPayload)
    requires !IsWellFormed(p)
    ensures HandleWebhook(signature, secret, Parsed(Some(p)))
            == WebhookHandled(Response(400, Rejected(InvalidPayloadMessage)), None)
  {
  }

  /** A well-formed payload is acknowledged with 200 whatever its event, and
      the handler invoked is the one its event names, if any. */
  lemma WellFormedPayloadAcknowledged(signature: string, secret: string, p: WebhookPayload)
    requires IsWellFormed(p)
    ensures var h := HandleWebhook(signature, secret, Parsed(Some(p)));
            && h.response == Response(200, Acknowledged(None))
            && (forall k: Handler :: h.invoked == Some(k) <==> p.event == EventName(k))
  {
    forall k: Handler
      ensures Dispatch(p.event) == Some(k) <==> p.event == EventName(k)
    {
      DispatchIsExact(p.event, k);
    }
  }

  /** Whatever throws is acknowledged with 200 and the processing-error marker;
      the only non-200 answer is the 400 for a malformed object. */
  lemma NeverAnErrorStatusFromTheCatch(signature: string, secret: string, body: Parsed<Option<WebhookPayload>>)
    ensures var h := HandleWebhook(signature, secret, body);
            && (body.Unparsable? || body.value.None? ==>
                  h.response == Response(200, Acknowledged(Some(ProcessingErrorMessage))) && h.invoked.None?)
            && (h.response.status != 200 <==> body.Parsed? && body.value.Some? && !IsWellFormed(body.value.value))
            && h.response.status in {200, 400}
  {
  }

  /** The signature header and the secret do not change the outcome. */
  lemma SignatureHasNoEffect(s1: string, k1: string, s2: string, k2: string, body: Parsed<Option<WebhookPayload>>)
    ensures HandleWebhook(s1, k1, body) == HandleWebhook(s2, k2, body)
  {
  }

  // ---------------------------------------------------------------------------
  // The status updates the handlers are meant to make (their TODO comments)
  // ---------------------------------------------------------------------------

  /** The session status each handler is to set, and whether it is to store
      the payload's error text. */
  datatype IntendedUpdate = IntendedUpdate(status: PaymentStatus, storesError: bool)

  function IntendedStatus(h: Handler): (u: IntendedUpdate)
    ensures u.status != Pending && u.status != Expired
    ensures u.storesError <==> h == OnFailed
  {
    match h
    case OnCompleted => IntendedUpdate(Completed, false)
    case OnFailed => IntendedUpdate(Failed, true)
    case OnPending => IntendedUpdate(Processing, false)
    case OnCancelled => IntendedUpdate(Cancelled, false)
  }

  /** Distinct events are to set distinct statuses, none of them pending or
      expired; only a failure stores its error. */
  lemma IntendedStatusProperties(h1: Handler, h2: Handler)
    ensures IntendedStatus(h1).status == IntendedStatus(h2).status <==> h1 == h2
    ensures IntendedStatus(h1).status !in {Pending, Expired}
    ensures IntendedStatus(h1).storesError <==> h1 == OnFailed
  {
  }
}
