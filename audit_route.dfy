/** `POST /api/audit` (app/api/audit/route.ts): a required-field check and a
    placeholder acknowledgement carrying a time-stamped report id. */
module AuditRoute {
  import opened Outcomes
  import opened JsText

  const AuditMissingFieldsMessage: string := "Missing required fields: email, industry, businessName"
  const AuditStartedMessage: string := "Audit generation started"
  const AuditFailedMessage: string := "Failed to process audit request"
  const FreeReportPrefix: string := "report_free_"

  /** The fields the route reads; "" stands for absent. */
  datatype AuditBody = AuditBody(email: string, industry: string, businessName: string)

  datatype AuditReply =
    | AuditStarted(success: bool, message: string, reportId: string)
    | AuditError(error: string)

  /** `POST`: `body` is what `req.json()` gives (None for JSON `null`, whose
      property read throws) and `timestamp` the clock read for the report id. */
  function HandleAudit(body: Parsed<Option<AuditBody>>, timestamp: nat): (r: Response<AuditReply>)
    ensures r.body.AuditStarted? <==> r.status == 200
    ensures r.status == 200 <==>
              body.Parsed? && body.value.Some?
              && body.value.value.email != "" && body.value.value.industry != "" && body.value.value.businessName != ""
    ensures r.status == 400 <==>
              body.Parsed? && body.value.Some?
              && (body.value.value.email == "" || body.value.value.industry == "" || body.value.value.businessName == "")
  {
    match body
    case Unparsable(_) => Response(500, AuditError(AuditFailedMessage))
    case Parsed(None) => Response(500, AuditError(AuditFailedMessage))
    case Parsed(Some(b)) =>
      if b.email == "" || b.industry == "" || b.businessName == "" then
        Response(400, AuditError(AuditMissingFieldsMessage))
      else
        Response(200, AuditStarted(true, AuditStartedMessage, FreeReportPrefix + NatToString(timestamp)))
  }

  /** A falsy email, industry or business name is 400. */
  lemma AuditMissingFieldRejected(b: AuditBody, timestamp: nat)
    requires b.email == "" || b.industry == "" || b.businessName == ""
    ensures HandleAudit(Parsed(Some(b)), timestamp) == Response(400, AuditError(AuditMissingFieldsMessage))
  {
  }

  /** Otherwise 200 with success, the fixed message and a report id that is
      "report_free_" followed by the timestamp, which reads back from it. */
  lemma AuditAccepted(b: AuditBody, timestamp: nat)
    requires b.email != "" && b.industry != "" && b.businessName != ""
    ensures var r := HandleAudit(Parsed(Some(b)), timestamp);
            && r.status == 200 && r.body.AuditStarted?
            && r.body.success && r.body.message == AuditStartedMessage
            && StartsWith(r.body.reportId, FreeReportPrefix)
            && AllDigits(r.body.reportId[|FreeReportPrefix|..])
            && ParseNat(r.body.reportId[|FreeReportPrefix|..]) == timestamp
  {
    var id := FreeReportPrefix + NatToString(timestamp);
    assert id[..|FreeReportPrefix|] == FreeReportPrefix;
    assert id[|FreeReportPrefix|..] == NatToString(timestamp);
    ParseNatToString(timestamp);
  }

  /** Requests at different instants get different report ids. */
  lemma AuditReportIdsDistinct(b: AuditBody, t1: nat, t2: nat)
    requires b.email != "" && b.industry != "" && b.businessName != ""
    requires t1 != t2
    ensures HandleAudit(Parsed(Some(b)), t1).body.reportId != HandleAudit(Parsed(Some(b)), t2).body.reportId
  {
    AuditAccepted(b, t1);
    AuditAccepted(b, t2);
  }

  /** Whatever throws (an unparsable body, a `null` body) is 500; 400 and 500
      are the only failures. */
  lemma AuditFailures(body: Parsed<Option<AuditBody>>, timestamp: nat)
    ensures body.Unparsable? || body.value.None? ==>
              HandleAudit(body, timestamp) == Response(500, AuditError(AuditFailedMessage))
    ensures HandleAudit(body, timestamp).status in {200, 400, 500}
  {
  }
}
