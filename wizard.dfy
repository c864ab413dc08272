/** The growth-audit wizard (app/wizard/page.tsx): six steps of answers, then
    either a free audit request, or a lead followed by a payment session for
    the paid blueprint. The page state is a class; what one submission sends
    and where it leads is the pure function `Submit`. */
module Wizard {
  import opened Outcomes
  import opened JsText
  import opened SeqUtil
  import opened EmailRegex

  const TotalSteps: nat := 6
  const EmailRequiredMessage: string := "Email is required"
  const InvalidEmailMessage: string := "Please enter a valid email address"
  const BlueprintAmount: real := 500.0
  const BlueprintCurrency: string := "USD"
  const BlueprintDescription: string := "Ignitia AI Growth Blueprint"
  const LeadIdPrefix: string := "lead_"
  const BlueprintReportPrefix: string := "report_blueprint_"
  const PaymentsPathPrefix: string := "/payments/"

  datatype ReportType = Free | Full | Later

  /** The two multi-select answers. */
  datatype ArrayKey = Pains | GrowthGaps

  /** `WizardData`; the optional text fields hold "" when empty. */
  datatype WizardData = WizardData(
    industry: string,
    businessSize: string,
    revenueRange: string,
    pains: seq<string>,
    growthGaps: seq<string>,
    reportType: ReportType,
    email: string,
    businessName: string,
    website: string,
    otherPain: string,
    otherGap: string)

  const InitialData: WizardData := WizardData("", "", "", [], [], Free, "", "", "", "", "")

  /** The text inputs and selects of the page. */
  datatype TextField = BusinessName | Website | Industry | BusinessSize | RevenueRange | OtherPain | OtherGap | Email

  /** The step whose screen renders the field. */
  function FieldStep(f: TextField): nat {
    match f
    case OtherPain => 2
    case OtherGap => 3
    case Email => 5
    case _ => 1
  }

  function Text(d: WizardData, f: TextField): string {
    match f
    case BusinessName => d.businessName
    case Website => d.website
    case Industry => d.industry
    case BusinessSize => d.businessSize
    case RevenueRange => d.revenueRange
    case OtherPain => d.otherPain
    case OtherGap => d.otherGap
    case Email => d.email
  }

  /** `setData({ ...data, [field]: value })`: one field changes, every other
      answer stays. */
  function WithText(d: WizardData, f: TextField, v: string): (r: WizardData)
    ensures Text(r, f) == v
    ensures forall g :: g != f ==> Text(r, g) == Text(d, g)
    ensures r.pains == d.pains && r.growthGaps == d.growthGaps && r.reportType == d.reportType
  {
    match f
    case BusinessName => d.(businessName := v)
    case Website => d.(website := v)
    case Industry => d.(industry := v)
    case BusinessSize => d.(businessSize := v)
    case RevenueRange => d.(revenueRange := v)
    case OtherPain => d.(otherPain := v)
    case OtherGap => d.(otherGap := v)
    case Email => d.(email := v)
  }

  function NotEqualTo(value: string): string -> bool {
    (v: string) => v != value
  }

  /** The update `toggleArrayValue` applies to one list: a selected value is
      removed, an unselected one is appended. */
  function Toggle(values: seq<string>, value: string): (r: seq<string>)
    ensures value in r <==> value !in values
    ensures forall v :: v != value ==> (v in r <==> v in values)
    ensures value !in values ==> r == values + [value]
  {
    if value in values then Filter(values, NotEqualTo(value)) else values + [value]
  }

  /** A list without repeats stays without repeats. */
  lemma ToggleKeepsNoDuplicates(values: seq<string>, value: string)
    requires NoDuplicates(values)
    ensures NoDuplicates(Toggle(values, value))
  {
    if value in values {
      FilterNoDuplicates(values, NotEqualTo(value));
    } else {
      forall i, j | 0 <= i < j < |values + [value]|
        ensures (values + [value])[i] != (values + [value])[j]
      {
        assert (values + [value])[i] == values[i];
      }
    }
  }

  /** Selecting an unselected value and deselecting it again restores the list. */
  lemma ToggleTwiceRestores(values: seq<string>, value: string)
    requires value !in values
    ensures Toggle(Toggle(values, value), value) == values
  {
    var p := NotEqualTo(value);
    FilterAppend(values, [value], p);
    FilterAllPass(values, p);
    assert [value][1..] == [];
    assert Filter([value], p) == [];
    assert values + [] == values;
  }

  /** `getProgressMessage`: a message for each of the six steps, "" otherwise.
      The sixth is the mis-decoded party-popper emoji the page holds. */
  function ProgressMessage(step: int): (m: string)
    ensures m != "" <==> 1 <= step <= TotalSteps
  {
    if step == 1 then "Let's get started!"
    else if step == 2 then "Great! Now let's identify your challenges"
    else if step == 3 then "Almost halfway there!"
    else if step == 4 then "You're doing great! Choose your report type"
    else if step == 5 then "Almost done! Just one more step"
    else if step == 6 then "All done! \U{F0}\U{178}\U{17D}\U{2030}"
    else ""
  }

  /** `(step / totalSteps) * 100`. */
  function ProgressPercentage(step: int): (p: real)
    ensures 1 <= step <= TotalSteps ==> 0.0 < p <= 100.0
    ensures p == 100.0 <==> step == TotalSteps
  {
    (step as real / TotalSteps as real) * 100.0
  }

  /** Whether the Continue button of a step is enabled: step 1 needs an
      industry and a business name, step 4 a report type other than "later". */
  predicate ContinueEnabled(step: int, d: WizardData) {
    (step == 1 ==> d.industry != "" && d.businessName != "")
    && (step == 4 ==> d.reportType != Later)
  }

  /** `validateEmailWithError`: the message it leaves, "" when it accepts. */
  function EmailError(email: string): (msg: string)
    ensures msg == "" <==> MatchesEmailRegex(email)
    ensures email == "" ==> msg == EmailRequiredMessage
    ensures email != "" && !MatchesEmailRegex(email) ==> msg == InvalidEmailMessage
  {
    ValidEmailIffRegex(email);
    EmptyIsNotAnEmail();
    if email == "" then EmailRequiredMessage
    else if !IsValidEmail(email) then InvalidEmailMessage
    else ""
  }

  /** The `metadata` object of the lead request. */
  datatype LeadMetadata = LeadMetadata(
    businessSize: string, revenueRange: string, pains: seq<string>, growthGaps: seq<string>,
    otherPain: string, otherGap: string)

  /** The requests the wizard sends, one constructor per endpoint. */
  datatype Request =
    | CreateLead(email: string, industry: string, businessName: string, website: string, metadata: LeadMetadata)
    | CreatePayment(amount: real, currency: string, description: string, reportId: string, leadId: string)
    | RequestAudit(data: WizardData)

  /** `window.location.href = url` or `router.push(path)`. */
  datatype Navigation = External(url: string) | Internal(path: string)

  /** The field read from the lead reply; "" when absent or falsy. */
  datatype LeadJson = LeadJson(id: string)

  /** The fields read from the payment reply; the URL is "" when absent or
      falsy, the session id None when absent. */
  datatype PaymentJson = PaymentJson(paymentUrl: string, paymentSessionId: Option<string>)

  /** What one press of the submit button leads to: the email error left on
      screen, the requests sent in order, a navigation, whether the error
      alert was shown, and whether the wizard moved to its last step. */
  datatype Submission = Submission(
    emailError: string, requests: seq<Request>, navigation: Option<Navigation>, alerted: bool, advanced: bool)

  function LeadRequest(d: WizardData): Request {
    CreateLead(d.email, d.industry, d.businessName, d.website,
               LeadMetadata(d.businessSize, d.revenueRange, d.pains, d.growthGaps, d.otherPain, d.otherGap))
  }

  /** `if (!response.ok) throw ...; await response.json()` and a property read
      on the result: the body, or None when any of these throws (a rejected
      fetch, a status outside 200-299, a body that is not JSON, a `null` body). */
  function OkJson<T>(reply: HttpReply<Option<T>>): (r: Option<T>)
    ensures r.Some? ==> reply.Reply? && IsOkStatus(reply.status) && reply.json == Parsed(Some(r.value))
    ensures reply.Reply? && IsOkStatus(reply.status) && reply.json.Parsed? && reply.json.value.Some? ==> r.Some?
  {
    match reply
    case NetworkFailure(_) => None
    case Reply(status, _, json) =>
      if !IsOkStatus(status) then None
      else match json
        case Unparsable(_) => None
        case Parsed(v) => v
  }

  /** `leadData.id || lead_${now}`. */
  function LeadIdOf(lead: LeadJson, now: nat): string {
    if lead.id != "" then lead.id else LeadIdPrefix + NatToString(now)
  }

  function PaymentRequest(leadId: string, now: nat): Request {
    CreatePayment(BlueprintAmount, BlueprintCurrency, BlueprintDescription, BlueprintReportPrefix + NatToString(now), leadId)
  }

  /** Where a successful payment reply sends the browser. */
  function PaymentNavigation(p: PaymentJson): Navigation {
    if p.paymentUrl != "" then External(p.paymentUrl)
    else Internal(PaymentsPathPrefix + (if p.paymentSessionId.Some? then p.paymentSessionId.value else "undefined"))
  }

  /** `submitAudit` on the answers d. `now` is the clock (both reads of it
      are taken as one instant); the replies are what the lead, payment and
      audit endpoints answer. The free path does not look at the audit
      reply's status: only a rejected fetch stops it. */
  function Submit(d: WizardData, now: nat, leadReply: HttpReply<Option<LeadJson>>,
                  paymentReply: HttpReply<Option<PaymentJson>>, auditReply: HttpReply<()>): (s: Submission)
    ensures s.emailError != "" <==> s.requests == []
    ensures |s.requests| <= 2
    ensures s.navigation.Some? ==> !s.alerted && !s.advanced
    ensures s.advanced ==> d.reportType != Full
  {
    var err := EmailError(d.email);
    if err != "" then Submission(err, [], None, false, false)
    else if d.reportType == Full then
      match OkJson(leadReply)
      case None => Submission("", [LeadRequest(d)], None, true, false)
      case Some(lead) =>
        var requests := [LeadRequest(d), PaymentRequest(LeadIdOf(lead, now), now)];
        match OkJson(paymentReply)
        case None => Submission("", requests, None, true, false)
        case Some(p) => Submission("", requests, Some(PaymentNavigation(p)), false, false)
    else
      Submission("", [RequestAudit(d)], None, auditReply.NetworkFailure?, !auditReply.NetworkFailure?)
  }

  /** An address the pattern rejects sends nothing and leaves the wizard
      where it is, with the matching message; an accepted one clears the
      message and sends at least one request. */
  lemma SubmitChecksEmailFirst(d: WizardData, now: nat, leadReply: HttpReply<Option<LeadJson>>,
                               paymentReply: HttpReply<Option<PaymentJson>>, auditReply: HttpReply<()>)
    ensures var s := Submit(d, now, leadReply, paymentReply, auditReply);
            && (!MatchesEmailRegex(d.email) ==>
                  s.requests == [] && s.navigation.None? && !s.alerted && !s.advanced
                  && s.emailError == (if d.email == "" then EmailRequiredMessage else InvalidEmailMessage))
            && (MatchesEmailRegex(d.email) ==> s.emailError == "" && |s.requests| >= 1)
  {
  }

  /** The paid path: the lead request carries the answers; once it succeeds,
      the payment request is for 500 USD with the blueprint description, a
      report id that is "report_blueprint_" followed by the clock and reads
      back from it, and the lead id from the reply or "lead_" with the clock.
      The wizard itself never advances on this path. */
  lemma SubmitPaidFlow(d: WizardData, now: nat, leadReply: HttpReply<Option<LeadJson>>,
                       paymentReply: HttpReply<Option<PaymentJson>>, auditReply: HttpReply<()>)
    requires MatchesEmailRegex(d.email) && d.reportType == Full
    ensures var s := Submit(d, now, leadReply, paymentReply, auditReply);
            && s.requests[0] == LeadRequest(d) && s.requests[0].email == d.email
            && !s.advanced
            && (OkJson(leadReply).None? ==> |s.requests| == 1 && s.alerted && s.navigation.None?)
            && (OkJson(leadReply).Some? ==>
                  var lead := OkJson(leadReply).value;
                  && |s.requests| == 2
                  && s.requests[1].CreatePayment?
                  && s.requests[1].amount == 500.0 && s.requests[1].currency == "USD"
                  && s.requests[1].description == BlueprintDescription
                  && StartsWith(s.requests[1].reportId, BlueprintReportPrefix)
                  && ParseNat(s.requests[1].reportId[|BlueprintReportPrefix|..]) == now
                  && s.requests[1].leadId == (if lead.id != "" then lead.id else LeadIdPrefix + NatToString(now)))
  {
    var id := BlueprintReportPrefix + NatToString(now);
    assert id[..|BlueprintReportPrefix|] == BlueprintReportPrefix;
    assert id[|BlueprintReportPrefix|..] == NatToString(now);
    ParseNatToString(now);
  }

  /** The free path (any report type but "full"): exactly one audit request
      with the whole answer set; the wizard advances unless the fetch is
      rejected, in which case the alert shows. */
  lemma SubmitFreeFlow(d: WizardData, now: nat, leadReply: HttpReply<Option<LeadJson>>,
                       paymentReply: HttpReply<Option<PaymentJson>>, auditReply: HttpReply<()>)
    requires MatchesEmailRegex(d.email) && d.reportType != Full
    ensures var s := Submit(d, now, leadReply, paymentReply, auditReply);
            && s.requests == [RequestAudit(d)] && s.navigation.None?
            && (s.advanced <==> !auditReply.NetworkFailure?)
            && (s.alerted <==> auditReply.NetworkFailure?)
  {
  }

  /** The browser leaves the wizard only for a paid report, after both the
      lead and the payment request succeeded; a reply URL wins over the
      status page. */
  lemma SubmitNavigatesOnlyAfterPayment(d: WizardData, now: nat, leadReply: HttpReply<Option<LeadJson>>,
                                        paymentReply: HttpReply<Option<PaymentJson>>, auditReply: HttpReply<()>)
    ensures var s := Submit(d, now, leadReply, paymentReply, auditReply);
            s.navigation.Some? ==>
              && d.reportType == Full && MatchesEmailRegex(d.email)
              && OkJson(leadReply).Some? && OkJson(paymentReply).Some?
              && |s.requests| == 2 && s.requests[1].CreatePayment?
              && (OkJson(paymentReply).value.paymentUrl != "" ==> s.navigation.value == External(OkJson(paymentReply).value.paymentUrl))
              && (OkJson(paymentReply).value.paymentUrl == "" ==> s.navigation.value.Internal? && StartsWith(s.navigation.value.path, PaymentsPathPrefix))
  {
  }

  /** With an accepted address exactly one of three things happens: the
      browser navigates, the wizard advances, or the error alert shows. */
  lemma SubmitOneOutcome(d: WizardData, now: nat, leadReply: HttpReply<Option<LeadJson>>,
                         paymentReply: HttpReply<Option<PaymentJson>>, auditReply: HttpReply<()>)
    requires MatchesEmailRegex(d.email)
    ensures var s := Submit(d, now, leadReply, paymentReply, auditReply);
            (if s.navigation.Some? then 1 else 0) + (if s.advanced then 1 else 0) + (if s.alerted then 1 else 0) == 1
  {
  }

  /** The page's state. Each handler runs to completion, so `loading` is
      false between them. */
  class WizardPage {
    var step: int
    var loading: bool
    var emailError: string
    var data: WizardData

    /** What holds on every screen the buttons can reach: a step from 1 to 6,
        step 1's required answers once past it, a report type other than
        "later" once past step 4, and multi-select lists without repeats. */
    predicate Valid()
      reads this
    {
      && 1 <= step <= TotalSteps
      && !loading
      && (step >= 2 ==> data.industry != "" && data.businessName != "")
      && (step >= 5 ==> data.reportType != Later)
      && NoDuplicates(data.pains) && NoDuplicates(data.growthGaps)
    }

    constructor()
      ensures Valid()
      ensures step == 1 && emailError == "" && data == InitialData
    {
      step := 1;
      loading := false;
      emailError := "";
      data := InitialData;
    }

    /** The `onChange` of a text input or select, on the step that renders it;
        editing the email also clears the email error. */
    method SetText(f: TextField, v: string)
      requires Valid() && step == FieldStep(f)
      modifies this
      ensures Valid()
      ensures data == WithText(old(data), f, v) && step == old(step)
      ensures emailError == (if f == Email then "" else old(emailError))
    {
      data := WithText(data, f, v);
      if f == Email && emailError != "" {
        emailError := "";
      }
    }

    /** `toggleArrayValue(key, value)`, from the option cards of step 2
        (pains) or step 3 (growth gaps). */
    method ToggleArrayValue(key: ArrayKey, value: string)
      requires Valid() && step == (if key == Pains then 2 else 3)
      modifies this
      ensures Valid()
      ensures step == old(step) && emailError == old(emailError)
      ensures key == Pains ==> data == old(data).(pains := Toggle(old(data).pains, value))
      ensures key == GrowthGaps ==> data == old(data).(growthGaps := Toggle(old(data).growthGaps, value))
    {
      ToggleKeepsNoDuplicates(data.pains, value);
      ToggleKeepsNoDuplicates(data.growthGaps, value);
      if key == Pains {
        data := data.(pains := Toggle(data.pains, value));
      } else {
        data := data.(growthGaps := Toggle(data.growthGaps, value));
      }
    }

    /** The report-type cards and the "decide later" link of step 4. */
    method ChooseReportType(t: ReportType)
      requires Valid() && step == 4
      modifies this
      ensures Valid()
      ensures data == old(data).(reportType := t) && step == old(step) && emailError == old(emailError)
    {
      data := data.(reportType := t);
    }

    /** A Continue button (steps 1 to 4): `next()` when enabled, nothing when
        disabled. */
    method Continue()
      requires Valid() && 1 <= step <= 4
      modifies this
      ensures Valid()
      ensures step == old(step) + (if ContinueEnabled(old(step), old(data)) then 1 else 0)
      ensures data == old(data) && emailError == old(emailError)
    {
      if ContinueEnabled(step, data) {
        step := step + 1;
      }
    }

    /** A Back button (steps 2 to 5): `back()`. */
    method Back()
      requires Valid() && 2 <= step <= 5
      modifies this
      ensures Valid()
      ensures step == old(step) - 1
      ensures data == old(data) && emailError == old(emailError)
    {
      step := step - 1;
    }

    /** `validateEmailWithError`: sets the error message and accepts exactly
        the addresses the pattern matches. */
    method ValidateEmailWithError(email: string) returns (ok: bool)
      modifies this
      ensures ok <==> MatchesEmailRegex(email)
      ensures emailError == EmailError(email)
      ensures step == old(step) && loading == old(loading) && data == old(data)
    {
      if email == "" {
        emailError := EmailRequiredMessage;
        return false;
      }
      ValidEmailIffRegex(email);
      if !IsValidEmail(email) {
        emailError := InvalidEmailMessage;
        return false;
      }
      emailError := "";
      return true;
    }

    /** `submitAudit`, from the submit button of step 5. */
    method SubmitAudit(now: nat, leadReply: HttpReply<Option<LeadJson>>,
                       paymentReply: HttpReply<Option<PaymentJson>>, auditReply: HttpReply<()>)
      returns (s: Submission)
      requires Valid() && step == 5
      modifies this
      ensures Valid()
      ensures s == Submit(old(data), now, leadReply, paymentReply, auditReply)
      ensures emailError == s.emailError && data == old(data)
      ensures step == old(step) + (if s.advanced then 1 else 0)
    {
      var ok := ValidateEmailWithError(data.email);
      if !ok {
        return Submission(emailError, [], None, false, false);
      }
      loading := true;
      if data.reportType == Full {
        var lead := OkJson(leadReply);
        if lead.None? {
          s := Submission("", [LeadRequest(data)], None, true, false);
        } else {
          var leadId := LeadIdOf(lead.value, now);
          var requests := [LeadRequest(data), PaymentRequest(leadId, now)];
          var payment := OkJson(paymentReply);
          if payment.None? {
            s := Submission("", requests, None, true, false);
          } else {
            s := Submission("", requests, Some(PaymentNavigation(payment.value)), false, false);
          }
        }
      } else {
        var failed := auditReply.NetworkFailure?;
        s := Submission("", [RequestAudit(data)], None, failed, !failed);
        if !failed {
          step := step + 1;
        }
      }
      loading := false;
    }
  }
}
