/** The admin dashboard of app/admin/page.tsx: the top KPIs, the pipeline
    snapshot and the urgent-action lists. Every `Date.now()` the page reads is
    the one clock reading `now` (milliseconds). */
module AdminDashboard {
  import opened Outcomes
  import opened SeqUtil
  import opened LeadModel
  import opened ReportModel

  const MillisPerDay: int := 24 * 60 * 60 * 1000

  /** Created at or after `since`. */
  function CreatedSince(since: int): Lead -> bool {
    (l: Lead) => l.createdAt >= since
  }

  /** A draft or a generated report. */
  function IsActiveAudit(): Report -> bool {
    (r: Report) => r.status == "draft" || r.status == "generated"
  }

  datatype Kpis = Kpis(
    totalLeads: nat,
    newLeadsLast7Days: nat,
    newLeadsLast30Days: nat,
    convertedLeads: nat,
    paidBlueprints: nat,
    revenue: nat,
    activeAudits: nat)

  function TopKpis(leads: seq<Lead>, reports: seq<Report>, now: int): (k: Kpis)
    ensures k.totalLeads == |leads| && k.convertedLeads <= k.totalLeads
    ensures k.paidBlueprints <= |reports| && k.revenue == BlueprintPrice * k.paidBlueprints
  {
    Kpis(
      |leads|,
      CountWhere(leads, CreatedSince(now - 7 * MillisPerDay)),
      CountWhere(leads, CreatedSince(now - 30 * MillisPerDay)),
      CountWhere(leads, HasStatus("converted")),
      Blueprints(reports),
      Blueprints(reports) * BlueprintPrice,
      CountWhere(reports, IsActiveAudit()))
  }

  /** The week's new leads are among the month's, which are among all leads;
      revenue is 500 per blueprint; active audits are among the reports. */
  lemma KpiBounds(leads: seq<Lead>, reports: seq<Report>, now: int)
    ensures var k := TopKpis(leads, reports, now);
            && k.newLeadsLast7Days <= k.newLeadsLast30Days <= k.totalLeads
            && k.convertedLeads <= k.totalLeads
            && k.revenue == 500 * k.paidBlueprints
            && k.activeAudits <= |reports|
  {
    CountMonotone(leads, CreatedSince(now - 7 * MillisPerDay), CreatedSince(now - 30 * MillisPerDay));
  }

  /** `pipelineStages`: the count of each status, in column order. */
  function PipelineStages(leads: seq<Lead>): (stages: seq<(string, nat)>)
    ensures |stages| == 5
  {
    seq(5, i requires 0 <= i < 5 => (LeadStatuses[i], CountWhere(leads, HasStatus(LeadStatuses[i]))))
  }

  /** The five stage counts add up to `totalLeads` when every lead has one of
      the five statuses. */
  lemma PipelineSumsToTotal(leads: seq<Lead>)
    requires AllKnownStatuses(leads)
    ensures var p := PipelineStages(leads);
            p[0].1 + p[1].1 + p[2].1 + p[3].1 + p[4].1 == |leads|
  {
    var p := PipelineStages(leads);
    StatusCountsSumToTotal(leads);
    StatusCountIsFilter(leads, "new");
    StatusCountIsFilter(leads, "contacted");
    StatusCountIsFilter(leads, "qualified");
    StatusCountIsFilter(leads, "converted");
    StatusCountIsFilter(leads, "lost");
  }

  /** `leadsNotContactedIn7Days`'s test. */
  predicate IsStale(l: Lead, now: int) {
    if l.lastContactedAt.None? then l.status != "new" && l.status != "converted" && l.status != "lost"
    else l.lastContactedAt.value < now - 7 * MillisPerDay && l.status != "converted" && l.status != "lost"
  }

  /** For a lead with a known status: never contacted, it is stale exactly when
      contacted or qualified; otherwise exactly when the last contact is more
      than 7 days old and it is still open. */
  lemma StaleCharacterised(l: Lead, now: int)
    requires HasKnownStatus(l)
    ensures l.lastContactedAt.None? ==> (IsStale(l, now) <==> l.status == "contacted" || l.status == "qualified")
    ensures l.lastContactedAt.Some? ==>
              (IsStale(l, now) <==> l.lastContactedAt.value < now - 7 * MillisPerDay && IsOpen(l))
  {
  }

  function StaleAt(now: int): Lead -> bool {
    (l: Lead) => IsStale(l, now)
  }

  function IsHot(): Lead -> bool {
    (l: Lead) => l.priority == Some("hot") && l.status != "converted" && l.status != "lost"
  }

  /** The three urgent-action lists. */
  function StaleLeads(leads: seq<Lead>, now: int): seq<Lead> {
    Filter(leads, StaleAt(now))
  }

  function PendingReports(reports: seq<Report>): seq<Report> {
    Filter(reports, HasReportStatus("draft"))
  }

  function HotLeads(leads: seq<Lead>): (r: seq<Lead>)
    ensures forall l :: l in r <==> l in leads && l.priority == Some("hot") && IsOpen(l)
  {
    Filter(leads, IsHot())
  }

  /** "All caught up" shows when the three lists are empty. */
  predicate AllCaughtUp(leads: seq<Lead>, reports: seq<Report>, now: int) {
    |StaleLeads(leads, now)| == 0 && |PendingReports(reports)| == 0 && |HotLeads(leads)| == 0
  }

  /** "All caught up" exactly when no lead is stale, no report is a draft and
      no open lead is hot. */
  lemma AllCaughtUpIff(leads: seq<Lead>, reports: seq<Report>, now: int)
    ensures AllCaughtUp(leads, reports, now) <==>
              && (forall i :: 0 <= i < |leads| ==> !IsStale(leads[i], now))
              && (forall i :: 0 <= i < |reports| ==> reports[i].status != "draft")
              && (forall i :: 0 <= i < |leads| ==> !(leads[i].priority == Some("hot") && IsOpen(leads[i])))
  {
    var stale := StaleLeads(leads, now);
    var pending := PendingReports(reports);
    var hot := HotLeads(leads);
    if |stale| > 0 {
      assert stale[0] in stale;
    }
    if |pending| > 0 {
      assert pending[0] in pending;
    }
    if |hot| > 0 {
      assert hot[0] in hot;
    }
    if |stale| == 0 {
      assert forall i :: 0 <= i < |leads| ==> leads[i] !in stale;
    }
    if |pending| == 0 {
      assert forall i :: 0 <= i < |reports| ==> reports[i] !in pending;
    }
    if |hot| == 0 {
      assert forall i :: 0 <= i < |leads| ==> leads[i] !in hot;
    }
  }
}
