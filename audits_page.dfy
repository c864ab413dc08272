/** The audits and reports list of app/admin/audits/page.tsx: the search,
    status and type filter and the report analytics. */
module AuditsPage {
  import opened JsText
  import opened SeqUtil
  import opened ReportModel

  /** The search box matches the business name or the industry, ignoring case;
      the status and type filters are "all" or the report's own value. */
  predicate PassesFilter(r: Report, query: string, status: string, kind: string) {
    && (query == "" || ContainsIgnoringCase(r.businessName, query) || ContainsIgnoringCase(r.industry, query))
    && (status == "all" || r.status == status)
    && (kind == "all" || r.kind == kind)
  }

  function Passes(query: string, status: string, kind: string): Report -> bool {
    (r: Report) => PassesFilter(r, query, status, kind)
  }

  /** `filteredReports`: exactly the reports meeting all three conditions. */
  function FilterReports(reports: seq<Report>, query: string, status: string, kind: string): (r: seq<Report>)
    ensures forall x :: x in r <==> x in reports && PassesFilter(x, query, status, kind)
  {
    Filter(reports, Passes(query, status, kind))
  }

  /** With every filter open, the list is the whole list. */
  lemma {:induction false} OpenFiltersShowAll(reports: seq<Report>)
    ensures FilterReports(reports, "", "all", "all") == reports
    decreases |reports|
  {
    if reports != [] {
      OpenFiltersShowAll(reports[1..]);
      assert [reports[0]] + reports[1..] == reports;
    }
  }

  datatype AuditAnalytics = AuditAnalytics(
    freeAudits: nat, paidBlueprints: nat, pendingReports: nat, deliveredReports: nat, revenue: nat)

  /** `analytics` over the whole report list. */
  function Analytics(reports: seq<Report>): (a: AuditAnalytics)
    ensures a.revenue == BlueprintPrice * a.paidBlueprints
    ensures a.freeAudits <= |reports| && a.paidBlueprints <= |reports|
  {
    AuditAnalytics(
      CountWhere(reports, HasKind("snapshot")),
      Blueprints(reports),
      CountWhere(reports, HasReportStatus("draft")),
      CountWhere(reports, HasReportStatus("delivered")),
      Blueprints(reports) * BlueprintPrice)
  }

  /** Free audits and paid blueprints add up to the number of reports (every
      report being one or the other); drafts and delivered reports are
      disjoint, so together they are no more than the reports; revenue is 500
      per blueprint. */
  lemma AnalyticsProperties(reports: seq<Report>)
    ensures var a := Analytics(reports);
            && a.revenue == 500 * a.paidBlueprints
            && a.pendingReports + a.deliveredReports <= |reports|
            && ((forall i :: 0 <= i < |reports| ==> reports[i].kind in ReportKinds) ==>
                  a.freeAudits + a.paidBlueprints == |reports|)
  {
    if forall i :: 0 <= i < |reports| ==> reports[i].kind in ReportKinds {
      KindCountsSumToTotal(reports);
    }
    var notDraft := (r: Report) => r.status != "draft";
    CountComplement(reports, HasReportStatus("draft"), notDraft);
    CountMonotone(reports, HasReportStatus("delivered"), notDraft);
  }
}
