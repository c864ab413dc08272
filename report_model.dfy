/** The Report record of lib/models/reports.ts, reduced to the fields the
    admin pages read. */
module ReportModel {
  import opened SeqUtil

  /** The `type` union. */
  const ReportKinds: seq<string> := ["snapshot", "blueprint"]

  /** The `status` union. */
  const ReportStatuses: seq<string> := ["draft", "generated", "delivered"]

  /** The price the pages assume for one paid blueprint. */
  const BlueprintPrice: nat := 500

  /** `kind` is the record's `type`. */
  datatype Report = Report(
    id: string,
    leadId: string,
    businessName: string,
    industry: string,
    kind: string,
    status: string)

  function KindOf(r: Report): string {
    r.kind
  }

  function ReportStatusOf(r: Report): string {
    r.status
  }

  /** `r => r.type === kind`. */
  function HasKind(kind: string): Report -> bool {
    (r: Report) => r.kind == kind
  }

  /** `r => r.status === status`. */
  function HasReportStatus(status: string): Report -> bool {
    (r: Report) => r.status == status
  }

  /** The number of paid blueprints. */
  function Blueprints(reports: seq<Report>): (n: nat)
    ensures n <= |reports|
  {
    CountWhere(reports, HasKind("blueprint"))
  }

  /** Every report is a snapshot or a blueprint, so the two counts add up to
      the number of reports. */
  lemma KindCountsSumToTotal(reports: seq<Report>)
    requires forall i :: 0 <= i < |reports| ==> reports[i].kind in ReportKinds
    ensures CountWhere(reports, HasKind("snapshot")) + CountWhere(reports, HasKind("blueprint")) == |reports|
  {
    CountKeysPartition(reports, KindOf, ReportKinds);
    SumCountKeysTwo(reports, KindOf, "snapshot", "blueprint");
    CountKeyIsFilter(reports, KindOf, "snapshot", HasKind("snapshot"));
    CountKeyIsFilter(reports, KindOf, "blueprint", HasKind("blueprint"));
  }
}
