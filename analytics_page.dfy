/** The analytics page of app/admin/analytics/page.tsx: the lead funnel, the
    per-source and per-industry performance tables, and the revenue
    attribution. The rendered rates and averages (`toFixed` strings) are not
    part of this model. */
module AnalyticsPage {
  import opened Outcomes
  import opened SeqUtil
  import opened LeadModel
  import opened ReportModel

  // ---------------------------------------------------------------------------
  // Funnel
  // ---------------------------------------------------------------------------

  datatype FunnelStage = FunnelStage(name: string, count: nat, dropOff: int)

  /** Past "new". */
  function IsContacted(): Lead -> bool {
    (l: Lead) => l.status != "new"
  }

  /** Qualified or converted. */
  function IsQualified(): Lead -> bool {
    (l: Lead) => l.status == "qualified" || l.status == "converted"
  }

  /** `funnelData.stages`: each stage's count and the drop from the stage before. */
  function Funnel(leads: seq<Lead>): (f: seq<FunnelStage>)
    ensures |f| == 4 && f[0].count == |leads| && f[0].dropOff == 0
    ensures forall i :: 1 <= i < 4 ==> f[i].dropOff == f[i - 1].count - f[i].count
  {
    var total := |leads|;
    var contacted := CountWhere(leads, IsContacted());
    var qualified := CountWhere(leads, IsQualified());
    var converted := CountWhere(leads, HasStatus("converted"));
    [ FunnelStage("Total Leads", total, 0),
      FunnelStage("Contacted", contacted, total - contacted),
      FunnelStage("Qualified", qualified, contacted - qualified),
      FunnelStage("Converted", converted, qualified - converted) ]
  }

  /** The stages are nested: converted ≤ qualified ≤ contacted ≤ total, so no
      drop-off is negative, and the drop-offs add up to the leads that did not
      convert. */
  lemma FunnelIsNested(leads: seq<Lead>)
    ensures var f := Funnel(leads);
            && f[3].count <= f[2].count <= f[1].count <= f[0].count == |leads|
            && (forall i :: 0 <= i < 4 ==> f[i].dropOff >= 0)
            && f[1].dropOff + f[2].dropOff + f[3].dropOff == |leads| - f[3].count
  {
    CountMonotone(leads, HasStatus("converted"), IsQualified());
    CountMonotone(leads, IsQualified(), IsContacted());
  }

  // ---------------------------------------------------------------------------
  // Per source
  // ---------------------------------------------------------------------------

  datatype SourceRow = SourceRow(source: string, leads: nat, converted: nat, revenue: nat)

  /** `l => l.source === source`. */
  function HasSource(source: string): Lead -> bool {
    (l: Lead) => l.source == source
  }

  function SourceRowFor(leads: seq<Lead>, source: string): SourceRow {
    var sourceLeads := Filter(leads, HasSource(source));
    var converted := CountWhere(sourceLeads, HasStatus("converted"));
    SourceRow(source, |sourceLeads|, converted, converted * 500)
  }

  /** `sourcePerformance`: one row per source, in the fixed order. */
  function SourcePerformance(leads: seq<Lead>): (rows: seq<SourceRow>)
    ensures |rows| == 4
  {
    seq(4, i requires 0 <= i < 4 => SourceRowFor(leads, LeadSources[i]))
  }

  /** Each row belongs to its source, in the fixed order; a row counts the
      leads of its source and those of them converted, earns 500 per
      conversion, and is non-empty exactly when some lead has that source. */
  lemma SourceRowFacts(leads: seq<Lead>, i: nat)
    requires i < 4
    ensures var row := SourcePerformance(leads)[i];
            && row.source == LeadSources[i]
            && row.leads == CountKey(leads, SourceOf, LeadSources[i])
            && row.converted <= row.leads
            && row.revenue == 500 * row.converted
            && (row.leads > 0 <==> exists l :: l in leads && l.source == LeadSources[i])
  {
    var f := Filter(leads, HasSource(LeadSources[i]));
    CountKeyIsFilter(leads, SourceOf, LeadSources[i], HasSource(LeadSources[i]));
    if |f| > 0 {
      assert f[0] in f;
    }
  }

  lemma RowLeadsCount(leads: seq<Lead>, source: string)
    ensures SourceRowFor(leads, source).leads == CountKey(leads, SourceOf, source)
  {
    CountKeyIsFilter(leads, SourceOf, source, HasSource(source));
  }

  /** When every lead has one of the four sources, the rows add up to all leads. */
  lemma SourceRowsCoverAllLeads(leads: seq<Lead>)
    requires forall i :: 0 <= i < |leads| ==> leads[i].source in LeadSources
    ensures var rows := SourcePerformance(leads);
            rows[0].leads + rows[1].leads + rows[2].leads + rows[3].leads == |leads|
  {
    var rows := SourcePerformance(leads);
    forall i | 0 <= i < 4
      ensures rows[i].leads == CountKey(leads, SourceOf, LeadSources[i])
    {
      RowLeadsCount(leads, LeadSources[i]);
    }
    assert SumCountKeys(leads, SourceOf, LeadSources) == |leads| by {
      LeadSourcesDistinct();
      CountKeysPartition(leads, SourceOf, LeadSources);
    }
    SumCountKeysFour(leads, SourceOf, "audit", "manual", "referral", "campaign");
  }

  /** "Active sources": the rows with at least one lead. */
  function ActiveSources(leads: seq<Lead>): (n: nat)
    ensures n <= 4
  {
    CountWhere(SourcePerformance(leads), (r: SourceRow) => r.leads > 0)
  }

  /** No leads means no active source; a lead of a listed source makes one. */
  lemma ActiveSourcesBounds(leads: seq<Lead>)
    ensures leads == [] ==> ActiveSources(leads) == 0
    ensures (exists l :: l in leads && l.source in LeadSources) ==> ActiveSources(leads) >= 1
  {
    var rows := SourcePerformance(leads);
    var active := (r: SourceRow) => r.leads > 0;
    if leads == [] {
      forall i | 0 <= i < 4
        ensures !active(rows[i])
      {
        SourceRowFacts(leads, i);
      }
      NoneCounted(rows, active);
    }
    if l :| l in leads && l.source in LeadSources {
      var i :| 0 <= i < 4 && LeadSources[i] == l.source;
      SourceRowFacts(leads, i);
      assert active(rows[i]);
      assert rows[i] in Filter(rows, active);
    }
  }

  lemma {:induction false} NoneCounted<T(!new)>(s: seq<T>, p: T -> bool)
    requires forall i :: 0 <= i < |s| ==> !p(s[i])
    ensures CountWhere(s, p) == 0
    decreases |s|
  {
    if s != [] {
      NoneCounted(s[1..], p);
    }
  }

  // ---------------------------------------------------------------------------
  // Per industry
  // ---------------------------------------------------------------------------

  /** A truthy industry: present and non-empty. */
  predicate HasIndustry(l: Lead, industry: string) {
    l.industry == Some(industry) && industry != ""
  }

  /** `[...new Set(leads.map(l => l.industry).filter(Boolean))]`: the distinct
      non-empty industries in order of first appearance. */
  function Industries(leads: seq<Lead>): (r: seq<string>)
    ensures forall i, j :: 0 <= i < j < |r| ==> r[i] != r[j]
    ensures forall x :: x in r ==> x != "" && exists i :: 0 <= i < |leads| && leads[i].industry == Some(x)
    ensures forall i :: 0 <= i < |leads| && leads[i].industry.Some? && leads[i].industry.value != "" ==>
              leads[i].industry.value in r
    decreases |leads|
  {
    if leads == [] then []
    else
      var init := leads[..|leads| - 1];
      var last := leads[|leads| - 1];
      var prev := Industries(init);
      assert forall i :: 0 <= i < |init| ==> init[i] == leads[i];
      if last.industry.Some? && last.industry.value != "" && last.industry.value !in prev then prev + [last.industry.value]
      else prev
  }

  /** The position of the first lead whose industry is `x`, or `|leads|` when
      there is none. */
  function FirstIndex(leads: seq<Lead>, x: string): (k: nat)
    ensures k <= |leads|
    ensures k < |leads| ==> HasIndustry(leads[k], x)
    ensures forall i :: 0 <= i < k ==> !HasIndustry(leads[i], x)
    decreases |leads|
  {
    if leads == [] then 0
    else if HasIndustry(leads[0], x) then 0
    else
      var k := 1 + FirstIndex(leads[1..], x);
      assert forall i :: 1 <= i < k ==> leads[i] == leads[1..][i - 1];
      k
  }

  lemma {:induction false} FirstIndexSnoc(init: seq<Lead>, last: Lead, x: string)
    ensures FirstIndex(init + [last], x) ==
              if FirstIndex(init, x) < |init| then FirstIndex(init, x)
              else if HasIndustry(last, x) then |init| else |init| + 1
    decreases |init|
  {
    if init != [] {
      assert (init + [last])[0] == init[0];
      assert (init + [last])[1..] == init[1..] + [last];
      FirstIndexSnoc(init[1..], last, x);
    }
  }

  /** Appending a lead does not move the first appearance of an industry
      already listed. */
  lemma PrevIndustriesKeepFirstIndex(init: seq<Lead>, last: Lead)
    ensures forall x :: x in Industries(init) ==> FirstIndex(init + [last], x) == FirstIndex(init, x) < |init|
  {
    forall x | x in Industries(init)
      ensures FirstIndex(init + [last], x) == FirstIndex(init, x) < |init|
    {
      var i :| 0 <= i < |init| && init[i].industry == Some(x);
      assert HasIndustry(init[i], x);
      FirstIndexSnoc(init, last, x);
    }
  }

  /** An industry first named by the appended lead appears first there. */
  lemma NewIndustryIsLast(init: seq<Lead>, last: Lead)
    requires last.industry.Some? && last.industry.value != "" && last.industry.value !in Industries(init)
    ensures FirstIndex(init + [last], last.industry.value) == |init|
  {
    var v := last.industry.value;
    assert forall i :: 0 <= i < |init| ==> !HasIndustry(init[i], v);
    FirstIndexSnoc(init, last, v);
  }

  /** The industries are listed in order of first appearance, the insertion
      order a `Set` keeps: an industry comes before the next one exactly
      because some lead names it earlier than any lead names the next. */
  lemma {:induction false} IndustriesFirstAppearanceOrder(leads: seq<Lead>)
    ensures var r := Industries(leads);
            forall k :: 0 <= k < |r| - 1 ==> FirstIndex(leads, r[k]) < FirstIndex(leads, r[k + 1])
    decreases |leads|
  {
    if leads != [] {
      var init := leads[..|leads| - 1];
      var last := leads[|leads| - 1];
      assert leads == init + [last];
      IndustriesFirstAppearanceOrder(init);
      PrevIndustriesKeepFirstIndex(init, last);
      var prev := Industries(init);
      var r := Industries(leads);
      assert r == prev || (r == prev + [last.industry.value] && last.industry.Some?
                           && last.industry.value != "" && last.industry.value !in prev);
      if r != prev {
        NewIndustryIsLast(init, last);
      }
      forall k | 0 <= k < |r| - 1
        ensures FirstIndex(leads, r[k]) < FirstIndex(leads, r[k + 1])
      {
        assert r[k] == prev[k] && r[k] in prev;
        if k + 1 < |prev| {
          assert r[k + 1] == prev[k + 1] && r[k + 1] in prev;
          assert FirstIndex(init, prev[k]) < FirstIndex(init, prev[k + 1]);
        }
      }
    }
  }

  datatype IndustryRow = IndustryRow(industry: string, leads: nat, converted: nat)

  /** `l => l.industry === industry`. */
  function InIndustry(industry: string): Lead -> bool {
    (l: Lead) => l.industry == Some(industry)
  }

  function IndustryRowFor(leads: seq<Lead>, industry: string): IndustryRow {
    var industryLeads := Filter(leads, InIndustry(industry));
    IndustryRow(industry, |industryLeads|, CountWhere(industryLeads, HasStatus("converted")))
  }

  function RowLeadsKey(): IndustryRow -> real {
    (r: IndustryRow) => -(r.leads as real)
  }

  /** `industryPerformance`: a row per industry, sorted by lead count, most
      first (`sort((a, b) => b.leads - a.leads)`, stable). */
  function IndustryPerformance(leads: seq<Lead>): seq<IndustryRow> {
    SortBy(UnsortedRows(leads), RowLeadsKey())
  }

  function UnsortedRows(leads: seq<Lead>): (rows: seq<IndustryRow>)
    ensures |rows| == |Industries(leads)|
  {
    var industries := Industries(leads);
    seq(|industries|, i requires 0 <= i < |industries| => IndustryRowFor(leads, industries[i]))
  }

  /** The sorted table holds the same rows as the unsorted one, sorted by
      lead count; rows with equal lead counts keep their unsorted order, which
      is the industries' first-appearance order. */
  lemma SameRows(leads: seq<Lead>)
    ensures IndustryPerformance(leads) == SortBy(UnsortedRows(leads), RowLeadsKey())
    ensures multiset(IndustryPerformance(leads)) == multiset(UnsortedRows(leads))
    ensures forall r :: r in IndustryPerformance(leads) <==> r in UnsortedRows(leads)
    ensures SortedBy(IndustryPerformance(leads), RowLeadsKey())
    ensures forall v :: Filter(IndustryPerformance(leads), KeyIs(RowLeadsKey(), v))
                          == Filter(UnsortedRows(leads), KeyIs(RowLeadsKey(), v))
  {
    SortByCorrect(UnsortedRows(leads), RowLeadsKey());
    forall v
      ensures Filter(IndustryPerformance(leads), KeyIs(RowLeadsKey(), v))
              == Filter(UnsortedRows(leads), KeyIs(RowLeadsKey(), v))
    {
      SortByStable(UnsortedRows(leads), RowLeadsKey(), v);
    }
    var rows := IndustryPerformance(leads);
    forall r
      ensures r in rows <==> r in UnsortedRows(leads)
    {
      assert r in rows <==> r in multiset(rows);
    }
  }

  /** One row per distinct non-empty industry, in non-increasing order of
      lead count. */
  lemma IndustryRowsOrdered(leads: seq<Lead>)
    ensures var rows := IndustryPerformance(leads);
            && |rows| == |Industries(leads)|
            && (forall i, j :: 0 <= i < j < |rows| ==> rows[i].leads >= rows[j].leads)
  {
    SameRows(leads);
    var rows := IndustryPerformance(leads);
    assert |rows| == |multiset(rows)| == |multiset(UnsortedRows(leads))| == |UnsortedRows(leads)|;
    assert forall i, j :: 0 <= i < j < |rows| ==> RowLeadsKey()(rows[i]) <= RowLeadsKey()(rows[j]);
  }

  /** Every row is its industry's own row and counts at least one lead. */
  lemma IndustryRowsCorrect(leads: seq<Lead>)
    ensures forall r :: r in IndustryPerformance(leads) ==>
              r == IndustryRowFor(leads, r.industry) && r.leads >= 1 && r.industry in Industries(leads)
  {
    SameRows(leads);
    var unsorted := UnsortedRows(leads);
    forall r | r in IndustryPerformance(leads)
      ensures r == IndustryRowFor(leads, r.industry) && r.leads >= 1 && r.industry in Industries(leads)
    {
      var i :| 0 <= i < |unsorted| && unsorted[i] == r;
      UnsortedRowCorrect(leads, i);
    }
  }

  /** The unsorted row of an industry is its own row and counts the lead that
      put the industry in the list. */
  lemma UnsortedRowCorrect(leads: seq<Lead>, i: nat)
    requires i < |Industries(leads)|
    ensures var row := UnsortedRows(leads)[i];
            row == IndustryRowFor(leads, row.industry) && row.leads >= 1 && row.industry in Industries(leads)
  {
    var industries := Industries(leads);
    assert industries[i] in industries;
    var k :| 0 <= k < |leads| && leads[k].industry == Some(industries[i]);
    assert leads[k] in Filter(leads, InIndustry(industries[i]));
  }

  /** Every distinct non-empty industry has its row. */
  lemma IndustryRowsCoverIndustries(leads: seq<Lead>)
    ensures forall x :: x in Industries(leads) ==> exists r :: r in IndustryPerformance(leads) && r.industry == x
  {
    SameRows(leads);
    var industries := Industries(leads);
    var unsorted := UnsortedRows(leads);
    forall x | x in industries
      ensures exists r :: r in IndustryPerformance(leads) && r.industry == x
    {
      var i :| 0 <= i < |industries| && industries[i] == x;
      assert unsorted[i] in IndustryPerformance(leads);
    }
  }

  // ---------------------------------------------------------------------------
  // Revenue attribution
  // ---------------------------------------------------------------------------

  datatype Attribution = Attribution(totalRevenue: nat, bySource: seq<(string, nat)>)

  /** `revenueAttribution`: the total from paid blueprints, and per source the
      revenue of that source's row. */
  function RevenueAttribution(leads: seq<Lead>, reports: seq<Report>): (a: Attribution)
    ensures a.totalRevenue == 500 * Blueprints(reports)
    ensures |a.bySource| == 4
    ensures forall i :: 0 <= i < 4 ==>
              a.bySource[i].0 == LeadSources[i] && a.bySource[i].1 == 500 * SourcePerformance(leads)[i].converted
  {
    var rows := SourcePerformance(leads);
    Attribution(Blueprints(reports) * BlueprintPrice, seq(4, i requires 0 <= i < 4 => (rows[i].source, rows[i].revenue)))
  }
}
