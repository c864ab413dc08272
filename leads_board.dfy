/** The lead CRM board of app/admin/leads/page.tsx: the search/source/priority
    filter, the sort, the grouping into status columns, the analytics, and the
    board state that drag-and-drop and the detail modal update. */
module LeadsBoard {
  import opened Outcomes
  import opened JsText
  import opened SeqUtil
  import opened LeadModel

  // ---------------------------------------------------------------------------
  // Filter
  // ---------------------------------------------------------------------------

  /** The search box: an empty query, or a case-insensitive substring of the
      name, the email or the phone (an absent name or phone never matches). */
  predicate MatchesSearch(l: Lead, query: string) {
    || query == ""
    || (l.name.Some? && ContainsIgnoringCase(l.name.value, query))
    || ContainsIgnoringCase(l.email, query)
    || (l.phone.Some? && ContainsIgnoringCase(l.phone.value, query))
  }

  predicate PassesFilter(l: Lead, query: string, source: string, priority: string) {
    && MatchesSearch(l, query)
    && (source == "all" || l.source == source)
    && (priority == "all" || (l.priority.Some? && l.priority.value == priority))
  }

  function Passes(query: string, source: string, priority: string): Lead -> bool {
    (l: Lead) => PassesFilter(l, query, source, priority)
  }

  /** `leads.filter(...)`: exactly the leads meeting all three conditions, in
      their original order. */
  function FilterLeads(leads: seq<Lead>, query: string, source: string, priority: string): (r: seq<Lead>)
    ensures forall l :: l in r <==> l in leads && PassesFilter(l, query, source, priority)
  {
    Filter(leads, Passes(query, source, priority))
  }

  /** The filter keeps the relative order of the leads: it distributes over
      concatenation. */
  lemma FilterLeadsKeepsOrder(a: seq<Lead>, b: seq<Lead>, query: string, source: string, priority: string)
    ensures FilterLeads(a + b, query, source, priority)
            == FilterLeads(a, query, source, priority) + FilterLeads(b, query, source, priority)
  {
    FilterAppend(a, b, Passes(query, source, priority));
  }

  lemma FilterAppendAll(p: Lead -> bool)
    ensures forall a, b :: Filter(a + b, p) == Filter(a, p) + Filter(b, p)
  {
    forall a, b
      ensures Filter(a + b, p) == Filter(a, p) + Filter(b, p)
    {
      FilterAppend(a, b, p);
    }
  }

  // ---------------------------------------------------------------------------
  // Sort
  // ---------------------------------------------------------------------------

  /** The comparator of `filtered.sort` as a key: the comparator is
      `key(a) - key(b)`, so an ascending key gives the page's order. */
  function SortKey(sortBy: string, l: Lead): real {
    if sortBy == "newest" then -(l.createdAt as real)
    else if sortBy == "oldest" then l.createdAt as real
    else if sortBy == "value" then -EstimatedOrZero(l)
    else if sortBy == "lastContacted" then -(LastContactedOrZero(l) as real)
    else 0.0
  }

  /** `a.lastContactedAt ? time : 0`. */
  function LastContactedOrZero(l: Lead): int {
    if l.lastContactedAt.Some? then l.lastContactedAt.value else 0
  }

  function KeyFor(sortBy: string): Lead -> real {
    (l: Lead) => SortKey(sortBy, l)
  }

  function SortLeads(leads: seq<Lead>, sortBy: string): seq<Lead> {
    SortBy(leads, KeyFor(sortBy))
  }

  /** `filteredLeads`: the filtered leads in the selected order. */
  function VisibleLeads(leads: seq<Lead>, query: string, source: string, priority: string, sortBy: string): seq<Lead> {
    SortLeads(FilterLeads(leads, query, source, priority), sortBy)
  }

  /** The sort is a permutation, ordered as each option promises, and stable:
      leads with the same sort key keep their relative order, so an unknown
      option keeps the whole order. */
  lemma SortLeadsCorrect(leads: seq<Lead>, sortBy: string)
    ensures var r := SortLeads(leads, sortBy);
            && multiset(r) == multiset(leads)
            && (sortBy == "newest" ==> forall i, j :: 0 <= i < j < |r| ==> r[i].createdAt >= r[j].createdAt)
            && (sortBy == "oldest" ==> forall i, j :: 0 <= i < j < |r| ==> r[i].createdAt <= r[j].createdAt)
            && (sortBy == "value" ==> forall i, j :: 0 <= i < j < |r| ==> EstimatedOrZero(r[i]) >= EstimatedOrZero(r[j]))
            && (sortBy == "lastContacted" ==>
                  forall i, j :: 0 <= i < j < |r| ==> LastContactedOrZero(r[i]) >= LastContactedOrZero(r[j]))
            && (sortBy !in {"newest", "oldest", "value", "lastContacted"} ==> r == leads)
            && (forall v :: Filter(r, KeyIs(KeyFor(sortBy), v)) == Filter(leads, KeyIs(KeyFor(sortBy), v)))
  {
    var key := KeyFor(sortBy);
    forall v
      ensures Filter(SortBy(leads, key), KeyIs(key, v)) == Filter(leads, KeyIs(key, v))
    {
      SortByStable(leads, key, v);
    }
    SortByCorrect(leads, key);
    var r := SortBy(leads, key);
    assert forall i, j :: 0 <= i < j < |r| ==> SortKey(sortBy, r[i]) <= SortKey(sortBy, r[j]);
    if sortBy !in {"newest", "oldest", "value", "lastContacted"} {
      SortByConstantKey(leads, key);
    }
  }

  /** What the page lists is exactly the leads that pass the filter. */
  lemma VisibleLeadsAreFiltered(leads: seq<Lead>, query: string, source: string, priority: string, sortBy: string)
    ensures forall l :: l in VisibleLeads(leads, query, source, priority, sortBy)
                        <==> l in leads && PassesFilter(l, query, source, priority)
  {
    var f := FilterLeads(leads, query, source, priority);
    SortLeadsCorrect(f, sortBy);
    forall l
      ensures l in SortLeads(f, sortBy) <==> l in f
    {
      assert l in SortLeads(f, sortBy) <==> l in multiset(SortLeads(f, sortBy));
    }
  }

  // ---------------------------------------------------------------------------
  // Status columns
  // ---------------------------------------------------------------------------

  /** `groupedLeads`: one column per status, holding the filtered leads of
      that status in their order. */
  function GroupedLeads(filtered: seq<Lead>): (g: map<string, seq<Lead>>)
    ensures g.Keys == set s | s in LeadStatuses
  {
    map s | s in LeadStatuses :: Filter(filtered, HasStatus(s))
  }

  /** A lead appears in a column exactly when it has that status, and each
      column keeps the relative order of the filtered list. */
  lemma GroupsPartition(filtered: seq<Lead>, status: string, l: Lead)
    requires status in LeadStatuses
    ensures l in GroupedLeads(filtered)[status] <==> l in filtered && l.status == status
    ensures forall a, b :: Filter(a + b, HasStatus(status)) == Filter(a, HasStatus(status)) + Filter(b, HasStatus(status))
  {
    FilterAppendAll(HasStatus(status));
  }

  /** When every lead has one of the five statuses, the column sizes add up to
      the number of filtered leads. */
  lemma GroupSizesSumToTotal(filtered: seq<Lead>)
    requires AllKnownStatuses(filtered)
    ensures var g := GroupedLeads(filtered);
            |g[LeadStatuses[0]]| + |g[LeadStatuses[1]]| + |g[LeadStatuses[2]]| + |g[LeadStatuses[3]]|
            + |g[LeadStatuses[4]]| == |filtered|
  {
    var g := GroupedLeads(filtered);
    forall k | 0 <= k < 5
      ensures |g[LeadStatuses[k]]| == CountKey(filtered, StatusOf, LeadStatuses[k])
    {
      CountKeyIsFilter(filtered, StatusOf, LeadStatuses[k], HasStatus(LeadStatuses[k]));
    }
    assert SumCountKeys(filtered, StatusOf, LeadStatuses) == |filtered| by {
      LeadStatusesDistinct();
      CountKeysPartition(filtered, StatusOf, LeadStatuses);
    }
    assert LeadStatuses == [LeadStatuses[0], LeadStatuses[1], LeadStatuses[2], LeadStatuses[3], LeadStatuses[4]];
    SumCountKeysFive(filtered, StatusOf, LeadStatuses[0], LeadStatuses[1], LeadStatuses[2], LeadStatuses[3], LeadStatuses[4]);
  }

  // ---------------------------------------------------------------------------
  // Analytics
  // ---------------------------------------------------------------------------

  datatype LeadAnalytics = LeadAnalytics(
    total: nat,
    converted: nat,
    conversionRate: real,
    totalRevenue: real,
    potentialRevenue: real,
    byStatus: seq<(string, nat)>)

  function IsOpenLead(): Lead -> bool {
    (l: Lead) => IsOpen(l)
  }

  /** `analytics`, over the whole list (not the filtered one). */
  function Analytics(leads: seq<Lead>): (a: LeadAnalytics)
    ensures a.total == |leads| && a.converted <= a.total
    ensures |a.byStatus| == |LeadStatuses|
    ensures forall i :: 0 <= i < |a.byStatus| ==> a.byStatus[i].0 == LeadStatuses[i] && a.byStatus[i].1 <= a.total
  {
    var total := |leads|;
    var converted := CountWhere(leads, HasStatus("converted"));
    LeadAnalytics(
      total,
      converted,
      if total > 0 then (converted as real / total as real) * 100.0 else 0.0,
      SumOf(Filter(leads, HasStatus("converted")), ConvertedValue),
      SumOf(Filter(leads, IsOpenLead()), EstimatedOrZero),
      seq(|LeadStatuses|, i requires 0 <= i < |LeadStatuses| =>
        (LeadStatuses[i], CountWhere(leads, HasStatus(LeadStatuses[i])))))
  }

  /** The totals: converted leads are among all leads and the conversion rate
      is a percentage. */
  lemma AnalyticsRate(leads: seq<Lead>)
    ensures var a := Analytics(leads);
            && a.total == |leads|
            && a.converted <= a.total
            && 0.0 <= a.conversionRate <= 100.0
  {
    var a := Analytics(leads);
    if |leads| > 0 {
      var c := a.converted as real;
      var t := |leads| as real;
      RatioAtMostOne(c, t);
    }
  }

  lemma RatioAtMostOne(c: real, t: real)
    requires 0.0 <= c <= t && t > 0.0
    ensures 0.0 <= c / t <= 1.0
  {
  }

  /** `byStatus` lists the five statuses in order; its converted entry is
      `converted`, and when every lead has one of the five statuses its counts
      add up to `total`. */
  lemma AnalyticsByStatus(leads: seq<Lead>)
    ensures var a := Analytics(leads);
            && |a.byStatus| == 5
            && (forall i :: 0 <= i < 5 ==> a.byStatus[i].0 == LeadStatuses[i])
            && a.byStatus[3].1 == a.converted
            && (AllKnownStatuses(leads) ==>
                  a.byStatus[0].1 + a.byStatus[1].1 + a.byStatus[2].1 + a.byStatus[3].1 + a.byStatus[4].1 == a.total)
  {
    var a := Analytics(leads);
    forall i | 0 <= i < 5
      ensures a.byStatus[i].1 == CountKey(leads, StatusOf, LeadStatuses[i])
    {
      CountKeyIsFilter(leads, StatusOf, LeadStatuses[i], HasStatus(LeadStatuses[i]));
    }
    if AllKnownStatuses(leads) {
      StatusCountsSumToTotal(leads);
    }
  }

  /** With non-negative values, both revenue sums are non-negative and no
      more than the same sum taken over every lead. */
  lemma AnalyticsRevenue(leads: seq<Lead>)
    requires NonNegativeValues(leads)
    ensures var a := Analytics(leads);
            && 0.0 <= a.totalRevenue <= SumOf(leads, ConvertedValue)
            && 0.0 <= a.potentialRevenue <= SumOf(leads, EstimatedOrZero)
  {
    assert forall i :: 0 <= i < |leads| ==> ConvertedValue(leads[i]) >= 0.0 && EstimatedOrZero(leads[i]) >= 0.0;
    SumOfFilterWithin(leads, HasStatus("converted"), ConvertedValue);
    SumOfFilterWithin(leads, IsOpenLead(), EstimatedOrZero);
  }

  // ---------------------------------------------------------------------------
  // Drag and drop
  // ---------------------------------------------------------------------------

  /** The `PATCH /api/leads/{id}` request the drop sends. */
  datatype LeadPatch = LeadPatch(leadId: string, status: string)

  /** The dragged lead after the optimistic update: the new status, `updatedAt`
      set to now, and `convertedAt` set to now only on a first conversion. */
  function Moved(l: Lead, status: string, now: int): Lead {
    l.(status := status,
       updatedAt := now,
       convertedAt := if status == "converted" && l.convertedAt.None? then Some(now) else l.convertedAt)
  }

  /** `prevLeads.map(l => l.id === leadId ? moved : l)`. */
  function MoveLead(leads: seq<Lead>, leadId: string, status: string, now: int): (r: seq<Lead>)
    ensures |r| == |leads|
  {
    seq(|leads|, i requires 0 <= i < |leads| => if leads[i].id == leadId then Moved(leads[i], status, now) else leads[i])
  }

  /** Only the dragged lead changes, and only in its status, `updatedAt` and
      `convertedAt`: every other field of it is kept, as the spread copy does. */
  lemma MoveLeadChangesOnlyDragged(leads: seq<Lead>, leadId: string, status: string, now: int)
    ensures var r := MoveLead(leads, leadId, status, now);
            && |r| == |leads|
            && (forall i :: 0 <= i < |leads| && leads[i].id != leadId ==> r[i] == leads[i])
            && (forall i :: 0 <= i < |leads| && leads[i].id == leadId ==>
                  && r[i].status == status && r[i].updatedAt == now
                  && r[i].(status := leads[i].status, updatedAt := leads[i].updatedAt,
                           convertedAt := leads[i].convertedAt) == leads[i]
                  && r[i].id == leads[i].id && r[i].createdAt == leads[i].createdAt
                  && r[i].email == leads[i].email && r[i].source == leads[i].source
                  && (status == "converted" && leads[i].convertedAt.None? ==> r[i].convertedAt == Some(now))
                  && (status != "converted" || leads[i].convertedAt.Some? ==> r[i].convertedAt == leads[i].convertedAt))
  {
  }

  /** With distinct ids, a drop changes exactly one position. */
  lemma MoveLeadTouchesOneRecord(leads: seq<Lead>, k: nat, status: string, now: int)
    requires UniqueIds(leads) && k < |leads|
    ensures var r := MoveLead(leads, leads[k].id, status, now);
            forall i :: 0 <= i < |leads| && i != k ==> r[i] == leads[i]
  {
  }

  /** Moving to a known status keeps every status known. */
  lemma MoveLeadKeepsKnownStatuses(leads: seq<Lead>, leadId: string, status: string, now: int)
    requires AllKnownStatuses(leads) && status in LeadStatuses
    ensures AllKnownStatuses(MoveLead(leads, leadId, status, now))
  {
  }

  /** `over.id as LeadStatus`, as written: the id of whatever was dropped on.
      Cards are droppable as well as columns (each card registers
      `useSortable({ id: lead.id })`), so the id may be a lead's. */
  function TargetAsWritten(overId: string): string {
    overId
  }

  /** The column a drop lands in: a column's id is its status; a card stands
      for the column it sits in. */
  function ResolveTarget(leads: seq<Lead>, overId: string): (r: Option<string>)
    ensures AllKnownStatuses(leads) && r.Some? ==> r.value in LeadStatuses
    ensures overId in LeadStatuses ==> r == Some(overId)
  {
    if overId in LeadStatuses then Some(overId)
    else
      match Find(leads, HasId(overId))
      case Some(card) => Some(card.status)
      case None => None
  }

  /** Whether a drop of `leadId` into `status` changes anything: the lead is
      on the board and not already in that column. */
  predicate Moves(leads: seq<Lead>, leadId: string, status: string) {
    var lead := Find(leads, HasId(leadId));
    lead.Some? && lead.value.status != status
  }

  /** The drop as written: a card dropped on another card takes that card's id
      as its status, which is none of the five statuses. */
  lemma DropOnCardAsWritten(leads: seq<Lead>, dragged: nat, target: nat, now: int)
    requires UniqueIds(leads) && AllKnownStatuses(leads)
    requires dragged < |leads| && target < |leads| && dragged != target
    requires leads[target].id !in LeadStatuses
    ensures var status := TargetAsWritten(leads[target].id);
            && Moves(leads, leads[dragged].id, status)
            && MoveLead(leads, leads[dragged].id, status, now)[dragged].status == leads[target].id
            && !AllKnownStatuses(MoveLead(leads, leads[dragged].id, status, now))
  {
    var status := TargetAsWritten(leads[target].id);
    var found := Find(leads, HasId(leads[dragged].id));
    assert found.Some?;
    assert found.value.status in LeadStatuses by {
      assert exists i :: 0 <= i < |leads| && leads[i] == found.value;
    }
    var r := MoveLead(leads, leads[dragged].id, status, now);
    assert !HasKnownStatus(r[dragged]);
  }

  /** The same drop with the target resolved lands the card in the column of
      the card it was dropped on. */
  lemma DropOnCardResolved(leads: seq<Lead>, target: nat)
    requires UniqueIds(leads) && target < |leads| && leads[target].id !in LeadStatuses
    ensures ResolveTarget(leads, leads[target].id) == Some(leads[target].status)
  {
    FindUnique(leads, target);
  }

  lemma FindUnique(leads: seq<Lead>, k: nat)
    requires UniqueIds(leads) && k < |leads|
    ensures Find(leads, HasId(leads[k].id)) == Some(leads[k])
  {
    var found := Find(leads, HasId(leads[k].id));
    assert found.Some?;
    var i :| 0 <= i < |leads| && leads[i] == found.value;
    assert leads[i].id == leads[k].id;
  }

  // ---------------------------------------------------------------------------
  // Board state
  // ---------------------------------------------------------------------------

  /** The page's `leads` and `activeId` state; `initialLeads` is `mockLeads`,
      which the page starts from and reverts to. */
  class LeadBoard {
    var leads: seq<Lead>
    var activeId: Option<string>
    const initialLeads: seq<Lead>

    predicate Valid()
      reads this
    {
      AllKnownStatuses(leads) && AllKnownStatuses(initialLeads)
    }

    constructor(initial: seq<Lead>)
      ensures leads == initial && initialLeads == initial && activeId == None
    {
      leads := initial;
      initialLeads := initial;
      activeId := None;
    }

    /** `handleDragStart`. */
    method DragStart(id: string)
      modifies this
      ensures activeId == Some(id) && leads == old(leads)
    {
      activeId := Some(id);
    }

    /** `handleDragEnd`, with the drop target resolved to a column. `overId` is
        None when the drop is outside every droppable; `patchOk` is whether the
        PATCH answered OK (a network failure counts as not OK). */
    method DragEnd(leadId: string, overId: Option<string>, now: int, patchOk: bool) returns (patch: Option<LeadPatch>)
      requires Valid()
      modifies this
      ensures Valid()
      ensures activeId == None
      ensures overId.None? || ResolveTarget(old(leads), overId.value).None?
                || !Moves(old(leads), leadId, ResolveTarget(old(leads), overId.value).value)
              ==> leads == old(leads) && patch.None?
      ensures overId.Some? && ResolveTarget(old(leads), overId.value).Some?
              && Moves(old(leads), leadId, ResolveTarget(old(leads), overId.value).value)
              ==> var status := ResolveTarget(old(leads), overId.value).value;
                  && patch == Some(LeadPatch(leadId, status))
                  && leads == (if patchOk then MoveLead(old(leads), leadId, status, now) else initialLeads)
    {
      activeId := None;
      if overId.None? {
        return None;
      }
      var target := ResolveTarget(leads, overId.value);
      if target.None? {
        return None;
      }
      var newStatus := target.value;
      var lead := Find(leads, HasId(leadId));
      if lead.None? || lead.value.status == newStatus {
        return None;
      }
      MoveLeadKeepsKnownStatuses(leads, leadId, newStatus, now);
      leads := MoveLead(leads, leadId, newStatus, now);
      patch := Some(LeadPatch(leadId, newStatus));
      if !patchOk {
        leads := initialLeads;
      }
    }

    /** `onUpdate` from the detail modal: the lead with the same id is replaced. */
    method OnUpdate(updated: Lead)
      requires Valid() && HasKnownStatus(updated)
      modifies this
      ensures Valid()
      ensures activeId == old(activeId)
      ensures leads == ReplaceById(old(leads), updated)
    {
      leads := ReplaceById(leads, updated);
    }
  }

  /** `prev.map(l => l.id === updated.id ? updated : l)`. */
  function ReplaceById(leads: seq<Lead>, updated: Lead): (r: seq<Lead>)
    ensures |r| == |leads|
    ensures HasKnownStatus(updated) && AllKnownStatuses(leads) ==> AllKnownStatuses(r)
  {
    seq(|leads|, i requires 0 <= i < |leads| => if leads[i].id == updated.id then updated else leads[i])
  }

  /** With distinct ids, exactly the lead with the matching id is replaced;
      when no id matches, nothing changes. */
  lemma ReplaceByIdExact(leads: seq<Lead>, updated: Lead)
    requires UniqueIds(leads)
    ensures var r := ReplaceById(leads, updated);
            && (forall i :: 0 <= i < |leads| ==> (r[i] == updated) || (r[i] == leads[i]))
            && (forall i :: 0 <= i < |leads| && leads[i].id == updated.id ==> r[i] == updated)
            && (forall i :: 0 <= i < |leads| && leads[i].id != updated.id ==> r[i] == leads[i])
            && ((forall i :: 0 <= i < |leads| ==> leads[i].id != updated.id) ==> r == leads)
            && (UniqueIds(leads) ==> UniqueIds(r))
  {
  }
}
