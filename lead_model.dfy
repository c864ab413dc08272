/** The Lead record of lib/models/lead.ts, as the admin pages read it.
    Timestamps are the milliseconds `new Date(iso).getTime()` gives. The status
    is kept as the string the record holds, since the lead board can write
    any string there. */
module LeadModel {
  import opened Outcomes
  import opened SeqUtil

  /** `LeadStatus`, in the order the board lists its columns. */
  const LeadStatuses: seq<string> := ["new", "contacted", "qualified", "converted", "lost"]

  /** The `source` union, in the order the analytics page lists it. */
  const LeadSources: seq<string> := ["audit", "manual", "referral", "campaign"]

  datatype Lead = Lead(
    id: string,
    name: Option<string>,
    email: string,
    phone: Option<string>,
    industry: Option<string>,
    status: string,
    source: string,
    priority: Option<string>,
    estimatedValue: Option<real>,
    actualValue: Option<real>,
    createdAt: int,
    updatedAt: int,
    convertedAt: Option<int>,
    lastContactedAt: Option<int>)

  lemma LeadStatusesDistinct()
    ensures forall i, j :: 0 <= i < j < |LeadStatuses| ==> LeadStatuses[i] != LeadStatuses[j]
    ensures |LeadStatuses| == 5
  {
  }

  lemma LeadSourcesDistinct()
    ensures forall i, j :: 0 <= i < j < |LeadSources| ==> LeadSources[i] != LeadSources[j]
    ensures LeadSources == ["audit", "manual", "referral", "campaign"]
  {
  }

  predicate HasKnownStatus(l: Lead) {
    l.status in LeadStatuses
  }

  /** Every lead of the list carries one of the five statuses. */
  predicate AllKnownStatuses(leads: seq<Lead>) {
    forall i :: 0 <= i < |leads| ==> HasKnownStatus(leads[i])
  }

  function StatusOf(l: Lead): string {
    l.status
  }

  function SourceOf(l: Lead): string {
    l.source
  }

  /** `l => l.status === status`. */
  function HasStatus(status: string): Lead -> bool {
    (l: Lead) => l.status == status
  }

  /** `l => l.id === id`. */
  function HasId(id: string): Lead -> bool {
    (l: Lead) => l.id == id
  }

  /** Neither converted nor lost. */
  predicate IsOpen(l: Lead) {
    l.status != "converted" && l.status != "lost"
  }

  /** `value || fallback` on an optional number: an absent value and 0 are both
      falsy and give the fallback. */
  function NumberOr(value: Option<real>, fallback: real): (r: real)
    ensures value.Some? && value.value != 0.0 ==> r == value.value
    ensures value.None? || value.value == 0.0 ==> r == fallback
  {
    if value.Some? && value.value != 0.0 then value.value else fallback
  }

  /** `estimatedValue || 0`. */
  function EstimatedOrZero(l: Lead): real {
    NumberOr(l.estimatedValue, 0.0)
  }

  /** Revenue of a converted lead: `actualValue || estimatedValue || 0`. */
  function ConvertedValue(l: Lead): real {
    NumberOr(l.actualValue, EstimatedOrZero(l))
  }

  /** The ids of a list are pairwise distinct. */
  predicate UniqueIds(leads: seq<Lead>) {
    forall i, j :: 0 <= i < j < |leads| ==> leads[i].id != leads[j].id
  }

  /** Values that are never negative. */
  predicate NonNegativeValues(leads: seq<Lead>) {
    forall i :: 0 <= i < |leads| ==>
      (leads[i].estimatedValue.Some? ==> leads[i].estimatedValue.value >= 0.0)
      && (leads[i].actualValue.Some? ==> leads[i].actualValue.value >= 0.0)
  }

  /** The per-status counts add up to the length of the list when every lead
      has one of the five statuses. */
  lemma StatusCountsSumToTotal(leads: seq<Lead>)
    requires AllKnownStatuses(leads)
    ensures CountKey(leads, StatusOf, "new") + CountKey(leads, StatusOf, "contacted")
            + CountKey(leads, StatusOf, "qualified") + CountKey(leads, StatusOf, "converted")
            + CountKey(leads, StatusOf, "lost") == |leads|
  {
    LeadStatusesDistinct();
    CountKeysPartition(leads, StatusOf, LeadStatuses);
    SumCountKeysFive(leads, StatusOf, "new", "contacted", "qualified", "converted", "lost");
  }

  /** The number of leads with a status, as `leads.filter(l => l.status === s).length`. */
  lemma StatusCountIsFilter(leads: seq<Lead>, status: string)
    ensures CountWhere(leads, HasStatus(status)) == CountKey(leads, StatusOf, status)
  {
    CountKeyIsFilter(leads, StatusOf, status, HasStatus(status));
  }
}
