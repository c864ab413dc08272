/** The deals dashboard of app/admin/deals/page.tsx: the commission revenue of
    one deal and the totals over all deals. Deal records follow
    lib/models/deals.ts; the numbers the page reads with `|| 0` are optional. */
module DealsPage {
  import opened Outcomes
  import opened SeqUtil

  /** The `status` union. */
  const DealStatuses: seq<string> := ["active", "paused", "archived"]

  datatype Deal = Deal(
    id: string,
    name: string,
    commissionType: string,
    commissionValue: Option<real>,
    price: Option<real>,
    redemptions: Option<real>,
    status: string)

  /** `x || 0` on an optional number. */
  function OrZero(x: Option<real>): (r: real)
    ensures x.None? || x.value == 0.0 ==> r == 0.0
    ensures x.Some? ==> r == x.value
  {
    if x.Some? then x.value else 0.0
  }

  /** `calculateDealRevenue`. A percentage deal earns its price times the
      commission percentage per redemption, a fixed deal its commission per
      redemption, and any other commission type nothing. The percentage branch
      reads `commissionValue` without a fallback; an absent one makes the
      JavaScript result NaN, which the model writes as 0. */
  function DealRevenue(d: Deal): (r: real)
    ensures OrZero(d.redemptions) == 0.0 ==> r == 0.0
    ensures d.commissionType != "percentage" && d.commissionType != "fixed" ==> r == 0.0
    ensures d.commissionType == "percentage" && d.commissionValue.Some? ==>
              r == OrZero(d.price) * d.commissionValue.value / 100.0 * OrZero(d.redemptions)
    ensures d.commissionType == "fixed" ==> r == OrZero(d.commissionValue) * OrZero(d.redemptions)
    ensures NonNegativeDeal(d) ==> r >= 0.0
  {
    if d.commissionType == "percentage" then
      OrZero(d.price) * (OrZero(d.commissionValue) / 100.0) * OrZero(d.redemptions)
    else if d.commissionType == "fixed" then
      OrZero(d.commissionValue) * OrZero(d.redemptions)
    else
      0.0
  }

  predicate NonNegativeDeal(d: Deal) {
    OrZero(d.price) >= 0.0 && OrZero(d.commissionValue) >= 0.0 && OrZero(d.redemptions) >= 0.0
  }

  function DealStatusOf(d: Deal): string {
    d.status
  }

  function DealHasStatus(status: string): Deal -> bool {
    (d: Deal) => d.status == status
  }

  datatype DealStats = DealStats(totalRevenue: real, totalDeals: nat, activeDeals: nat, pausedDeals: nat, archivedDeals: nat)

  /** The page's stats over the deal list. */
  function Stats(deals: seq<Deal>): (s: DealStats)
    ensures s.totalDeals == |deals|
    ensures s.activeDeals <= s.totalDeals && s.pausedDeals <= s.totalDeals && s.archivedDeals <= s.totalDeals
  {
    DealStats(
      SumOf(deals, DealRevenue),
      |deals|,
      CountWhere(deals, DealHasStatus("active")),
      CountWhere(deals, DealHasStatus("paused")),
      CountWhere(deals, DealHasStatus("archived")))
  }

  /** With every status in the union the three counts add up to the number of
      deals; with non-negative numbers the total revenue is non-negative; and
      the total over two lists is the sum of their totals. */
  lemma StatsProperties(deals: seq<Deal>, more: seq<Deal>)
    ensures var s := Stats(deals);
            (forall i :: 0 <= i < |deals| ==> deals[i].status in DealStatuses) ==>
              s.activeDeals + s.pausedDeals + s.archivedDeals == s.totalDeals
    ensures (forall i :: 0 <= i < |deals| ==> NonNegativeDeal(deals[i])) ==> Stats(deals).totalRevenue >= 0.0
    ensures Stats(deals + more).totalRevenue == Stats(deals).totalRevenue + Stats(more).totalRevenue
  {
    if forall i :: 0 <= i < |deals| ==> deals[i].status in DealStatuses {
      CountKeysPartition(deals, DealStatusOf, DealStatuses);
      SumCountKeysThree(deals, DealStatusOf, "active", "paused", "archived");
      CountKeyIsFilter(deals, DealStatusOf, "active", DealHasStatus("active"));
      CountKeyIsFilter(deals, DealStatusOf, "paused", DealHasStatus("paused"));
      CountKeyIsFilter(deals, DealStatusOf, "archived", DealHasStatus("archived"));
    }
    if forall i :: 0 <= i < |deals| ==> NonNegativeDeal(deals[i]) {
      SumOfNonNegative(deals, DealRevenue);
    }
    SumOfAppend(deals, more, DealRevenue);
  }
}
