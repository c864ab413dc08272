/** The payments dashboard of app/admin/payments/page.tsx: the search and
    status filter and the revenue analytics over the page's payment list. */
module PaymentsPage {
  import opened Outcomes
  import opened JsText
  import opened SeqUtil
  import opened LeadModel

  /** The page's own `Payment` status union. */
  const PagePaymentStatuses: seq<string> := ["pending", "completed", "failed"]

  const MillisPerDay: int := 24 * 60 * 60 * 1000

  /** The page's local `Payment` record; `createdAt` in milliseconds. */
  datatype PagePayment = PagePayment(
    id: string,
    reportId: string,
    leadId: string,
    amount: real,
    status: string,
    createdAt: int)

  /** The search box: an empty query, or a case-insensitive substring of the
      payment id or of the linked lead's name or email. The lead is the first
      of `leads` with the payment's `leadId`. */
  predicate MatchesSearch(p: PagePayment, leads: seq<Lead>, query: string) {
    var lead := Find(leads, HasId(p.leadId));
    || query == ""
    || ContainsIgnoringCase(p.id, query)
    || (lead.Some? && lead.value.name.Some? && ContainsIgnoringCase(lead.value.name.value, query))
    || (lead.Some? && ContainsIgnoringCase(lead.value.email, query))
  }

  predicate PassesFilter(p: PagePayment, leads: seq<Lead>, query: string, status: string) {
    MatchesSearch(p, leads, query) && (status == "all" || p.status == status)
  }

  function Passes(leads: seq<Lead>, query: string, status: string): PagePayment -> bool {
    (p: PagePayment) => PassesFilter(p, leads, query, status)
  }

  /** `filteredPayments`: exactly the payments meeting both conditions. */
  function FilterPayments(payments: seq<PagePayment>, leads: seq<Lead>, query: string, status: string): (r: seq<PagePayment>)
    ensures forall p :: p in r <==> p in payments && PassesFilter(p, leads, query, status)
  {
    Filter(payments, Passes(leads, query, status))
  }

  /** The "Review" button sets the status filter to "failed": whatever the
      query, only failed payments remain, and with an empty query all of them. */
  lemma ReviewShowsFailed(payments: seq<PagePayment>, leads: seq<Lead>, query: string)
    ensures forall p :: p in FilterPayments(payments, leads, query, "failed") ==> p.status == "failed"
    ensures forall p :: p in FilterPayments(payments, leads, "", "failed") <==> p in payments && p.status == "failed"
  {
  }

  function PaymentStatusOf(p: PagePayment): string {
    p.status
  }

  function PaymentHasStatus(status: string): PagePayment -> bool {
    (p: PagePayment) => p.status == status
  }

  function Amount(p: PagePayment): real {
    p.amount
  }

  /** Completed and created at or after `since`. */
  function CompletedSince(since: int): PagePayment -> bool {
    (p: PagePayment) => p.status == "completed" && p.createdAt >= since
  }

  datatype PaymentAnalytics = PaymentAnalytics(
    totalRevenue: real,
    pendingRevenue: real,
    completedPayments: nat,
    pendingPayments: nat,
    failedPayments: nat,
    monthlyRevenue: real)

  /** `analytics` at clock reading `now` (milliseconds). */
  function Analytics(payments: seq<PagePayment>, now: int): (a: PaymentAnalytics)
    ensures a.completedPayments <= |payments| && a.pendingPayments <= |payments| && a.failedPayments <= |payments|
  {
    PaymentAnalytics(
      SumOf(Filter(payments, PaymentHasStatus("completed")), Amount),
      SumOf(Filter(payments, PaymentHasStatus("pending")), Amount),
      CountWhere(payments, PaymentHasStatus("completed")),
      CountWhere(payments, PaymentHasStatus("pending")),
      CountWhere(payments, PaymentHasStatus("failed")),
      SumOf(Filter(payments, CompletedSince(now - 30 * MillisPerDay)), Amount))
  }

  /** With every status in the union the three counts add up to the number of
      payments. */
  lemma PaymentCountsSumToTotal(payments: seq<PagePayment>, now: int)
    requires forall i :: 0 <= i < |payments| ==> payments[i].status in PagePaymentStatuses
    ensures var a := Analytics(payments, now);
            a.completedPayments + a.pendingPayments + a.failedPayments == |payments|
  {
    CountKeysPartition(payments, PaymentStatusOf, PagePaymentStatuses);
    SumCountKeysThree(payments, PaymentStatusOf, "pending", "completed", "failed");
    CountKeyIsFilter(payments, PaymentStatusOf, "pending", PaymentHasStatus("pending"));
    CountKeyIsFilter(payments, PaymentStatusOf, "completed", PaymentHasStatus("completed"));
    CountKeyIsFilter(payments, PaymentStatusOf, "failed", PaymentHasStatus("failed"));
  }

  /** With non-negative amounts, the revenue of the last 30 days is part of
      the completed revenue, and both are non-negative. */
  lemma MonthlyRevenueBounded(payments: seq<PagePayment>, now: int)
    requires forall i :: 0 <= i < |payments| ==> payments[i].amount >= 0.0
    ensures var a := Analytics(payments, now);
            0.0 <= a.monthlyRevenue <= a.totalRevenue
  {
    var monthly := CompletedSince(now - 30 * MillisPerDay);
    SumOfFilterSubset(payments, PaymentHasStatus("completed"), monthly, Amount);
    var m := Filter(payments, monthly);
    assert forall i :: 0 <= i < |m| ==> m[i] in payments;
    SumOfNonNegative(m, Amount);
  }
}
