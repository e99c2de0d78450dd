/** The analytics page (client/src/pages/Analytics.jsx): the best clients by
    collected work and the split of this month's spending into fixed
    subscriptions and variable costs. The monthly evolution series is
    MonthlyBuckets.MonthlyEvolution. */
module Analytics {
  import opened Common
  import opened Records
  import ClientsPage
  import SubscriptionsPage

  // ---------------------------------------------------------------------
  // getTopClients

  /** A client as the page receives it: its name and its jobs. */
  datatype ClientJobs = ClientJobs(name: string, jobs: seq<Job>)

  /** One client's row in the ranking: the name and the collected total. */
  datatype Row = Row(name: string, total: real)

  /** How many clients the ranking keeps. */
  const TopCount: nat := 5

  function Paid(j: Job): bool { j.isPaid }

  function PaidAmount(j: Job): real { if j.isPaid then j.amount else 0.0 }

  /** What a client has collected: the amounts of the paid jobs added up. */
  function PaidTotal(jobs: seq<Job>): real
  {
    Sum(Filter(jobs, Paid), ClientsPage.JobAmount)
  }

  /** Collected and pending work add up to all the work of a client. */
  lemma {:induction false} PaidPlusPending(jobs: seq<Job>)
    ensures PaidTotal(jobs) + ClientsPage.PendingAmount(jobs) == Sum(jobs, ClientsPage.JobAmount)
  {
    SumFilter(jobs, Paid, ClientsPage.JobAmount, PaidAmount);
    ClientsPage.PendingIsUnpaidSum(jobs);
    SumSplit(jobs, PaidAmount, ClientsPage.UnpaidAmount, ClientsPage.JobAmount);
  }

  /** Collecting an unpaid job moves its amount from pending to collected. */
  lemma {:induction false} CollectRaisesPaid(jobs: seq<Job>, i: nat)
    requires i < |jobs| && !jobs[i].isPaid
    ensures PaidTotal(jobs[i := jobs[i].(isPaid := true)]) == PaidTotal(jobs) + jobs[i].amount
  {
    SumFilter(jobs, Paid, ClientsPage.JobAmount, PaidAmount);
    SumFilter(jobs[i := jobs[i].(isPaid := true)], Paid, ClientsPage.JobAmount, PaidAmount);
    SumUpdate(jobs, i, jobs[i].(isPaid := true), PaidAmount);
  }

  /** One row per client, in client order, with the collected total. */
  function Rows(clients: seq<ClientJobs>): (r: seq<Row>)
    ensures |r| == |clients|
    ensures forall i :: 0 <= i < |r| ==> r[i] == Row(clients[i].name, PaidTotal(clients[i].jobs))
    decreases |clients|
  {
    if |clients| == 0 then []
    else
      var c := clients[|clients| - 1];
      Rows(clients[..|clients| - 1]) + [Row(c.name, PaidTotal(c.jobs))]
  }

  /** Totals never increase along the sequence. */
  predicate Descending(rows: seq<Row>)
  {
    forall i, j :: 0 <= i < j < |rows| ==> rows[i].total >= rows[j].total
  }

  /** Places a row after every row whose total is at least its own. */
  function InsertDesc(x: Row, sorted: seq<Row>): (r: seq<Row>)
    requires Descending(sorted)
    ensures multiset(r) == multiset(sorted) + multiset{x}
    ensures Descending(r)
    decreases |sorted|
  {
    if |sorted| == 0 then [x]
    else if x.total > sorted[0].total then
      DescendingCons(x, sorted);
      [x] + sorted
    else
      var head, rest := sorted[0], sorted[1..];
      assert sorted == [head] + rest;
      var tail := InsertDesc(x, rest);
      HeadAboveInserted(head, rest, x, tail);
      DescendingCons(head, tail);
      assert multiset([head] + tail) == multiset{head} + multiset(tail);
      [head] + tail
  }

  /** A head at least as high as a descending sequence's first row stays on top. */
  lemma DescendingCons(head: Row, tail: seq<Row>)
    requires Descending(tail)
    requires |tail| > 0 ==> head.total >= tail[0].total
    ensures Descending([head] + tail)
  {
    var r := [head] + tail;
    forall i, j | 0 <= i < j < |r| ensures r[i].total >= r[j].total {
      assert r[j] == tail[j - 1];
      if i > 0 {
        assert r[i] == tail[i - 1];
      }
    }
  }

  /** Inserting a row no higher than the head keeps the head first. */
  lemma HeadAboveInserted(head: Row, rest: seq<Row>, x: Row, tail: seq<Row>)
    requires Descending([head] + rest) && head.total >= x.total
    requires multiset(tail) == multiset(rest) + multiset{x}
    ensures |tail| > 0 ==> head.total >= tail[0].total
  {
    if |tail| > 0 {
      var y := tail[0];
      assert y in multiset(tail);
      if y != x {
        assert y in multiset(rest);
        var j :| 0 <= j < |rest| && rest[j] == y;
        assert ([head] + rest)[j + 1] == y && ([head] + rest)[0] == head;
      }
    }
  }

  /** The rows ordered by total, highest first. */
  function SortDesc(rows: seq<Row>): (r: seq<Row>)
    ensures multiset(r) == multiset(rows)
    ensures Descending(r)
    decreases |rows|
  {
    if |rows| == 0 then []
    else
      var init, last := rows[..|rows| - 1], rows[|rows| - 1];
      assert rows == init + [last];
      InsertDesc(last, SortDesc(init))
  }

  /** Every row left out of top (a copy of it not kept) ranks no higher
      than any row kept. */
  predicate KeepsTheBest(top: seq<Row>, rows: seq<Row>)
  {
    forall x :: x in rows && multiset(top)[x] < multiset(rows)[x] ==>
      forall y :: y in top ==> y.total >= x.total
  }

  /** getTopClients: the five best clients by collected work, best first;
      no client left out has collected more than any client kept. */
  function TopClients(clients: seq<ClientJobs>): (r: seq<Row>)
    ensures |r| == Min(TopCount, |clients|)
    ensures Descending(r)
    ensures multiset(r) <= multiset(Rows(clients))
    ensures KeepsTheBest(r, Rows(clients))
  {
    var rows := Rows(clients);
    var sorted := SortDesc(rows);
    var n := Min(TopCount, |sorted|);
    TopPrefix(rows, sorted, n);
    sorted[..n]
  }

  /** The first n rows of a descending ordering of rows. */
  lemma TopPrefix(rows: seq<Row>, sorted: seq<Row>, n: nat)
    requires Descending(sorted) && multiset(sorted) == multiset(rows) && n <= |sorted|
    ensures Descending(sorted[..n])
    ensures multiset(sorted[..n]) <= multiset(rows)
    ensures KeepsTheBest(sorted[..n], rows)
  {
    assert sorted == sorted[..n] + sorted[n..];
    assert multiset(sorted) == multiset(sorted[..n]) + multiset(sorted[n..]);
    forall x | x in rows && multiset(sorted[..n])[x] < multiset(rows)[x]
      ensures forall y :: y in sorted[..n] ==> y.total >= x.total
    {
      DroppedIsAfter(sorted, n, x);
      AfterRanksBelow(sorted, n, x);
    }
  }

  /** A copy of x missing from the first n elements lies after them. */
  lemma DroppedIsAfter(s: seq<Row>, n: nat, x: Row)
    requires n <= |s| && multiset(s[..n])[x] < multiset(s)[x]
    ensures x in s[n..]
  {
    assert s == s[..n] + s[n..];
    assert multiset(s) == multiset(s[..n]) + multiset(s[n..]);
    assert x in multiset(s[n..]);
  }

  /** In a descending sequence every element of a prefix ranks at least as
      high as every element after it. */
  lemma AfterRanksBelow(s: seq<Row>, n: nat, x: Row)
    requires Descending(s) && n <= |s| && x in s[n..]
    ensures forall y :: y in s[..n] ==> y.total >= x.total
  {
    var j :| 0 <= j < |s[n..]| && s[n..][j] == x;
    forall y | y in s[..n] ensures y.total >= x.total {
      var i :| 0 <= i < n && s[..n][i] == y;
      assert s[i] == y && s[n + j] == x;
    }
  }

  // ---------------------------------------------------------------------
  // getCostStructure

  /** The two slices of the cost chart: subscriptions and variable spending. */
  datatype CostSplit = CostSplit(subscriptions: real, variable: real)

  function TxnAmount(t: Transaction): real { t.amount }

  /** A dated outflow of the given month: a non-empty date that begins with
      the month's text, and a negative amount. */
  function SpentIn(month: string): Transaction -> bool
  {
    (t: Transaction) => t.date != "" && StartsWith(t.date, month) && t.amount < 0.0
  }

  function SpentSizeIn(month: string): Transaction -> real
  {
    (t: Transaction) => if SpentIn(month)(t) then -t.amount else 0.0
  }

  function SpentAmountIn(month: string): Transaction -> real
  {
    (t: Transaction) => if SpentIn(month)(t) then t.amount else 0.0
  }

  /** The size of the month's outflows added up. */
  function MonthlyExpenses(ts: seq<Transaction>, month: string): real
  {
    Abs(Sum(Filter(ts, SpentIn(month)), TxnAmount))
  }

  /** The month's spending is the sum of the sizes of its outflows. */
  lemma {:induction false} MonthlyExpensesAreSizes(ts: seq<Transaction>, month: string)
    ensures MonthlyExpenses(ts, month) == Sum(ts, SpentSizeIn(month))
  {
    SumFilter(ts, SpentIn(month), TxnAmount, SpentAmountIn(month));
    SumNegated(ts, SpentAmountIn(month), SpentSizeIn(month));
    SumNonNegative(ts, SpentSizeIn(month));
  }

  /** getCostStructure: every subscription price, whatever its currency, and
      the rest of the month's spending, clamped at 0. month is the current
      "YYYY-MM". */
  function CostStructure(subs: seq<Subscription>, ts: seq<Transaction>, month: string): (r: CostSplit)
    ensures r.subscriptions == Sum(subs, SubscriptionsPage.Price)
    ensures r.variable >= 0.0
    ensures r.subscriptions + r.variable >= MonthlyExpenses(ts, month)
    ensures MonthlyExpenses(ts, month) >= r.subscriptions ==> r.subscriptions + r.variable == MonthlyExpenses(ts, month)
    ensures MonthlyExpenses(ts, month) <= r.subscriptions ==> r.variable == 0.0
  {
    var totalSubs := Sum(subs, SubscriptionsPage.Price);
    var monthly := MonthlyExpenses(ts, month);
    CostSplit(totalSubs, if monthly - totalSubs > 0.0 then monthly - totalSubs else 0.0)
  }

  /** The subscriptions share adds peso and dollar prices together: it is
      the sum of the two totals the subscriptions page shows side by side. */
  lemma {:induction false} SubscriptionShareMixesCurrencies(subs: seq<Subscription>, ts: seq<Transaction>, month: string)
    requires forall s :: s in subs ==> s.currency == ARS || s.currency == USD
    ensures CostStructure(subs, ts, month).subscriptions
            == SubscriptionsPage.TotalIn(subs, ARS) + SubscriptionsPage.TotalIn(subs, USD)
  {
    SubscriptionsPage.TotalsCoverAll(subs);
  }
}
