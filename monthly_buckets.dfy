/** The month-by-month income/expense series shared by the history chart
    (client/src/components/FinancialCharts.jsx, processData) and the
    analytics page (client/src/pages/Analytics.jsx, getMonthlyEvolution):
    each fills a dictionary of buckets keyed by a month text in one pass
    over the transactions, then sorts the buckets by key and keeps the last
    six. The two differ only in how a transaction's key is formed. */
module MonthlyBuckets {
  import opened Common
  import opened Records

  /** One month of the bar chart: its key, its income and its spending. */
  datatype Bucket = Bucket(name: string, ingresos: real, gastos: real)

  /** How many buckets the series keeps. */
  const Window: nat := 6

  // ---------------------------------------------------------------------
  // The reference definition of one bucket

  /** What a transaction adds to income: a positive amount. */
  function Inflow(t: Transaction): real { if t.amount > 0.0 then t.amount else 0.0 }

  /** What it adds to expense: the size of a zero or negative amount. */
  function Outflow(t: Transaction): real { if t.amount > 0.0 then 0.0 else Abs(t.amount) }

  function InflowAt(keyOf: Transaction -> string, k: string): Transaction -> real
  {
    (t: Transaction) => if keyOf(t) == k then Inflow(t) else 0.0
  }

  function OutflowAt(keyOf: Transaction -> string, k: string): Transaction -> real
  {
    (t: Transaction) => if keyOf(t) == k then Outflow(t) else 0.0
  }

  function SizeAt(keyOf: Transaction -> string, k: string): Transaction -> real
  {
    (t: Transaction) => if keyOf(t) == k then Abs(t.amount) else 0.0
  }

  /** The bucket of key k: the income and the expense of the transactions
      whose key is k. */
  function BucketOf(ts: seq<Transaction>, keyOf: Transaction -> string, k: string): Bucket
  {
    Bucket(k, Sum(ts, InflowAt(keyOf, k)), Sum(ts, OutflowAt(keyOf, k)))
  }

  /** The keys that occur. */
  function Keys(ts: seq<Transaction>, keyOf: Transaction -> string): set<string>
  {
    set t | t in ts :: keyOf(t)
  }

  /** Every transaction lands in exactly one of the two columns of its own
      bucket: income plus expense is the sum of the sizes of its amounts. */
  lemma {:induction false} BucketCoversAmounts(ts: seq<Transaction>, keyOf: Transaction -> string, k: string)
    ensures BucketOf(ts, keyOf, k).ingresos + BucketOf(ts, keyOf, k).gastos == Sum(ts, SizeAt(keyOf, k))
    ensures BucketOf(ts, keyOf, k).ingresos >= 0.0 && BucketOf(ts, keyOf, k).gastos >= 0.0
  {
    SumSplit(ts, InflowAt(keyOf, k), OutflowAt(keyOf, k), SizeAt(keyOf, k));
    SumNonNegative(ts, InflowAt(keyOf, k));
    SumNonNegative(ts, OutflowAt(keyOf, k));
  }

  lemma {:induction false} BucketStep(ts: seq<Transaction>, i: nat, keyOf: Transaction -> string, k: string)
    requires i < |ts|
    ensures var before, after := BucketOf(ts[..i], keyOf, k), BucketOf(ts[..i + 1], keyOf, k);
      && after.ingresos == before.ingresos + InflowAt(keyOf, k)(ts[i])
      && after.gastos == before.gastos + OutflowAt(keyOf, k)(ts[i])
  {
    assert ts[..i + 1][..i] == ts[..i];
  }

  lemma {:induction false} KeysStep(ts: seq<Transaction>, i: nat, keyOf: Transaction -> string)
    requires i < |ts|
    ensures Keys(ts[..i + 1], keyOf) == Keys(ts[..i], keyOf) + {keyOf(ts[i])}
  {
    assert ts[..i + 1] == ts[..i] + [ts[i]];
  }

  /** A key that occurs nowhere has an empty bucket. */
  lemma {:induction false} AbsentKeyEmpty(ts: seq<Transaction>, keyOf: Transaction -> string, k: string)
    requires k !in Keys(ts, keyOf)
    ensures BucketOf(ts, keyOf, k) == Bucket(k, 0.0, 0.0)
    decreases |ts|
  {
    if |ts| > 0 {
      var init := ts[..|ts| - 1];
      assert Keys(init, keyOf) <= Keys(ts, keyOf);
      AbsentKeyEmpty(init, keyOf, k);
    }
  }

  // ---------------------------------------------------------------------
  // The dictionary pass

  predicate Distinct(names: seq<string>)
  {
    forall i, j :: 0 <= i < j < |names| ==> names[i] != names[j]
  }

  /** The loop that fills the month dictionary: returns it and its keys in
      insertion order (the order its values are later listed in). */
  method Group(ts: seq<Transaction>, keyOf: Transaction -> string) returns (months: map<string, Bucket>, names: seq<string>)
    ensures months.Keys == Keys(ts, keyOf)
    ensures forall k :: k in months ==> months[k] == BucketOf(ts, keyOf, k)
    ensures Distinct(names) && (forall k :: k in names <==> k in months)
  {
    months := map[];
    names := [];
    var i := 0;
    while i < |ts|
      invariant 0 <= i <= |ts|
      invariant months.Keys == Keys(ts[..i], keyOf)
      invariant forall k :: k in months ==> months[k] == BucketOf(ts[..i], keyOf, k)
      invariant Distinct(names) && (forall k :: k in names <==> k in months)
    {
      var t := ts[i];
      var key := keyOf(t);
      if key !in months {
        AbsentKeyEmpty(ts[..i], keyOf, key);
        months := months[key := Bucket(key, 0.0, 0.0)];
        names := names + [key];
      }
      var b := months[key];
      if t.amount > 0.0 {
        b := b.(ingresos := b.ingresos + t.amount);
      } else {
        b := b.(gastos := b.gastos + Abs(t.amount));
      }
      months := months[key := b];
      forall k | k in months ensures months[k] == BucketOf(ts[..i + 1], keyOf, k) {
        BucketStep(ts, i, keyOf, k);
      }
      KeysStep(ts, i, keyOf);
      i := i + 1;
    }
    assert ts[..i] == ts;
  }

  /** The buckets of the dictionary in the order of names. */
  function ValuesOf(months: map<string, Bucket>, names: seq<string>): (r: seq<Bucket>)
    requires forall k :: k in names ==> k in months
    ensures |r| == |names| && forall i :: 0 <= i < |r| ==> r[i] == months[names[i]]
    decreases |names|
  {
    if |names| == 0 then [] else ValuesOf(months, names[..|names| - 1]) + [months[names[|names| - 1]]]
  }

  // ---------------------------------------------------------------------
  // Ordering buckets by name

  function NameOf(b: Bucket): string { b.name }

  /** Strictly ascending names. */
  predicate Ascending(bs: seq<Bucket>)
  {
    forall i, j :: 0 <= i < j < |bs| ==> LexLt(bs[i].name, bs[j].name)
  }

  /** Inserts b at its place in an ascending sequence that lacks its name. */
  function Insert(b: Bucket, sorted: seq<Bucket>): (r: seq<Bucket>)
    requires Ascending(sorted)
    requires forall x :: x in sorted ==> x.name != b.name
    ensures multiset(r) == multiset(sorted) + multiset{b}
    ensures Ascending(r)
    decreases |sorted|
  {
    if |sorted| == 0 then [b]
    else if LexLt(b.name, sorted[0].name) then
      BelowHeadBelowAll(b.name, sorted);
      AscendingCons(b, sorted);
      [b] + sorted
    else
      var head, rest := sorted[0], sorted[1..];
      assert sorted == [head] + rest;
      var tail := Insert(b, rest);
      LexLtConnected(b.name, head.name);
      HeadBelowInserted(head, rest, b, tail);
      AscendingCons(head, tail);
      [head] + tail
  }

  lemma AscendingCons(head: Bucket, tail: seq<Bucket>)
    requires Ascending(tail)
    requires forall x :: x in tail ==> LexLt(head.name, x.name)
    ensures Ascending([head] + tail)
  {
    var r := [head] + tail;
    forall i, j | 0 <= i < j < |r| ensures LexLt(r[i].name, r[j].name) {
      assert r[j] == tail[j - 1];
      if i > 0 {
        assert r[i] == tail[i - 1];
      }
    }
  }

  lemma BelowHeadBelowAll(n: string, sorted: seq<Bucket>)
    requires Ascending(sorted) && |sorted| > 0 && LexLt(n, sorted[0].name)
    ensures forall x :: x in sorted ==> LexLt(n, x.name)
  {
    forall x | x in sorted ensures LexLt(n, x.name) {
      var j :| 0 <= j < |sorted| && sorted[j] == x;
      if j > 0 { LexLtTransitive(n, sorted[0].name, sorted[j].name); }
    }
  }

  lemma HeadBelowInserted(head: Bucket, rest: seq<Bucket>, b: Bucket, tail: seq<Bucket>)
    requires Ascending([head] + rest) && LexLt(head.name, b.name)
    requires multiset(tail) == multiset(rest) + multiset{b}
    ensures forall x :: x in tail ==> LexLt(head.name, x.name)
  {
    var s := [head] + rest;
    forall x | x in tail ensures LexLt(head.name, x.name) {
      assert x in multiset(tail);
      if x != b {
        assert x in multiset(rest);
        var j :| 0 <= j < |rest| && rest[j] == x;
        assert s[j + 1] == x && s[0] == head;
      }
    }
  }

  /** The buckets sorted by name; the names are distinct keys. */
  function SortByName(bs: seq<Bucket>): (r: seq<Bucket>)
    requires Distinct(Names(bs))
    ensures multiset(r) == multiset(bs)
    ensures Ascending(r)
    decreases |bs|
  {
    if |bs| == 0 then []
    else
      var init, last := bs[..|bs| - 1], bs[|bs| - 1];
      assert bs == init + [last];
      assert Names(init) == Names(bs)[..|bs| - 1];
      var sorted := SortByName(init);
      forall x | x in sorted ensures x.name != last.name {
        assert x in multiset(init);
        var j :| 0 <= j < |init| && init[j] == x;
        assert Names(bs)[j] == x.name && Names(bs)[|bs| - 1] == last.name;
      }
      Insert(last, sorted)
  }

  function Names(bs: seq<Bucket>): (r: seq<string>)
    ensures |r| == |bs| && forall i :: 0 <= i < |bs| ==> r[i] == bs[i].name
    decreases |bs|
  {
    if |bs| == 0 then [] else Names(bs[..|bs| - 1]) + [bs[|bs| - 1].name]
  }

  /** The last n elements, or all of them when there are fewer. */
  function LastN<T>(s: seq<T>, n: nat): (r: seq<T>)
    ensures |r| == Min(n, |s|)
    ensures r == s[|s| - |r|..]
  {
    if |s| <= n then s else s[|s| - n..]
  }

  // ---------------------------------------------------------------------
  // The series

  /** What processData / getMonthlyEvolution return: the buckets of the
      latest six keys in ascending key order, each holding exactly its
      transactions' income and expense; every key left out sorts before
      every key kept. */
  ghost predicate IsSeries(ts: seq<Transaction>, keyOf: Transaction -> string, r: seq<Bucket>)
  {
    && |r| == Min(Window, |Keys(ts, keyOf)|)
    && Ascending(r)
    && (forall b :: b in r ==> b.name in Keys(ts, keyOf) && b == BucketOf(ts, keyOf, b.name))
    && (forall k :: k in Keys(ts, keyOf) && (forall b :: b in r ==> b.name != k) ==>
          forall b :: b in r ==> LexLt(k, b.name))
  }

  /** Every key's bucket, once each, in ascending key order. */
  ghost predicate AllBuckets(ts: seq<Transaction>, keyOf: Transaction -> string, sorted: seq<Bucket>)
  {
    && Ascending(sorted)
    && |sorted| == |Keys(ts, keyOf)|
    && (forall b :: b in sorted ==> b.name in Keys(ts, keyOf) && b == BucketOf(ts, keyOf, b.name))
    && (forall k :: k in Keys(ts, keyOf) ==> exists j :: 0 <= j < |sorted| && sorted[j].name == k)
  }

  /** The dictionary pass, the sort and the slice. */
  method Series(ts: seq<Transaction>, keyOf: Transaction -> string) returns (r: seq<Bucket>)
    ensures IsSeries(ts, keyOf, r)
  {
    var months, names := Group(ts, keyOf);
    var values := ValuesOf(months, names);
    NamesOfValues(months, names, values);
    var sorted := SortByName(values);
    SortedBuckets(ts, keyOf, months, names, values, sorted);
    r := LastN(sorted, Window);
    LatestOfAll(ts, keyOf, sorted);
  }

  /** The last six of all the buckets form the series. */
  lemma {:induction false} LatestOfAll(ts: seq<Transaction>, keyOf: Transaction -> string, sorted: seq<Bucket>)
    requires AllBuckets(ts, keyOf, sorted)
    ensures IsSeries(ts, keyOf, LastN(sorted, Window))
  {
    var r := LastN(sorted, Window);
    LatestKept(sorted, Window);
    forall k | k in Keys(ts, keyOf) && (forall b :: b in r ==> b.name != k)
      ensures forall b :: b in r ==> LexLt(k, b.name)
    {
      var j :| 0 <= j < |sorted| && sorted[j].name == k;
      assert j < |sorted| - |r|;
    }
  }

  lemma NamesOfValues(months: map<string, Bucket>, names: seq<string>, values: seq<Bucket>)
    requires forall k :: k in months ==> months[k].name == k
    requires forall k :: k in names ==> k in months
    requires |values| == |names| && forall i :: 0 <= i < |values| ==> values[i] == months[names[i]]
    ensures Names(values) == names
  {
  }

  /** The sorted dictionary values are exactly the buckets of all keys. */
  lemma SortedBuckets(ts: seq<Transaction>, keyOf: Transaction -> string, months: map<string, Bucket>,
                      names: seq<string>, values: seq<Bucket>, sorted: seq<Bucket>)
    requires months.Keys == Keys(ts, keyOf)
    requires forall k :: k in months ==> months[k] == BucketOf(ts, keyOf, k)
    requires Distinct(names) && (forall k :: k in names <==> k in months)
    requires |values| == |names| && forall i :: 0 <= i < |values| ==> values[i] == months[names[i]]
    requires multiset(sorted) == multiset(values) && Ascending(sorted)
    ensures AllBuckets(ts, keyOf, sorted)
  {
    assert |sorted| == |names| by {
      assert |multiset(sorted)| == |multiset(values)|;
    }
    DistinctCard(names);
    assert (set k | k in names) == months.Keys;
    forall b | b in sorted ensures b.name in Keys(ts, keyOf) && b == BucketOf(ts, keyOf, b.name) {
      assert b in multiset(values);
      var i :| 0 <= i < |values| && values[i] == b;
      assert months[names[i]] == BucketOf(ts, keyOf, names[i]);
    }
    forall k | k in Keys(ts, keyOf) ensures exists j :: 0 <= j < |sorted| && sorted[j].name == k {
      var i :| 0 <= i < |names| && names[i] == k;
      assert values[i] in multiset(sorted);
      var j :| 0 <= j < |sorted| && sorted[j] == values[i];
      assert values[i].name == k;
    }
  }

  /** What taking the last n of an ascending sequence keeps: its last elements,
      each sorting after every element dropped. */
  lemma LatestKept(sorted: seq<Bucket>, n: nat)
    requires Ascending(sorted)
    ensures var r := LastN(sorted, n);
      && Ascending(r)
      && (forall j :: |sorted| - |r| <= j < |sorted| ==> sorted[j] in r)
      && (forall b :: b in r ==> b in sorted)
      && (forall j, b :: 0 <= j < |sorted| - |r| && b in r ==> LexLt(sorted[j].name, b.name))
  {
    var r := LastN(sorted, n);
    var cut := |sorted| - |r|;
    assert r == sorted[cut..];
    forall i, j | 0 <= i < j < |r| ensures LexLt(r[i].name, r[j].name) {
      assert r[i] == sorted[cut + i] && r[j] == sorted[cut + j];
    }
    forall j | cut <= j < |sorted| ensures sorted[j] in r {
      assert r[j - cut] == sorted[j];
    }
    forall b | b in r ensures b in sorted && forall j :: 0 <= j < cut ==> LexLt(sorted[j].name, b.name) {
      var m :| 0 <= m < |r| && r[m] == b;
      assert sorted[cut + m] == b;
    }
  }

  /** A sequence of distinct keys has as many elements as its set. */
  lemma {:induction false} DistinctCard(names: seq<string>)
    requires Distinct(names)
    ensures |set k | k in names| == |names|
    decreases |names|
  {
    if |names| > 0 {
      var init := names[..|names| - 1];
      var last := names[|names| - 1];
      DistinctCard(init);
      assert (set k | k in names) == (set k | k in init) + {last};
      assert last !in (set k | k in init);
    }
  }

  // ---------------------------------------------------------------------
  // The two month keys

  /** processData: the first seven characters of the date. A missing date
      files under the seven-character text "Sin fec". */
  function HistoryKey(t: Transaction): (k: string)
    ensures t.date == "" ==> k == "Sin fec"
    ensures t.date != "" ==> k == Prefix(t.date, 7)
  {
    Prefix(if t.date == "" then "Sin fecha" else t.date, 7)
  }

  /** getMonthlyEvolution: the first seven characters of the date, or the
      text "Sin Fecha" for a missing date. */
  function EvolutionKey(t: Transaction): (k: string)
    ensures t.date == "" ==> k == "Sin Fecha"
    ensures t.date != "" ==> k == Prefix(t.date, 7) && |k| <= 7
  {
    if t.date == "" then "Sin Fecha" else Prefix(t.date, 7)
  }

  /** The history chart's data. */
  method HistoryData(ts: seq<Transaction>) returns (r: seq<Bucket>)
    ensures IsSeries(ts, HistoryKey, r)
  {
    r := Series(ts, HistoryKey);
  }

  /** The analytics page's monthly evolution. */
  method MonthlyEvolution(ts: seq<Transaction>) returns (r: seq<Bucket>)
    ensures IsSeries(ts, EvolutionKey, r)
  {
    r := Series(ts, EvolutionKey);
  }
}
