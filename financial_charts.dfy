/** The spending pie of client/src/components/FinancialCharts.jsx
    (CategoryChart): one slice per category holding the size of that
    category's expenses, categories without expenses left out. The history
    bar chart's data is MonthlyBuckets.HistoryData. */
module FinancialCharts {
  import opened Common
  import opened Records

  /** One slice of the pie: the category's name and what it spent. */
  datatype Slice = Slice(name: string, value: real)

  function SpendIn(categoryId: int): Transaction -> bool
  {
    (t: Transaction) => t.categoryId == categoryId && t.amount < 0.0
  }

  function AbsAmount(t: Transaction): real { Abs(t.amount) }

  function SpendAt(categoryId: int): Transaction -> real
  {
    (t: Transaction) => if t.categoryId == categoryId && t.amount < 0.0 then -t.amount else 0.0
  }

  /** What a category has spent: the sizes of its negative entries added up. */
  function CategorySpend(ts: seq<Transaction>, categoryId: int): real
  {
    Sum(Filter(ts, SpendIn(categoryId)), AbsAmount)
  }

  /** A category's value is the size of its negative entries and nothing
      else; it is positive exactly when the category has an expense. */
  lemma {:induction false} SpendIsExpenses(ts: seq<Transaction>, categoryId: int)
    ensures CategorySpend(ts, categoryId) == Sum(ts, SpendAt(categoryId))
    ensures CategorySpend(ts, categoryId) >= 0.0
    ensures CategorySpend(ts, categoryId) > 0.0 <==>
              exists t :: t in ts && t.categoryId == categoryId && t.amount < 0.0
  {
    SumFilter(ts, SpendIn(categoryId), AbsAmount, SpendAt(categoryId));
    SumNonNegative(ts, SpendAt(categoryId));
    SumPositive(ts, SpendAt(categoryId));
  }

  /** One category's slice. */
  function CategorySlice(ts: seq<Transaction>, c: Category): Slice
  {
    Slice(c.name, CategorySpend(ts, c.id))
  }

  /** One slice per category, in category order. */
  function AllSlices(ts: seq<Transaction>, categories: seq<Category>): (r: seq<Slice>)
    ensures |r| == |categories|
    ensures forall i :: 0 <= i < |r| ==> r[i] == CategorySlice(ts, categories[i])
    decreases |categories|
  {
    if |categories| == 0 then []
    else
      var init, c := categories[..|categories| - 1], categories[|categories| - 1];
      AllSlices(ts, init) + [CategorySlice(ts, c)]
  }

  function HasValue(s: Slice): bool { s.value > 0.0 }

  /** The pie's data: the slices with a positive value, in category order. */
  function CategoryChart(ts: seq<Transaction>, categories: seq<Category>): (r: seq<Slice>)
    ensures |r| <= |categories|
    ensures forall s :: s in r <==> s in AllSlices(ts, categories) && s.value > 0.0
    ensures forall s :: multiset(r)[s] == if s.value > 0.0 then multiset(AllSlices(ts, categories))[s] else 0
    ensures Subsequence(r, AllSlices(ts, categories))
  {
    FilterKeepsOrder(AllSlices(ts, categories), HasValue);
    Filter(AllSlices(ts, categories), HasValue)
  }

  /** A category gets a slice exactly when it has an expense. */
  lemma {:induction false} SliceIffExpense(ts: seq<Transaction>, categories: seq<Category>, i: nat)
    requires i < |categories|
    ensures CategorySlice(ts, categories[i]) in CategoryChart(ts, categories)
            <==> exists t :: t in ts && t.categoryId == categories[i].id && t.amount < 0.0
  {
    var slice := CategorySlice(ts, categories[i]);
    assert AllSlices(ts, categories)[i] == slice;
    assert slice in CategoryChart(ts, categories) <==> slice.value > 0.0;
    SpendIsExpenses(ts, categories[i].id);
  }

}
