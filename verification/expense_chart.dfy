/** The data behind the category chart (src/components/ExpenseChart.jsx): the
    `categoryData` entries and their grand total. Drawing is not modelled. */
module ExpenseChart {
  import opened Expenses
  import opened CategoryTotals

  /** `categoryData`: one `{ name, value }` entry per category occurring in
      `s`, names pairwise distinct, in order of first occurrence, each value
      the sum of that category's amounts. The reduce builds fresh entries and
      never writes to the expenses themselves. */
  function CategoryData(s: seq<Expense>): (r: seq<Entry>)
    ensures DistinctNames(r)
    ensures forall c :: HasName(r, c) <==> Occurs(s, c)
    ensures forall i :: 0 <= i < |r| ==> r[i].value == CategorySum(s, r[i].name)
    ensures forall i, j :: 0 <= i < j < |r| ==> FirstOccursBefore(s, r[i].name, r[j].name)
    ensures |r| <= |s|
    ensures |r| == 0 <==> |s| == 0
  {
    GroupSummarizes(s);
    Group(s)
  }

  /** `totalAmount`: the entry values added up, which is also the sum of every
      expense amount. */
  function ChartTotal(s: seq<Expense>): (t: real)
    ensures t == Total(CategoryData(s))
    ensures t == Sum(s)
  {
    GroupSummarizes(s);
    Total(CategoryData(s))
  }

  /** The chart falls back to its empty-state card exactly when there are no
      expenses. */
  predicate ShowsEmptyState(s: seq<Expense>): (b: bool)
    ensures b <==> |s| == 0
  {
    |CategoryData(s)| == 0
  }

  /** The order of the entries is fixed by first occurrence alone: an entry
      listed before another names a category that appears in `s` strictly
      earlier. */
  lemma {:induction false} EntriesFollowFirstOccurrence(s: seq<Expense>, i: nat, j: nat, k: nat)
    requires i < j < |CategoryData(s)|
    requires k < |s| && s[k].category == CategoryData(s)[j].name
    ensures exists m :: 0 <= m < k && s[m].category == CategoryData(s)[i].name
  {
    var r := CategoryData(s);
    assert FirstOccursBefore(s, r[i].name, r[j].name);
    assert Occurs(s[..k], r[i].name);
    var m :| 0 <= m < k && s[..k][m].category == r[i].name;
    assert s[m] == s[..k][m];
  }
}
