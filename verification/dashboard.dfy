/** The dashboard's statistics (src/components/Dashboard.jsx): a time window
    over the expenses, then the total, the count, the average, the sums by
    category and the top category. */
module Dashboard {
  import opened Options
  import opened Seqs
  import opened Expenses
  import opened CategoryTotals
  import ExpenseChart

  /** The window the dashboard opens with. */
  const DefaultWindow: string := "month"

  /** Whether an expense falls in the dashboard's time window. `"month"` and
      `"year"` compare calendar fields for equality with those of now; any
      value other than the three named windows keeps everything. */
  predicate InWindow(window: string, clock: Clock, e: Expense) {
    if window == "week" then e.date >= clock.now - WeekMs
    else if window == "month" then
      clock.monthOf(e.date) == clock.monthOf(clock.now) && clock.yearOf(e.date) == clock.yearOf(clock.now)
    else if window == "year" then clock.yearOf(e.date) == clock.yearOf(clock.now)
    else true
  }

  /** `getFilteredExpenses`: the expenses inside the window, in list order. */
  function WindowExpenses(s: seq<Expense>, window: string, clock: Clock): (r: seq<Expense>)
    ensures forall e :: multiset(r)[e] == if InWindow(window, clock, e) then multiset(s)[e] else 0
    ensures window != "week" && window != "month" && window != "year" ==> r == s
  {
    var r := Filter(e => InWindow(window, clock, e), s);
    if window != "week" && window != "month" && window != "year" then
      FilterKeepsAll(e => InWindow(window, clock, e), s);
      r
    else r
  }

  /** `averageExpense`: the mean amount, and 0 for no expenses (never a
      division by zero). */
  function Average(total: real, count: nat): (r: real)
    ensures count > 0 ==> r == total / (count as real)
    ensures count == 0 ==> r == 0.0
  {
    if count > 0 then total / (count as real) else 0.0
  }

  /** The sum of amounts that all lie in `[lo, hi]` lies in `[n * lo, n * hi]`. */
  lemma {:induction false} SumBetween(s: seq<Expense>, lo: real, hi: real)
    requires forall k :: 0 <= k < |s| ==> lo <= s[k].amount <= hi
    ensures (|s| as real) * lo <= Sum(s) <= (|s| as real) * hi
  {
    if |s| > 0 {
      SumBetween(s[..|s| - 1], lo, hi);
    }
  }

  /** Dividing by a positive count keeps a quotient between the bounds. */
  lemma DivisionBetween(t: real, n: real, lo: real, hi: real)
    requires n > 0.0
    requires n * lo <= t <= n * hi
    ensures lo <= t / n <= hi
  {
    assert (t / n) * n == t;
  }

  /** The average lies between the smallest and the largest amount. */
  lemma AverageWithinBounds(s: seq<Expense>, lo: real, hi: real)
    requires |s| > 0
    requires forall k :: 0 <= k < |s| ==> lo <= s[k].amount <= hi
    ensures lo <= Average(Sum(s), |s|) <= hi
  {
    SumBetween(s, lo, hi);
    DivisionBetween(Sum(s), |s| as real, lo, hi);
  }

  /** `topCategory[c]`: the summed amount of `c`, or `undefined`. */
  function Lookup(g: seq<Entry>, c: string): (r: Option<real>)
    ensures r.Some? <==> HasName(g, c)
  {
    match IndexOf(g, c)
    case Some(i) => Some(g[i].value)
    case None => None
  }

  /** JavaScript's `a > b` where `undefined` compares false with anything. */
  predicate Greater(a: Option<real>, b: Option<real>) {
    a.Some? && b.Some? && a.value > b.value
  }

  /** `Object.keys(topCategory).reduce((a, b) => topCategory[a] > topCategory[b] ? a : b, '')`
      over the first `n` keys: the accumulator survives only when strictly
      greater. */
  function TopFold(g: seq<Entry>, n: nat): string
    requires n <= |g|
  {
    if n == 0 then ""
    else
      var a := TopFold(g, n - 1);
      var b := g[n - 1].name;
      if Greater(Lookup(g, a), Lookup(g, b)) then a else b
  }

  /** Position `k` holds a largest value among the first `n` entries, and
      every later entry among them is strictly smaller. */
  predicate IsTopAt(g: seq<Entry>, n: nat, k: nat)
    requires n <= |g|
  {
    && k < n
    && (forall j :: 0 <= j < n ==> g[j].value <= g[k].value)
    && (forall j :: k < j < n ==> g[j].value < g[k].value)
  }

  /** With distinct names and no empty name, looking up an entry's own name
      gives that entry's value. */
  lemma LookupOwnName(g: seq<Entry>, k: nat)
    requires DistinctNames(g) && k < |g|
    ensures Lookup(g, g[k].name) == Some(g[k].value)
  {
  }

  /** The first key always beats the empty initial accumulator. */
  lemma TopFoldFirstKey(g: seq<Entry>)
    requires 0 < |g|
    requires forall i :: 0 <= i < |g| ==> g[i].name != ""
    ensures TopFold(g, 1) == g[0].name
  {
    assert !HasName(g, "");
    assert Lookup(g, TopFold(g, 0)).None?;
  }

  /** One more key replaces the accumulator unless the accumulator is
      strictly greater. */
  lemma TopFoldNextKey(g: seq<Entry>, n: nat, k: nat)
    requires DistinctNames(g)
    requires 0 < n < |g|
    requires IsTopAt(g, n, k) && TopFold(g, n) == g[k].name
    ensures g[k].value > g[n].value ==> IsTopAt(g, n + 1, k) && TopFold(g, n + 1) == g[k].name
    ensures g[k].value <= g[n].value ==> IsTopAt(g, n + 1, n) && TopFold(g, n + 1) == g[n].name
  {
    LookupOwnName(g, n);
    LookupOwnName(g, k);
  }

  /** The fold picks the last key holding the maximum. */
  lemma {:induction false} TopFoldIsLastMaximum(g: seq<Entry>, n: nat)
    requires DistinctNames(g)
    requires forall i :: 0 <= i < |g| ==> g[i].name != ""
    requires 0 < n <= |g|
    ensures exists k: nat :: IsTopAt(g, n, k) && TopFold(g, n) == g[k].name
  {
    if n == 1 {
      TopFoldFirstKey(g);
      assert IsTopAt(g, 1, 0);
    } else {
      TopFoldIsLastMaximum(g, n - 1);
      var k: nat :| IsTopAt(g, n - 1, k) && TopFold(g, n - 1) == g[k].name;
      TopFoldNextKey(g, n - 1, k);
    }
  }

  /** `topCategoryName` for a list of (already windowed) expenses. */
  function TopCategoryName(s: seq<Expense>): string {
    var g := Group(s);
    TopFold(g, |g|)
  }

  /** An expense list in which every category name is non-empty, as every
      name in the category table is. */
  predicate NamedCategories(s: seq<Expense>) {
    forall k :: 0 <= k < |s| ==> s[k].category != ""
  }

  /** The summary of such a list has no entry with an empty name. */
  lemma SummaryNamesNonEmpty(g: seq<Entry>, s: seq<Expense>)
    requires NamedCategories(s)
    requires CoversExactly(g, s)
    ensures forall i :: 0 <= i < |g| ==> g[i].name != ""
  {
    forall i | 0 <= i < |g|
      ensures g[i].name != ""
    {
      assert HasName(g, g[i].name);
      var m :| 0 <= m < |s| && s[m].category == g[i].name;
    }
  }

  /** The top category is empty exactly when there are no expenses; otherwise
      it is a category that occurs, its sum is at least every other category's
      sum, and any other category with the same sum occurs first (the later
      key wins a tie). */
  lemma TopCategoryIsLastMaximum(s: seq<Expense>)
    requires NamedCategories(s)
    ensures TopCategoryName(s) == "" <==> |s| == 0
    ensures |s| > 0 ==> Occurs(s, TopCategoryName(s))
    ensures forall c :: Occurs(s, c) ==> CategorySum(s, c) <= CategorySum(s, TopCategoryName(s))
    ensures forall c :: Occurs(s, c) && c != TopCategoryName(s) && CategorySum(s, c) == CategorySum(s, TopCategoryName(s))
                        ==> FirstOccursBefore(s, c, TopCategoryName(s))
  {
    var g := Group(s);
    GroupSummarizes(s);
    if |s| > 0 {
      SummaryNamesNonEmpty(g, s);
      TopFoldIsLastMaximum(g, |g|);
      var k: nat :| IsTopAt(g, |g|, k) && TopFold(g, |g|) == g[k].name;
      TopEntryIsLastMaximum(g, s, k);
    }
  }

  /** The entry at the fold's position, read back in terms of the expenses. */
  lemma TopEntryIsLastMaximum(g: seq<Entry>, s: seq<Expense>, k: nat)
    requires Summarizes(g, s)
    requires k < |g| && IsTopAt(g, |g|, k)
    ensures Occurs(s, g[k].name)
    ensures forall c :: Occurs(s, c) ==> CategorySum(s, c) <= CategorySum(s, g[k].name)
    ensures forall c :: Occurs(s, c) && c != g[k].name && CategorySum(s, c) == CategorySum(s, g[k].name)
                        ==> FirstOccursBefore(s, c, g[k].name)
  {
    var top := g[k].name;
    assert HasName(g, top);
    forall c | Occurs(s, c)
      ensures CategorySum(s, c) <= CategorySum(s, top)
      ensures c != top && CategorySum(s, c) == CategorySum(s, top) ==> FirstOccursBefore(s, c, top)
    {
      assert HasName(g, c);
      var j :| 0 <= j < |g| && g[j].name == c;
      assert g[j].value <= g[k].value;
      if c != top && CategorySum(s, c) == CategorySum(s, top) {
        assert j < k;
      }
    }
  }

  /** The "Top Category" card: the name, or "None" when there is none. */
  function TopCategoryLabel(name: string): (shown: string)
    ensures name != "" ==> shown == name
    ensures name == "" ==> shown == "None"
  {
    if name == "" then "None" else name
  }

  /** The "Top Category" card reads "None" exactly when the window holds no
      expense, provided no expense is filed under a name that is itself
      "None" or empty. */
  lemma TopCardShowsNone(s: seq<Expense>, window: string, clock: Clock)
    requires NamedCategories(s)
    requires forall k :: 0 <= k < |s| ==> s[k].category != "None"
    ensures TopCategoryLabel(Summarize(s, window, clock).topCategoryName) == "None"
            <==> |WindowExpenses(s, window, clock)| == 0
  {
    var f := WindowExpenses(s, window, clock);
    var top := Summarize(s, window, clock).topCategoryName;
    SummarizeTopCategory(s, window, clock);
    if |f| > 0 {
      var k :| 0 <= k < |f| && f[k].category == top;
      assert f[k] in multiset(f);
    }
  }

  /** Everything the dashboard's cards show. */
  datatype Stats = Stats(
    total: real,
    count: nat,
    average: real,
    byCategory: seq<Entry>,
    topCategoryName: string)

  /** The dashboard statistics for one window: the count and the total of
      the windowed expenses, and their mean (0 when there are none). */
  function Summarize(s: seq<Expense>, window: string, clock: Clock): (r: Stats)
    ensures r.count == |WindowExpenses(s, window, clock)|
    ensures r.total == Sum(WindowExpenses(s, window, clock))
    ensures r.count > 0 ==> r.average == r.total / (r.count as real)
    ensures r.count == 0 ==> r.average == 0.0
  {
    var f := WindowExpenses(s, window, clock);
    var total := Sum(f);
    Stats(total, |f|, Average(total, |f|), Group(f), TopCategoryName(f))
  }

  /** The per-category map of the statistics summarizes the windowed
      expenses: its keys are exactly the categories present, each value is
      that category's sum, and the values add up to the total. */
  lemma SummarizeByCategory(s: seq<Expense>, window: string, clock: Clock)
    ensures Summarizes(Summarize(s, window, clock).byCategory, WindowExpenses(s, window, clock))
    ensures Total(Summarize(s, window, clock).byCategory) == Summarize(s, window, clock).total
  {
    GroupSummarizes(WindowExpenses(s, window, clock));
  }

  /** The top category of the statistics, read against the windowed
      expenses: "" exactly when the window is empty, otherwise a present
      category with the largest sum, the later one winning a tie. */
  lemma SummarizeTopCategory(s: seq<Expense>, window: string, clock: Clock)
    requires NamedCategories(s)
    ensures var f := WindowExpenses(s, window, clock);
            var top := Summarize(s, window, clock).topCategoryName;
            && (top == "" <==> |f| == 0)
            && (|f| > 0 ==> Occurs(f, top))
            && (forall c :: Occurs(f, c) ==> CategorySum(f, c) <= CategorySum(f, top))
            && (forall c :: Occurs(f, c) && c != top && CategorySum(f, c) == CategorySum(f, top) ==>
                  FirstOccursBefore(f, c, top))
  {
    var f := WindowExpenses(s, window, clock);
    forall k | 0 <= k < |f|
      ensures f[k].category != ""
    {
      assert f[k] in multiset(f);
    }
    TopCategoryIsLastMaximum(f);
  }

  /** For a window that keeps everything, the dashboard and the chart agree:
      the per-category sums are the chart's entries, and the total spent is
      the chart's total. */
  lemma UnwindowedMatchesChart(s: seq<Expense>, window: string, clock: Clock)
    requires window != "week" && window != "month" && window != "year"
    ensures Summarize(s, window, clock).byCategory == ExpenseChart.CategoryData(s)
    ensures Summarize(s, window, clock).total == ExpenseChart.ChartTotal(s)
  {
  }
}
