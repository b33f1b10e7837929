/** Per-category totals in first-occurrence order: the chart's `categoryData`
    reduce (src/components/ExpenseChart.jsx), one entry per category present,
    in the order the categories first occur, holding the sum of that
    category's amounts. The dashboard's `topCategory` object
    (src/components/Dashboard.jsx) is modelled by the same summary; it
    agrees with it for every category name that is not a property every
    JavaScript object inherits. */
module CategoryTotals {
  import opened Options
  import opened Expenses

  /** `{ name, value }`: a category and its summed amount. */
  datatype Entry = Entry(name: string, value: real)

  /** `acc.find(item => item.name === c)`, as the position of the first entry
      named `c`. */
  function IndexOf(g: seq<Entry>, c: string): (r: Option<nat>)
    ensures r.Some? ==> r.value < |g| && g[r.value].name == c
    ensures r.Some? ==> forall j :: 0 <= j < r.value ==> g[j].name != c
    ensures r.None? ==> forall j :: 0 <= j < |g| ==> g[j].name != c
  {
    if |g| == 0 then None
    else if g[0].name == c then Some(0)
    else
      match IndexOf(g[1..], c)
      case Some(i) => Some(i + 1)
      case None => None
  }

  /** Some entry of `g` is named `c`. */
  predicate HasName(g: seq<Entry>, c: string) {
    exists i :: 0 <= i < |g| && g[i].name == c
  }

  predicate DistinctNames(g: seq<Entry>) {
    forall i, j :: 0 <= i < j < |g| ==> g[i].name != g[j].name
  }

  /** One step of the reduce: add the amount to the category's entry, or
      append a fresh entry when the category has none yet. */
  function AddExpense(g: seq<Entry>, e: Expense): (r: seq<Entry>)
    ensures |g| <= |r| <= |g| + 1
  {
    match IndexOf(g, e.category)
    case Some(i) => g[i := Entry(g[i].name, g[i].value + e.amount)]
    case None => g + [Entry(e.category, e.amount)]
  }

  /** The reduce over the whole list, starting from no entries. */
  function Group(s: seq<Expense>): (g: seq<Entry>)
    ensures |g| <= |s|
    ensures |g| == 0 <==> |s| == 0
  {
    if |s| == 0 then [] else AddExpense(Group(s[..|s| - 1]), s[|s| - 1])
  }

  /** `reduce((sum, item) => sum + item.value, 0)` over the entries. */
  function Total(g: seq<Entry>): real {
    if |g| == 0 then 0.0 else Total(g[..|g| - 1]) + g[|g| - 1].value
  }

  /** Every occurrence of `later` in `s` is preceded by an occurrence of
      `earlier`: `earlier` occurs first. */
  ghost predicate FirstOccursBefore(s: seq<Expense>, earlier: string, later: string) {
    forall k :: 0 <= k < |s| && s[k].category == later ==> Occurs(s[..k], earlier)
  }

  /** The entries name exactly the categories present in `s`. */
  ghost predicate CoversExactly(g: seq<Entry>, s: seq<Expense>) {
    forall c :: HasName(g, c) <==> Occurs(s, c)
  }

  /** Each entry holds the sum of its category's amounts. */
  ghost predicate ValuesAreSums(g: seq<Entry>, s: seq<Expense>) {
    forall i :: 0 <= i < |g| ==> g[i].value == CategorySum(s, g[i].name)
  }

  /** The entries follow the order in which the categories first occur. */
  ghost predicate InFirstOccurrenceOrder(g: seq<Entry>, s: seq<Expense>) {
    forall i, j :: 0 <= i < j < |g| ==> FirstOccursBefore(s, g[i].name, g[j].name)
  }

  /** `g` is the category summary of `s`: one entry per category present and
      none other, distinct names, each value the category's sum, entries in
      first-occurrence order, and the entry values adding up to the total. */
  ghost predicate Summarizes(g: seq<Entry>, s: seq<Expense>) {
    && DistinctNames(g)
    && CoversExactly(g, s)
    && ValuesAreSums(g, s)
    && InFirstOccurrenceOrder(g, s)
    && Total(g) == Sum(s)
  }

  lemma TotalAppend(g: seq<Entry>, x: Entry)
    ensures Total(g + [x]) == Total(g) + x.value
  {
    assert (g + [x])[..|g|] == g;
  }

  /** Raising one entry's value raises the total by the same amount. */
  lemma {:induction false} TotalUpdate(g: seq<Entry>, i: nat, a: real)
    requires i < |g|
    ensures Total(g[i := Entry(g[i].name, g[i].value + a)]) == Total(g) + a
  {
    var g' := g[i := Entry(g[i].name, g[i].value + a)];
    var n := |g| - 1;
    assert g'[..n] == if i == n then g[..n] else g[..n][i := Entry(g[i].name, g[i].value + a)];
    if i < n {
      TotalUpdate(g[..n], i, a);
    }
  }

  /** The occurrence order of the old expenses is unaffected by appending. */
  lemma FirstOccursBeforeAppend(s: seq<Expense>, e: Expense, a: string, b: string)
    requires FirstOccursBefore(s, a, b)
    requires Occurs(s, a)
    ensures FirstOccursBefore(s + [e], a, b)
  {
    var t := s + [e];
    forall k | 0 <= k < |t| && t[k].category == b
      ensures Occurs(t[..k], a)
    {
      if k < |s| {
        assert t[..k] == s[..k];
        assert s[k] == t[k];
      } else {
        assert t[..k] == s;
      }
    }
  }

  /** The step that adds to an existing entry keeps the summary. */
  lemma AddExistingSummarizes(g: seq<Entry>, s: seq<Expense>, e: Expense, i: nat)
    requires Summarizes(g, s)
    requires IndexOf(g, e.category) == Some(i)
    ensures Summarizes(AddExpense(g, e), s + [e])
  {
    var g' := g[i := Entry(g[i].name, g[i].value + e.amount)];
    assert AddExpense(g, e) == g';
    SumAppend(s, e);
    TotalUpdate(g, i, e.amount);
    AddExistingValues(g, s, e, i);
    AddExistingCovers(g, s, e, i);
    AddExistingOrder(g, s, e, i);
  }

  lemma AddExistingValues(g: seq<Entry>, s: seq<Expense>, e: Expense, i: nat)
    requires DistinctNames(g) && ValuesAreSums(g, s)
    requires i < |g| && g[i].name == e.category
    ensures DistinctNames(g[i := Entry(g[i].name, g[i].value + e.amount)])
    ensures ValuesAreSums(g[i := Entry(g[i].name, g[i].value + e.amount)], s + [e])
  {
    SumAppend(s, e);
  }

  lemma AddExistingCovers(g: seq<Entry>, s: seq<Expense>, e: Expense, i: nat)
    requires CoversExactly(g, s)
    requires i < |g| && g[i].name == e.category
    ensures CoversExactly(g[i := Entry(g[i].name, g[i].value + e.amount)], s + [e])
  {
    var g' := g[i := Entry(g[i].name, g[i].value + e.amount)];
    SumAppend(s, e);
    assert HasName(g, e.category);
    forall c
      ensures HasName(g', c) <==> Occurs(s + [e], c)
    {
      if HasName(g', c) {
        var j :| 0 <= j < |g'| && g'[j].name == c;
        assert g[j].name == c;
      }
      if HasName(g, c) {
        var j :| 0 <= j < |g| && g[j].name == c;
        assert g'[j].name == c;
      }
    }
  }

  lemma AddExistingOrder(g: seq<Entry>, s: seq<Expense>, e: Expense, i: nat)
    requires CoversExactly(g, s) && InFirstOccurrenceOrder(g, s)
    requires i < |g|
    ensures InFirstOccurrenceOrder(g[i := Entry(g[i].name, g[i].value + e.amount)], s + [e])
  {
    var g' := g[i := Entry(g[i].name, g[i].value + e.amount)];
    forall a, b | 0 <= a < b < |g'|
      ensures FirstOccursBefore(s + [e], g'[a].name, g'[b].name)
    {
      assert HasName(g, g[a].name);
      FirstOccursBeforeAppend(s, e, g[a].name, g[b].name);
    }
  }

  /** The step that appends a fresh entry keeps the summary. */
  lemma AddFreshSummarizes(g: seq<Entry>, s: seq<Expense>, e: Expense)
    requires Summarizes(g, s)
    requires IndexOf(g, e.category).None?
    ensures Summarizes(AddExpense(g, e), s + [e])
  {
    var x := Entry(e.category, e.amount);
    assert AddExpense(g, e) == g + [x];
    assert !Occurs(s, e.category);
    SumAppend(s, e);
    TotalAppend(g, x);
    AddFreshValues(g, s, e);
    AddFreshCovers(g, s, e);
    AddFreshOrder(g, s, e);
  }

  lemma AddFreshValues(g: seq<Entry>, s: seq<Expense>, e: Expense)
    requires DistinctNames(g) && ValuesAreSums(g, s)
    requires forall j :: 0 <= j < |g| ==> g[j].name != e.category
    requires !Occurs(s, e.category)
    ensures DistinctNames(g + [Entry(e.category, e.amount)])
    ensures ValuesAreSums(g + [Entry(e.category, e.amount)], s + [e])
  {
    SumAppend(s, e);
    CategorySumAbsent(s, e.category);
  }

  lemma AddFreshCovers(g: seq<Entry>, s: seq<Expense>, e: Expense)
    requires CoversExactly(g, s)
    ensures CoversExactly(g + [Entry(e.category, e.amount)], s + [e])
  {
    var g' := g + [Entry(e.category, e.amount)];
    SumAppend(s, e);
    forall c
      ensures HasName(g', c) <==> Occurs(s + [e], c)
    {
      if HasName(g', c) {
        var j :| 0 <= j < |g'| && g'[j].name == c;
        if j < |g| {
          assert g[j].name == c;
        }
      }
      if HasName(g, c) {
        var j :| 0 <= j < |g| && g[j].name == c;
        assert g'[j].name == c;
      }
      if c == e.category {
        assert g'[|g|].name == c;
      }
    }
  }

  lemma AddFreshOrder(g: seq<Entry>, s: seq<Expense>, e: Expense)
    requires CoversExactly(g, s) && InFirstOccurrenceOrder(g, s)
    requires !Occurs(s, e.category)
    ensures InFirstOccurrenceOrder(g + [Entry(e.category, e.amount)], s + [e])
  {
    var g' := g + [Entry(e.category, e.amount)];
    var t := s + [e];
    forall a, b | 0 <= a < b < |g'|
      ensures FirstOccursBefore(t, g'[a].name, g'[b].name)
    {
      assert g'[a] == g[a];
      assert HasName(g, g[a].name);
      if b < |g| {
        assert g'[b] == g[b];
        FirstOccursBeforeAppend(s, e, g[a].name, g[b].name);
      } else {
        forall k | 0 <= k < |t| && t[k].category == e.category
          ensures Occurs(t[..k], g[a].name)
        {
          assert k == |s|;
          assert t[..k] == s;
        }
      }
    }
  }

  /** The reduce computes the category summary of its input. */
  lemma {:induction false} GroupSummarizes(s: seq<Expense>)
    ensures Summarizes(Group(s), s)
  {
    if |s| == 0 {
      assert forall c :: !Occurs(s, c);
    } else {
      var p := s[..|s| - 1];
      var e := s[|s| - 1];
      assert s == p + [e];
      GroupSummarizes(p);
      match IndexOf(Group(p), e.category)
      case Some(i) => AddExistingSummarizes(Group(p), p, e, i);
      case None => AddFreshSummarizes(Group(p), p, e);
    }
  }
}
