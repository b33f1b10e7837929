/** The sort step of the expense list (src/components/ExpenseList.jsx): the
    sort key chosen by `sortBy`, the comparator, and a sort whose result is a
    permutation of its input that the comparator accepts pair by pair. The
    comparator never answers 0, so which of two equal-keyed expenses comes
    first is not specified. */
module ListSort {
  import opened Text
  import opened Expenses

  datatype SortKey = ByDate | ByAmount | ByDescription | ByCategory

  /** The `switch (sortBy)`: `"amount"`, `"description"` and `"category"`
      choose their field; every other value, `"date"` included, sorts by date. */
  function KeyFromName(sortBy: string): (k: SortKey)
    ensures k == ByAmount <==> sortBy == "amount"
    ensures k == ByDescription <==> sortBy == "description"
    ensures k == ByCategory <==> sortBy == "category"
    ensures k == ByDate <==> sortBy != "amount" && sortBy != "description" && sortBy != "category"
  {
    if sortBy == "amount" then ByAmount
    else if sortBy == "description" then ByDescription
    else if sortBy == "category" then ByCategory
    else ByDate
  }

  /** The value compared: a number (a date is compared as its timestamp) or a
      lower-cased string. */
  datatype SortValue = Num(n: real) | Str(s: string)

  function KeyValue(k: SortKey, e: Expense): SortValue {
    match k
    case ByDate => Num(e.date as real)
    case ByAmount => Num(e.amount)
    case ByDescription => Str(Lower(e.description))
    case ByCategory => Str(Lower(e.category))
  }

  /** JavaScript's `a < b` on the values: numeric order, or the character
      order of strings. Values of one key are always of one kind; a number is
      put before a string only to make the order total. */
  predicate Less(a: SortValue, b: SortValue) {
    match (a, b)
    case (Num(x), Num(y)) => x < y
    case (Str(x), Str(y)) => LexLe(x, y) && x != y
    case (Num(_), Str(_)) => true
    case (Str(_), Num(_)) => false
  }

  /** The comparator: ascending answers 1 when `a > b`, descending answers 1
      when `a < b`, and otherwise both answer -1, ties included. */
  function Compare(ascending: bool, a: SortValue, b: SortValue): (r: int)
    ensures r == 1 || r == -1
    ensures ascending ==> (r == 1 <==> Less(b, a))
    ensures !ascending ==> (r == 1 <==> Less(a, b))
  {
    if ascending then (if Less(b, a) then 1 else -1)
    else (if Less(a, b) then 1 else -1)
  }

  /** On equal keys the comparator answers -1 both ways round, so it is not a
      consistent comparison and the order of ties is left to the engine. */
  lemma CompareInconsistentOnTies(ascending: bool, v: SortValue)
    ensures Compare(ascending, v, v) == -1
  {
  }

  /** `a` may stand before `b`: the comparator does not ask to swap them. */
  predicate InOrder(k: SortKey, ascending: bool, a: Expense, b: Expense) {
    Compare(ascending, KeyValue(k, a), KeyValue(k, b)) < 0
  }

  predicate Sorted(k: SortKey, ascending: bool, s: seq<Expense>) {
    forall i, j :: 0 <= i < j < |s| ==> InOrder(k, ascending, s[i], s[j])
  }

  /** Ascending order means non-decreasing keys, descending non-increasing. */
  lemma InOrderMeaning(k: SortKey, ascending: bool, a: Expense, b: Expense)
    ensures ascending ==> (InOrder(k, ascending, a, b) <==> !Less(KeyValue(k, b), KeyValue(k, a)))
    ensures !ascending ==> (InOrder(k, ascending, a, b) <==> !Less(KeyValue(k, a), KeyValue(k, b)))
  {
  }

  lemma LessAsymmetric(a: SortValue, b: SortValue)
    ensures !(Less(a, b) && Less(b, a))
  {
    if a.Str? && b.Str? && Less(a, b) && Less(b, a) {
      LexLeAntisymmetric(a.s, b.s);
    }
  }

  /** "Not less" is transitive: the keys form a total preorder. */
  lemma NotLessTransitive(a: SortValue, b: SortValue, c: SortValue)
    requires !Less(b, a) && !Less(c, b)
    ensures !Less(c, a)
  {
    if a.Str? && b.Str? && c.Str? {
      LexLeTotal(a.s, b.s);
      LexLeTotal(b.s, c.s);
      if a.s != b.s && b.s != c.s {
        LexLeTransitive(a.s, b.s, c.s);
        if Less(c, a) {
          LexLeAntisymmetric(a.s, c.s);
        }
      }
    }
  }

  lemma InOrderTotal(k: SortKey, ascending: bool, a: Expense, b: Expense)
    ensures InOrder(k, ascending, a, b) || InOrder(k, ascending, b, a)
  {
    LessAsymmetric(KeyValue(k, a), KeyValue(k, b));
  }

  lemma InOrderTransitive(k: SortKey, ascending: bool, a: Expense, b: Expense, c: Expense)
    requires InOrder(k, ascending, a, b) && InOrder(k, ascending, b, c)
    ensures InOrder(k, ascending, a, c)
  {
    if ascending {
      NotLessTransitive(KeyValue(k, a), KeyValue(k, b), KeyValue(k, c));
    } else {
      NotLessTransitive(KeyValue(k, c), KeyValue(k, b), KeyValue(k, a));
    }
  }

  /** Inserting into a sorted list keeps it sorted and adds exactly `x`. */
  function Insert(k: SortKey, ascending: bool, x: Expense, s: seq<Expense>): (r: seq<Expense>)
    requires Sorted(k, ascending, s)
    ensures Sorted(k, ascending, r)
    ensures multiset(r) == multiset(s) + multiset{x}
  {
    if |s| == 0 then [x]
    else if InOrder(k, ascending, x, s[0]) then
      InsertBefore(k, ascending, x, s);
      [x] + s
    else
      var rest := Insert(k, ascending, x, s[1..]);
      InOrderTotal(k, ascending, x, s[0]);
      InsertAfterHead(k, ascending, x, s, rest);
      assert s == [s[0]] + s[1..];
      [s[0]] + rest
  }

  lemma InsertBefore(k: SortKey, ascending: bool, x: Expense, s: seq<Expense>)
    requires Sorted(k, ascending, s)
    requires |s| > 0 && InOrder(k, ascending, x, s[0])
    ensures Sorted(k, ascending, [x] + s)
  {
    var r := [x] + s;
    forall i, j | 0 <= i < j < |r|
      ensures InOrder(k, ascending, r[i], r[j])
    {
      if i == 0 && j > 1 {
        InOrderTransitive(k, ascending, x, s[0], s[j - 1]);
      }
    }
  }

  lemma InsertAfterHead(k: SortKey, ascending: bool, x: Expense, s: seq<Expense>, rest: seq<Expense>)
    requires Sorted(k, ascending, s) && |s| > 0
    requires InOrder(k, ascending, s[0], x)
    requires Sorted(k, ascending, rest)
    requires multiset(rest) == multiset(s[1..]) + multiset{x}
    ensures Sorted(k, ascending, [s[0]] + rest)
  {
    var r := [s[0]] + rest;
    forall i, j | 0 <= i < j < |r|
      ensures InOrder(k, ascending, r[i], r[j])
    {
      if i == 0 {
        var y := rest[j - 1];
        assert y in multiset(rest);
        if y != x {
          assert y in multiset(s[1..]);
          var m :| 0 <= m < |s[1..]| && s[1..][m] == y;
          assert s[m + 1] == y;
        }
      }
    }
  }

  /** `filtered.sort(comparator)`: a reordering of the input that the
      comparator accepts between every earlier and later element. */
  function SortExpenses(k: SortKey, ascending: bool, s: seq<Expense>): (r: seq<Expense>)
    ensures Sorted(k, ascending, r)
    ensures multiset(r) == multiset(s)
    ensures |r| == |s|
  {
    if |s| == 0 then []
    else
      assert s == [s[0]] + s[1..];
      Insert(k, ascending, s[0], SortExpenses(k, ascending, s[1..]))
  }
}
