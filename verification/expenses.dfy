/** The one persisted entity, an expense, and the sums over lists of expenses
    that the dashboard and the chart report. */
module Expenses {

  /** One recorded expense. `date` is the instant as a millisecond timestamp
      (the source stores its ISO-8601 text); `category` is the stored name,
      normally one of the names in `Categories`. */
  datatype Expense = Expense(
    id: int,
    amount: real,
    description: string,
    category: string,
    date: int)

  /** Milliseconds in a day and in the trailing week `7 * 24 * 60 * 60 * 1000`. */
  const DayMs: int := 24 * 60 * 60 * 1000
  const WeekMs: int := 7 * DayMs

  /** The moment a view is computed, with the local-calendar facts the views
      derive from it: the starts of the current day, month and year, and the
      local calendar year and month of any instant. */
  datatype Clock = Clock(
    now: int,
    startOfDay: int,
    startOfMonth: int,
    startOfYear: int,
    yearOf: int -> int,
    monthOf: int -> int)

  /** `reduce((sum, e) => sum + e.amount, 0)`: the amounts added left to right. */
  function Sum(s: seq<Expense>): real
  {
    if |s| == 0 then 0.0 else Sum(s[..|s| - 1]) + s[|s| - 1].amount
  }

  /** The amounts of the expenses filed under `c`, added left to right. */
  function CategorySum(s: seq<Expense>, c: string): real
  {
    if |s| == 0 then 0.0
    else CategorySum(s[..|s| - 1], c) + (if s[|s| - 1].category == c then s[|s| - 1].amount else 0.0)
  }

  /** Some expense of `s` is filed under `c`. */
  predicate Occurs(s: seq<Expense>, c: string) {
    exists k :: 0 <= k < |s| && s[k].category == c
  }

  /** Appending one expense adds its amount to the sum. */
  lemma SumAppend(s: seq<Expense>, e: Expense)
    ensures Sum(s + [e]) == Sum(s) + e.amount
    ensures forall c :: CategorySum(s + [e], c) == CategorySum(s, c) + (if e.category == c then e.amount else 0.0)
    ensures forall c :: Occurs(s + [e], c) <==> Occurs(s, c) || e.category == c
  {
    assert (s + [e])[..|s|] == s;
    forall c | Occurs(s, c)
      ensures Occurs(s + [e], c)
    {
      var k :| 0 <= k < |s| && s[k].category == c;
      assert (s + [e])[k] == s[k];
    }
    forall c | Occurs(s + [e], c) && e.category != c
      ensures Occurs(s, c)
    {
      var k :| 0 <= k < |s + [e]| && (s + [e])[k].category == c;
      assert k < |s|;
      assert s[k] == (s + [e])[k];
    }
  }

  /** A category that never occurs contributes nothing. */
  lemma {:induction false} CategorySumAbsent(s: seq<Expense>, c: string)
    requires !Occurs(s, c)
    ensures CategorySum(s, c) == 0.0
  {
    if |s| > 0 {
      var p := s[..|s| - 1];
      assert s == p + [s[|s| - 1]];
      SumAppend(p, s[|s| - 1]);
      CategorySumAbsent(p, c);
    }
  }

  /** When every amount is non-negative, so is their sum. */
  lemma {:induction false} SumNonNegative(s: seq<Expense>)
    requires forall k :: 0 <= k < |s| ==> s[k].amount >= 0.0
    ensures Sum(s) >= 0.0
  {
    if |s| > 0 {
      SumNonNegative(s[..|s| - 1]);
    }
  }
}
