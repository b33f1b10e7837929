/** The expense store of src/hooks/useExpenses.js as pure state transitions:
    the expense list and the dark-mode flag, what they start as, and how adding,
    deleting and toggling change them. Persisting to local storage and the
    document class list are effects outside the model. */
module Store {
  import opened Options
  import opened Seqs
  import opened Expenses

  datatype State = State(expenses: seq<Expense>, darkMode: bool)

  /** What the add form hands over. Its own `date` is not kept. */
  datatype Draft = Draft(amount: real, description: string, category: string, date: int)

  /** The state the hook starts from, given what storage held (already
      decoded): nothing stored means no expenses and light mode. */
  function Initial(storedExpenses: Option<seq<Expense>>, storedDarkMode: Option<bool>): (st: State)
    ensures storedExpenses.None? ==> st.expenses == []
    ensures storedExpenses.Some? ==> st.expenses == storedExpenses.value
    ensures storedDarkMode.None? ==> !st.darkMode
    ensures storedDarkMode.Some? ==> st.darkMode == storedDarkMode.value
  {
    State(
      match storedExpenses case Some(v) => v case None => [],
      match storedDarkMode case Some(b) => b case None => false)
  }

  /** `addExpense`: the draft becomes a new expense at the head of the list,
      with `id` taken from one clock reading (`idNow`, `Date.now()`) and `date`
      from another (`dateNow`, `new Date()`); the old expenses follow,
      unchanged and in order. */
  function Add(st: State, d: Draft, idNow: int, dateNow: int): (r: State)
    ensures |r.expenses| == |st.expenses| + 1
    ensures r.expenses[1..] == st.expenses
    ensures r.expenses[0].id == idNow && r.expenses[0].date == dateNow
    ensures r.expenses[0].amount == d.amount
    ensures r.expenses[0].description == d.description
    ensures r.expenses[0].category == d.category
    ensures r.darkMode == st.darkMode
  {
    var e := Expense(idNow, d.amount, d.description, d.category, dateNow);
    st.(expenses := [e] + st.expenses)
  }

  /** The date the form supplies makes no difference to the new state. */
  lemma AddDiscardsDraftDate(st: State, d: Draft, date: int, idNow: int, dateNow: int)
    ensures Add(st, d, idNow, dateNow) == Add(st, d.(date := date), idNow, dateNow)
  {
  }

  /** `deleteExpense`: every expense carrying `id` is dropped; the others
      stay, each as often as before, and nothing else changes. */
  function Delete(st: State, id: int): (r: State)
    ensures forall e :: e in r.expenses <==> e in st.expenses && e.id != id
    ensures forall e: Expense :: e.id != id ==> multiset(r.expenses)[e] == multiset(st.expenses)[e]
    ensures |r.expenses| <= |st.expenses|
    ensures r.darkMode == st.darkMode
  {
    st.(expenses := Filter((e: Expense) => e.id != id, st.expenses))
  }

  /** Deleting keeps the survivors in their order: the result is the input
      with the matching expenses cut out. */
  lemma DeleteKeepsOrder(st: State, id: int, e: Expense)
    ensures Delete(st.(expenses := [e] + st.expenses), id).expenses ==
            (if e.id == id then [] else [e]) + Delete(st, id).expenses
  {
    FilterCons((x: Expense) => x.id != id, e, st.expenses);
  }

  /** Deleting an id that no expense carries changes nothing. */
  lemma DeleteAbsentIsNoOp(st: State, id: int)
    requires forall k :: 0 <= k < |st.expenses| ==> st.expenses[k].id != id
    ensures Delete(st, id) == st
  {
    FilterKeepsAll((e: Expense) => e.id != id, st.expenses);
  }

  /** Deleting twice is deleting once. */
  lemma DeleteIdempotent(st: State, id: int)
    ensures Delete(Delete(st, id), id) == Delete(st, id)
  {
    FilterIdempotent((e: Expense) => e.id != id, st.expenses);
  }

  /** Adding with an id no expense has yet and then deleting that id gives
      back the state before the add. */
  lemma AddThenDeleteRestores(st: State, d: Draft, idNow: int, dateNow: int)
    requires forall k :: 0 <= k < |st.expenses| ==> st.expenses[k].id != idNow
    ensures Delete(Add(st, d, idNow, dateNow), idNow) == st
  {
    var e := Expense(idNow, d.amount, d.description, d.category, dateNow);
    FilterCons((x: Expense) => x.id != idNow, e, st.expenses);
    DeleteAbsentIsNoOp(st, idNow);
  }

  /** No two expenses share an id. */
  predicate UniqueIds(s: seq<Expense>) {
    forall i, j :: 0 <= i < j < |s| ==> s[i].id != s[j].id
  }

  /** Adding keeps ids unique only when the clock reading is fresh. */
  lemma AddFreshIdKeepsUnique(st: State, d: Draft, idNow: int, dateNow: int)
    requires UniqueIds(st.expenses)
    requires forall k :: 0 <= k < |st.expenses| ==> st.expenses[k].id != idNow
    ensures UniqueIds(Add(st, d, idNow, dateNow).expenses)
  {
    var r := Add(st, d, idNow, dateNow).expenses;
    forall i, j | 0 <= i < j < |r|
      ensures r[i].id != r[j].id
    {
      assert r[j] == st.expenses[j - 1];
      if i > 0 {
        assert r[i] == st.expenses[i - 1];
      }
    }
  }

  /** `Date.now()` is no source of unique ids: two adds within the same
      millisecond give two expenses with the same id, and deleting that id
      then removes both. */
  lemma SameMillisecondAddsShareId(d: Draft)
    ensures var st := Add(Add(State([], false), d, 5, 5), d, 5, 5);
            && !UniqueIds(st.expenses)
            && Delete(st, 5).expenses == []
  {
    var st := Add(Add(State([], false), d, 5, 5), d, 5, 5);
    assert st.expenses[0].id == st.expenses[1].id;
  }

  /** A list with a head is unique exactly when its tail is and no tail
      expense shares the head's id. */
  lemma UniqueIdsCons(x: Expense, t: seq<Expense>)
    ensures UniqueIds([x] + t) <==> UniqueIds(t) && forall k :: 0 <= k < |t| ==> t[k].id != x.id
  {
    var s := [x] + t;
    if UniqueIds(s) {
      forall i, j | 0 <= i < j < |t|
        ensures t[i].id != t[j].id
      {
        assert t[i] == s[i + 1] && t[j] == s[j + 1];
      }
      forall k | 0 <= k < |t|
        ensures t[k].id != x.id
      {
        assert s[0] == x && t[k] == s[k + 1];
      }
    }
  }

  /** Filtering never breaks uniqueness. */
  lemma {:induction false} FilterKeepsUnique(p: Expense -> bool, s: seq<Expense>)
    requires UniqueIds(s)
    ensures UniqueIds(Filter(p, s))
  {
    if |s| > 0 {
      var t := s[1..];
      assert s == [s[0]] + t;
      UniqueIdsCons(s[0], t);
      FilterKeepsUnique(p, t);
      FilterCons(p, s[0], t);
      var r := Filter(p, t);
      if p(s[0]) {
        forall k | 0 <= k < |r|
          ensures r[k].id != s[0].id
        {
          assert r[k] in t;
        }
        UniqueIdsCons(s[0], r);
      }
    }
  }

  /** Deleting never breaks uniqueness. */
  lemma DeleteKeepsUnique(st: State, id: int)
    requires UniqueIds(st.expenses)
    ensures UniqueIds(Delete(st, id).expenses)
  {
    FilterKeepsUnique((e: Expense) => e.id != id, st.expenses);
  }

  /** `toggleDarkMode`: the flag flips and the expenses stay. */
  function ToggleDarkMode(st: State): (r: State)
    ensures r.darkMode == !st.darkMode
    ensures r.expenses == st.expenses
  {
    st.(darkMode := !st.darkMode)
  }

  /** Two toggles restore the state. */
  lemma ToggleTwiceRestores(st: State)
    ensures ToggleDarkMode(ToggleDarkMode(st)) == st
  {
  }
}
