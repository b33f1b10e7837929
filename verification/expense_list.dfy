/** The list view's query (src/components/ExpenseList.jsx): four filter
    stages applied in a fixed order (category, search, date range, amount
    range) and then the sort; plus the filter state, its reset and the
    "filters active" indicator. */
module ExpenseList {
  import opened Options
  import opened Seqs
  import opened Text
  import opened Expenses
  import opened ListSort
  import Categories

  /** The amount bounds as entered; `None` is an empty field. */
  datatype AmountRange = AmountRange(min: Option<real>, max: Option<real>)

  /** The list's own filter state. Custom dates are the parsed instants of
      the date fields, `None` for an empty field. The selected category is not
      part of it: it comes from the page. */
  datatype ListFilters = ListFilters(
    searchTerm: string,
    sortBy: string,
    sortOrder: string,
    dateRange: string,
    customStart: Option<int>,
    customEnd: Option<int>,
    amountRange: AmountRange)

  /** The state the list opens with. */
  const InitialFilters: ListFilters :=
    ListFilters("", "date", "desc", "all", None, None, AmountRange(None, None))

  /** `hasActiveFilters`: a search term, a date range or an amount bound is
      set. Sorting and the category are not filters in this sense. */
  predicate HasActiveFilters(f: ListFilters) {
    f.searchTerm != "" || f.dateRange != "all" || f.amountRange.min.Some? || f.amountRange.max.Some?
  }

  /** The badge on the filter button: how many of the three kinds of filter
      (search, date, amount) are set. */
  function ActiveFilterCount(f: ListFilters): (n: nat)
    ensures n <= 3
    ensures n > 0 <==> HasActiveFilters(f)
  {
    (if f.searchTerm != "" then 1 else 0)
    + (if f.dateRange != "all" then 1 else 0)
    + (if f.amountRange.min.Some? || f.amountRange.max.Some? then 1 else 0)
  }

  /** `clearAllFilters`: search, sort, date range, custom dates and amount
      bounds go back to their initial values, whatever they were. */
  function ClearAllFilters(f: ListFilters): (r: ListFilters)
    ensures r == InitialFilters
    ensures !HasActiveFilters(r)
    ensures r.sortBy == "date" && r.sortOrder == "desc"
  {
    InitialFilters
  }

  /** Whether filters are active does not depend on the sort settings. */
  lemma ActiveIgnoresSort(f: ListFilters, sortBy: string, sortOrder: string)
    ensures HasActiveFilters(f.(sortBy := sortBy, sortOrder := sortOrder)) == HasActiveFilters(f)
  {
  }

  /** The category test: the sentinel passes everything. */
  predicate CategoryPass(selected: string, e: Expense) {
    selected == Categories.AllSentinel || e.category == selected
  }

  /** Category stage: with the `'All'` sentinel everything stays; otherwise
      exactly the expenses filed under the selected name. */
  function KeepCategory(selected: string, s: seq<Expense>): (r: seq<Expense>)
    ensures forall e :: multiset(r)[e] == if CategoryPass(selected, e) then multiset(s)[e] else 0
    ensures selected == Categories.AllSentinel ==> r == s
    ensures forall e :: e in r ==> CategoryPass(selected, e)
  {
    if selected != Categories.AllSentinel then Filter((e: Expense) => e.category == selected, s) else s
  }

  /** Search stage predicate: an empty term accepts everything; otherwise the
      lower-cased term occurs in the lower-cased description or category. */
  predicate SearchPass(term: string, e: Expense) {
    term == "" || Contains(Lower(e.description), Lower(term)) || Contains(Lower(e.category), Lower(term))
  }

  function KeepSearched(term: string, s: seq<Expense>): (r: seq<Expense>)
    ensures forall e :: multiset(r)[e] == if SearchPass(term, e) then multiset(s)[e] else 0
    ensures term == "" ==> r == s
  {
    if term != "" then
      Filter((e: Expense) => Contains(Lower(e.description), Lower(term)) || Contains(Lower(e.category), Lower(term)), s)
    else s
  }

  /** The search ignores letter case in the term. */
  lemma SearchIgnoresCase(term: string, e: Expense)
    requires term != ""
    ensures SearchPass(term, e) == SearchPass(Lower(term), e)
  {
    LowerIdempotent(term);
  }

  /** `startDate` of the date stage: the start of today, of the trailing
      week, of this month or of this year, the custom start when one is
      given, and no bound otherwise. */
  function StartBound(f: ListFilters, clock: Clock): (r: Option<int>)
    ensures f.dateRange == "today" ==> r == Some(clock.startOfDay)
    ensures f.dateRange == "week" ==> r == Some(clock.now - 604800000)
    ensures f.dateRange == "month" ==> r == Some(clock.startOfMonth)
    ensures f.dateRange == "year" ==> r == Some(clock.startOfYear)
    ensures f.dateRange == "custom" ==> r == f.customStart
    ensures r.Some? ==> f.dateRange in {"today", "week", "month", "year", "custom"}
  {
    if f.dateRange == "today" then Some(clock.startOfDay)
    else if f.dateRange == "week" then Some(clock.now - WeekMs)
    else if f.dateRange == "month" then Some(clock.startOfMonth)
    else if f.dateRange == "year" then Some(clock.startOfYear)
    else if f.dateRange == "custom" then f.customStart
    else None
  }

  /** The test applied to one expense once a start bound exists: inclusive
      of both ends for a custom range with an end, from the start on
      otherwise. The end is the instant its day-only field parses to, the
      first millisecond of that day, so of the end day only that instant
      qualifies. */
  predicate WithinDates(f: ListFilters, start: int, e: Expense) {
    if f.dateRange == "custom" && f.customEnd.Some? then start <= e.date <= f.customEnd.value
    else start <= e.date
  }

  predicate DatePass(f: ListFilters, clock: Clock, e: Expense) {
    f.dateRange == "all" || StartBound(f, clock).None? || WithinDates(f, StartBound(f, clock).value, e)
  }

  /** The date stage: keeps exactly the expenses that pass the date test. */
  function KeepDates(f: ListFilters, clock: Clock, s: seq<Expense>): (r: seq<Expense>)
    ensures forall e :: multiset(r)[e] == if DatePass(f, clock, e) then multiset(s)[e] else 0
  {
    if f.dateRange != "all" then
      match StartBound(f, clock)
      case Some(start) => Filter((e: Expense) => WithinDates(f, start, e), s)
      case None => s
    else s
  }

  /** The date test with the custom end day taken whole: everything before
      the start of the following day qualifies. */
  predicate WithinDatesWholeEndDay(f: ListFilters, start: int, e: Expense) {
    if f.dateRange == "custom" && f.customEnd.Some? then start <= e.date < f.customEnd.value + DayMs
    else start <= e.date
  }

  predicate DatePassWholeEndDay(f: ListFilters, clock: Clock, e: Expense) {
    f.dateRange == "all" || StartBound(f, clock).None? || WithinDatesWholeEndDay(f, StartBound(f, clock).value, e)
  }

  /** The date stage with the whole end day kept. */
  function KeepDatesWholeEndDay(f: ListFilters, clock: Clock, s: seq<Expense>): (r: seq<Expense>)
    ensures forall e :: multiset(r)[e] == if DatePassWholeEndDay(f, clock, e) then multiset(s)[e] else 0
  {
    if f.dateRange != "all" then
      match StartBound(f, clock)
      case Some(start) => Filter((e: Expense) => WithinDatesWholeEndDay(f, start, e), s)
      case None => s
    else s
  }

  /** An expense recorded one hour into the chosen end day falls outside a
      custom range ending that day; with the whole end day taken it is
      inside. */
  lemma EndDayExcludedAsWritten(f: ListFilters, clock: Clock, e: Expense)
    requires f.dateRange == "custom" && f.customStart == Some(0) && f.customEnd == Some(0)
    requires e.date == 3600000
    ensures !DatePass(f, clock, e)
    ensures DatePassWholeEndDay(f, clock, e)
  {
  }

  /** The amount test: `min` defaults to 0 and `max` to +infinity. */
  predicate WithinAmounts(a: AmountRange, e: Expense) {
    var lo := match a.min case Some(m) => m case None => 0.0;
    lo <= e.amount && (a.max.None? || e.amount <= a.max.value)
  }

  predicate AmountPass(a: AmountRange, e: Expense) {
    (a.min.None? && a.max.None?) || WithinAmounts(a, e)
  }

  function KeepAmounts(a: AmountRange, s: seq<Expense>): (r: seq<Expense>)
    ensures forall e :: multiset(r)[e] == if AmountPass(a, e) then multiset(s)[e] else 0
  {
    if a.min.Some? || a.max.Some? then Filter((e: Expense) => WithinAmounts(a, e), s) else s
  }

  /** An expense passes every stage. */
  predicate Passes(selected: string, f: ListFilters, clock: Clock, e: Expense) {
    CategoryPass(selected, e) && SearchPass(f.searchTerm, e) && DatePass(f, clock, e) && AmountPass(f.amountRange, e)
  }

  /** The four filter stages in the source's order. */
  function Filtered(s: seq<Expense>, selected: string, f: ListFilters, clock: Clock): (r: seq<Expense>)
    ensures forall e :: multiset(r)[e] == if Passes(selected, f, clock, e) then multiset(s)[e] else 0
  {
    KeepAmounts(f.amountRange, KeepDates(f, clock, KeepSearched(f.searchTerm, KeepCategory(selected, s))))
  }

  /** `filteredAndSortedExpenses`: exactly the expenses that pass every stage,
      each as often as in the input, ordered as the comparator for `sortBy`
      and `sortOrder` demands. */
  function Visible(s: seq<Expense>, selected: string, f: ListFilters, clock: Clock): (r: seq<Expense>)
    ensures forall e :: multiset(r)[e] == if Passes(selected, f, clock, e) then multiset(s)[e] else 0
    ensures forall e :: e in r <==> e in s && Passes(selected, f, clock, e)
    ensures Sorted(KeyFromName(f.sortBy), f.sortOrder == "asc", r)
  {
    var r := SortExpenses(KeyFromName(f.sortBy), f.sortOrder == "asc", Filtered(s, selected, f, clock));
    assert forall e :: e in r <==> e in multiset(r);
    r
  }

  /** Before the sort, the stages together act as one order-preserving filter
      with the conjunction of the four tests. */
  lemma FilteredIsOneFilter(s: seq<Expense>, selected: string, f: ListFilters, clock: Clock)
    ensures Filtered(s, selected, f, clock) == Filter((e: Expense) => Passes(selected, f, clock, e), s)
  {
    var p1 := (e: Expense) => CategoryPass(selected, e);
    var p2 := (e: Expense) => SearchPass(f.searchTerm, e);
    var p3 := (e: Expense) => DatePass(f, clock, e);
    var p4 := (e: Expense) => AmountPass(f.amountRange, e);
    var q12 := (e: Expense) => CategoryPass(selected, e) && SearchPass(f.searchTerm, e);
    var q123 := (e: Expense) => q12(e) && DatePass(f, clock, e);
    var all := (e: Expense) => Passes(selected, f, clock, e);
    var s1 := KeepCategory(selected, s);
    var s2 := KeepSearched(f.searchTerm, s1);
    var s3 := KeepDates(f, clock, s2);
    StageIsFilter1(selected, s);
    StageIsFilter2(f.searchTerm, s1);
    StageIsFilter3(f, clock, s2);
    StageIsFilter4(f.amountRange, s3);
    FilterThenFilter(p2, p1, q12, s);
    FilterThenFilter(p3, q12, q123, s);
    FilterThenFilter(p4, q123, all, s);
  }

  lemma StageIsFilter1(selected: string, s: seq<Expense>)
    ensures KeepCategory(selected, s) == Filter((e: Expense) => CategoryPass(selected, e), s)
  {
    if selected == Categories.AllSentinel {
      FilterKeepsAll((e: Expense) => CategoryPass(selected, e), s);
    } else {
      FilterAgree((e: Expense) => e.category == selected, (e: Expense) => CategoryPass(selected, e), s);
    }
  }

  lemma StageIsFilter2(term: string, s: seq<Expense>)
    ensures KeepSearched(term, s) == Filter((e: Expense) => SearchPass(term, e), s)
  {
    if term == "" {
      FilterKeepsAll((e: Expense) => SearchPass(term, e), s);
    } else {
      FilterAgree((e: Expense) => Contains(Lower(e.description), Lower(term)) || Contains(Lower(e.category), Lower(term)),
                  (e: Expense) => SearchPass(term, e), s);
    }
  }

  lemma StageIsFilter3(f: ListFilters, clock: Clock, s: seq<Expense>)
    ensures KeepDates(f, clock, s) == Filter((e: Expense) => DatePass(f, clock, e), s)
  {
    if f.dateRange != "all" && StartBound(f, clock).Some? {
      var start := StartBound(f, clock).value;
      FilterAgree((e: Expense) => WithinDates(f, start, e), (e: Expense) => DatePass(f, clock, e), s);
    } else {
      FilterKeepsAll((e: Expense) => DatePass(f, clock, e), s);
    }
  }

  lemma StageIsFilter4(a: AmountRange, s: seq<Expense>)
    ensures KeepAmounts(a, s) == Filter((e: Expense) => AmountPass(a, e), s)
  {
    if a.min.Some? || a.max.Some? {
      FilterAgree((e: Expense) => WithinAmounts(a, e), (e: Expense) => AmountPass(a, e), s);
    } else {
      FilterKeepsAll((e: Expense) => AmountPass(a, e), s);
    }
  }

  /** The relative ranges have a lower bound only: once an expense is in
      range, any later-dated expense (one in the future included) is too. */
  lemma RelativeRangesUnboundedAbove(f: ListFilters, clock: Clock, e: Expense, later: int)
    requires f.dateRange in {"today", "week", "month", "year"}
    requires DatePass(f, clock, e) && e.date <= later
    ensures DatePass(f, clock, e.(date := later))
  {
  }

  /** The custom range: no start means no date filtering at all, even with an
      end; with an end, both bounds are inclusive instants; a start alone is
      open above. */
  lemma CustomRange(f: ListFilters, clock: Clock, e: Expense)
    requires f.dateRange == "custom"
    ensures f.customStart.None? ==> DatePass(f, clock, e)
    ensures f.customStart.Some? && f.customEnd.Some? ==>
              (DatePass(f, clock, e) <==> f.customStart.value <= e.date <= f.customEnd.value)
    ensures f.customStart.Some? && f.customEnd.None? ==>
              (DatePass(f, clock, e) <==> f.customStart.value <= e.date)
  {
  }

  /** The corrected custom range: as before, except that with an end the
      range runs through the whole end day. */
  lemma CustomRangeWholeEndDay(f: ListFilters, clock: Clock, e: Expense)
    requires f.dateRange == "custom"
    ensures f.customStart.None? ==> DatePassWholeEndDay(f, clock, e)
    ensures f.customStart.Some? && f.customEnd.Some? ==>
              (DatePassWholeEndDay(f, clock, e) <==> f.customStart.value <= e.date < f.customEnd.value + 86400000)
    ensures f.customStart.Some? && f.customEnd.None? ==>
              (DatePassWholeEndDay(f, clock, e) <==> f.customStart.value <= e.date)
  {
  }

  /** The two date tests differ only on the end day after its first
      millisecond. */
  lemma DateTestsAgreeOffEndDay(f: ListFilters, clock: Clock, e: Expense)
    requires !(f.dateRange == "custom" && f.customEnd.Some? && f.customEnd.value < e.date < f.customEnd.value + DayMs)
    ensures DatePassWholeEndDay(f, clock, e) <==> DatePass(f, clock, e)
  {
  }

  /** The corrected stage keeps everything the code keeps, and whatever it
      keeps in addition lies on the end day after its first millisecond. */
  lemma WholeEndDayKeepsMore(f: ListFilters, clock: Clock, s: seq<Expense>)
    ensures multiset(KeepDates(f, clock, s)) <= multiset(KeepDatesWholeEndDay(f, clock, s))
    ensures forall e :: e in KeepDatesWholeEndDay(f, clock, s) && e !in KeepDates(f, clock, s) ==>
              f.dateRange == "custom" && f.customEnd.Some? && f.customEnd.value < e.date < f.customEnd.value + DayMs
  {
    var a := KeepDates(f, clock, s);
    var b := KeepDatesWholeEndDay(f, clock, s);
    forall e
      ensures multiset(a)[e] <= multiset(b)[e]
    {
    }
    forall e | e in b && e !in a
      ensures f.dateRange == "custom" && f.customEnd.Some? && f.customEnd.value < e.date < f.customEnd.value + DayMs
    {
      assert e in multiset(b);
      assert e !in multiset(a);
    }
  }

  /** An inverted amount range (`min > max`) leaves nothing. */
  lemma InvertedAmountRangeIsEmpty(a: AmountRange, s: seq<Expense>)
    requires a.min.Some? && a.max.Some? && a.min.value > a.max.value
    ensures KeepAmounts(a, s) == []
  {
    var r := KeepAmounts(a, s);
    assert multiset(r) == multiset{};
  }

  /** With only a maximum, the minimum defaults to 0: negative amounts go. */
  lemma MaxOnlyDropsNegative(a: AmountRange, e: Expense)
    requires a.min.None? && a.max.Some?
    requires e.amount < 0.0
    ensures !AmountPass(a, e)
  {
  }

  /** With no active filter, nothing is dropped beyond the category stage. */
  lemma InactiveFiltersKeepCategory(s: seq<Expense>, selected: string, f: ListFilters, clock: Clock)
    requires !HasActiveFilters(f)
    ensures multiset(Visible(s, selected, f, clock)) == multiset(KeepCategory(selected, s))
  {
    var v := Visible(s, selected, f, clock);
    var c := KeepCategory(selected, s);
    forall e
      ensures multiset(v)[e] == multiset(c)[e]
    {
    }
  }

  /** After clearing, with every category shown, the list holds all the
      expenses, newest first. */
  lemma ClearedListShowsEverything(s: seq<Expense>, f: ListFilters, clock: Clock)
    ensures var v := Visible(s, Categories.AllSentinel, ClearAllFilters(f), clock);
            && multiset(v) == multiset(s)
            && forall i, j :: 0 <= i < j < |v| ==> v[j].date <= v[i].date
  {
    var v := Visible(s, Categories.AllSentinel, ClearAllFilters(f), clock);
    InactiveFiltersKeepCategory(s, Categories.AllSentinel, ClearAllFilters(f), clock);
    forall i, j | 0 <= i < j < |v|
      ensures v[j].date <= v[i].date
    {
      assert InOrder(ByDate, false, v[i], v[j]);
    }
  }

  /** `sortOrder == "asc"` gives keys that never decrease along the list;
      any other order gives keys that never increase. */
  lemma VisibleIsOrderedByKey(s: seq<Expense>, selected: string, f: ListFilters, clock: Clock, i: nat, j: nat)
    requires i < j < |Visible(s, selected, f, clock)|
    ensures var v := Visible(s, selected, f, clock);
            var k := KeyFromName(f.sortBy);
            && (f.sortOrder == "asc" ==> !Less(KeyValue(k, v[j]), KeyValue(k, v[i])))
            && (f.sortOrder != "asc" ==> !Less(KeyValue(k, v[i]), KeyValue(k, v[j])))
  {
    var v := Visible(s, selected, f, clock);
    InOrderMeaning(KeyFromName(f.sortBy), f.sortOrder == "asc", v[i], v[j]);
  }
}
