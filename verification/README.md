# Expense tracker core, modelled in Dafny

This project models the logic of a small client-side expense tracker:
- **The expense store.** It loads a list of expenses and a dark-mode flag, prepends new expenses, deletes by id and toggles the flag.
- **The list view's query.** Four filter stages are applied in a fixed order — category, search, date range, amount range — followed by a sort chosen by `sortBy`/`sortOrder`. The filter state is also modelled: its reset (`clearAllFilters`) and its "filters active" badge.
- **The dashboard's statistics.** They are computed over a time window: total, count, average, per-category sums and the top category.
- **The chart's grouping.** Per-category entries in first-occurrence order, plus a grand total.
- **The closed table of eight categories** and its colour map.

Everything is a pure function over immutable values:
- An expense is a record with an integer id, a `real` amount, string description and category, and an integer millisecond timestamp.
- The current time and the local-calendar facts the views derive from it are passed in as a `Clock` value:
  - the starts of today, of this month and of this year;
  - the local year and month of any instant.
- Stored data is passed in already decoded, as `Option`s.

The list's initial filter state is `InitialFilters`: sort by `date`, descending, date range `all`, everything else empty. The dashboard opens on `DefaultWindow`, `"month"`.

The modules follow the source:
- `Categories` — `src/utils/constants.js`.
- `Expenses` — the record, the clock, sums.
- `CategoryTotals` — the grouping shared by the chart and the dashboard.
- `ExpenseChart`.
- `Dashboard`.
- `Store` — `src/hooks/useExpenses.js`.
- `Text` — lower-casing, `includes`, string order.
- `ListSort` — the comparator and the sort.
- `ExpenseList` — the filter stages and the pipeline.
- `Seqs` — the order-preserving filter every stage is built on.
- `Scenarios` — one worked example.

Some behaviours of the code are easy to mistake, and the model keeps each of them as written:
- **Sort ties.** The sort's comparator never answers 0, so equal keys get no tie order. Stability is not promised; only a permutation ordered by the key is.
- **Dashboard month window.** The `"month"` window keeps expenses whose calendar month and year equal now's. It is an equality test, not the list view's "from the first of the month on".
- **Top-category ties.** The later category in first-occurrence order wins a tie for the top category.
- **Draft dates.** `addExpense` overwrites the draft's date with the current time.
- **Custom end day.** The custom date range's end is the first millisecond of the end day, so the rest of that day is excluded. The list pipeline (`ExpenseList.DatePass`, `KeepDates`, `Filtered`, `Visible`) keeps this test as written. The whole-day reading that was evidently intended is modelled beside it, as `ExpenseList.KeepDatesWholeEndDay`; see Findings.

## Model

| member | source | states |
|---|---|---|
| Categories.TableIsTheEightCategories | src/utils/constants.js:1-10 | exactly eight rows, in the order Food, Transportation, Entertainment, Shopping, Health, Education, Bills, Other; no category twice; the last row is Other |
| Categories.Parse | src/utils/constants.js:1-10 | a name read as a category is the display name of the category it returns |
| Categories.ParseName | src/utils/constants.js:1-10 | every category's name reads back as that category |
| Categories.NamesDistinct | src/utils/constants.js:1-10 | two categories share a name only if they are the same category |
| Categories.TableNamesDistinct | src/utils/constants.js:1-10 | the table's names are pairwise distinct |
| Categories.ChartColorsKeyedByName | src/utils/constants.js:12-21 | the colour map has a key for every category name, every key names a category, and there are as many keys as table rows |
| Categories.SentinelIsNotACategory | src/components/ExpenseList.jsx:24 | no category is called "All" or "", so the filter sentinel cannot collide with a real category |
| Categories.FindByName | src/components/ExpenseList.jsx:17 | a found row is in the table and carries the name; finding nothing means no row carries it |
| Categories.FindByNameFindsRow | src/components/ExpenseList.jsx:17 | with distinct names, searching for a row's name returns that row |
| Categories.CategoryInfoOf | src/components/ExpenseList.jsx:16-18 | the category info shown for any name is a row of the table |
| Categories.CategoryInfoLookup | src/components/ExpenseList.jsx:16-18 | a known name gives its own category's row; an unknown name falls back to Other's row |
| Expenses.SumAppend | src/components/Dashboard.jsx:29 | appending an expense adds its amount to the sum and to its category's sum, and makes its category occur |
| Expenses.CategorySumAbsent | src/components/Dashboard.jsx:33-36 | a category that does not occur sums to 0 |
| Expenses.SumNonNegative | src/components/Dashboard.jsx:29 | non-negative amounts give a non-negative total |
| CategoryTotals.IndexOf | src/components/ExpenseChart.jsx:8 | the result is the position of the first entry with the name, or none when no entry has it |
| CategoryTotals.TotalAppend | src/components/ExpenseChart.jsx:20 | the grand total grows by the value of an appended entry |
| CategoryTotals.TotalUpdate | src/components/ExpenseChart.jsx:10 | raising one entry's value by `a` raises the grand total by `a` |
| CategoryTotals.AddExistingSummarizes | src/components/ExpenseChart.jsx:9-10 | adding to an existing entry keeps the entries a summary of the longer list |
| CategoryTotals.AddFreshSummarizes | src/components/ExpenseChart.jsx:11-16 | appending a fresh entry keeps the entries a summary of the longer list |
| CategoryTotals.GroupSummarizes | src/components/ExpenseChart.jsx:7-18 | the reduce yields distinct names that are exactly the categories present, each holding its category's sum, in first-occurrence order, with the values adding up to the sum of all amounts |
| ExpenseChart.CategoryData | src/components/ExpenseChart.jsx:7-18 | entry names are distinct and exactly the categories present; each value is its category's sum; entries follow first occurrence; there are no more entries than expenses, and none only for no expenses |
| ExpenseChart.ChartTotal | src/components/ExpenseChart.jsx:20 | the total of the entries equals the sum of all expense amounts |
| ExpenseChart.ShowsEmptyState | src/components/ExpenseChart.jsx:38 | the empty-state card shows exactly when there are no expenses |
| ExpenseChart.EntriesFollowFirstOccurrence | src/components/ExpenseChart.jsx:8-15 | whenever an expense names a later entry's category, an expense of an earlier entry's category comes before it |
| Dashboard.WindowExpenses | src/components/Dashboard.jsx:8-26 | keeps exactly the expenses inside the window, with their multiplicity; any window other than week, month or year keeps the list unchanged |
| Dashboard.Average | src/components/Dashboard.jsx:30 | the total divided by the count, and 0 when the count is 0 |
| Dashboard.SumBetween | src/components/Dashboard.jsx:29 | amounts between `lo` and `hi` sum to between `n*lo` and `n*hi` |
| Dashboard.AverageWithinBounds | src/components/Dashboard.jsx:30 | the average of a non-empty list lies between its smallest and largest amount |
| Dashboard.Lookup | src/components/Dashboard.jsx:38-39 | the lookup is defined exactly for the names with an entry |
| Dashboard.TopFoldFirstKey | src/components/Dashboard.jsx:38-39 | the first key always replaces the empty initial accumulator |
| Dashboard.TopFoldNextKey | src/components/Dashboard.jsx:38-39 | the accumulator survives the next key only when its value is strictly greater |
| Dashboard.TopFoldIsLastMaximum | src/components/Dashboard.jsx:38-39 | over distinct non-empty names, the fold returns the last entry holding the maximum value |
| Dashboard.TopCategoryIsLastMaximum | src/components/Dashboard.jsx:33-39 | the top category is "" exactly for no expenses; otherwise it occurs, its sum is at least every category's sum, and a tied category occurs first |
| Dashboard.TopEntryIsLastMaximum | src/components/Dashboard.jsx:33-39 | the last maximal entry of the summary names a category with the largest sum, every tied category occurring earlier |
| Dashboard.TopCategoryLabel | src/components/Dashboard.jsx:65 | the card shows the name, or "None" when the name is "" |
| Dashboard.TopCardShowsNone | src/components/Dashboard.jsx:38-39 | over expenses whose categories are neither "" nor "None", the card reads "None" exactly when the window is empty |
| Dashboard.Summarize | src/components/Dashboard.jsx:28-31 | count and total are those of the windowed expenses; the average is total over count, or 0 for none |
| Dashboard.SummarizeByCategory | src/components/Dashboard.jsx:33-36 | the per-category map summarizes the windowed expenses, and its values add up to the total |
| Dashboard.SummarizeTopCategory | src/components/Dashboard.jsx:38-39 | read against the windowed expenses, the top category is "" exactly for an empty window, and otherwise a present category with the largest sum, the later one winning a tie |
| Dashboard.UnwindowedMatchesChart | src/components/Dashboard.jsx:21-29 | for a window that keeps everything, the dashboard's per-category sums are the chart's entries and its total is the chart's total |
| Store.Initial | src/hooks/useExpenses.js:4-12 | nothing stored gives no expenses and light mode; stored values are taken as they are |
| Store.Add | src/hooks/useExpenses.js:27-34 | one expense more, at the head, with the clock's id and date and the draft's amount, description and category; the old expenses follow unchanged and in order; the flag is untouched |
| Store.AddDiscardsDraftDate | src/hooks/useExpenses.js:28-32 | the draft's own date has no effect on the new state |
| Store.Delete | src/hooks/useExpenses.js:36-38 | the survivors are exactly the expenses with a different id, each as often as before; the flag is untouched |
| Store.DeleteKeepsOrder | src/hooks/useExpenses.js:37 | deleting decides each expense in turn, so the survivors keep their order |
| Store.DeleteAbsentIsNoOp | src/hooks/useExpenses.js:37 | deleting an id no expense carries changes nothing |
| Store.DeleteIdempotent | src/hooks/useExpenses.js:37 | deleting the same id twice is deleting it once |
| Store.AddThenDeleteRestores | src/hooks/useExpenses.js:33-37 | adding with a fresh id and deleting that id gives back the previous state |
| Store.AddFreshIdKeepsUnique | src/hooks/useExpenses.js:30-33 | unique ids stay unique after an add whose id is fresh |
| Store.SameMillisecondAddsShareId | src/hooks/useExpenses.js:30 | two adds in the same millisecond produce a duplicate id, and one delete then removes both |
| Store.DeleteKeepsUnique | src/hooks/useExpenses.js:37 | deleting never breaks id uniqueness |
| Store.ToggleDarkMode | src/hooks/useExpenses.js:40-42 | the flag flips and the expenses stay |
| Store.ToggleTwiceRestores | src/hooks/useExpenses.js:41 | two toggles give back the state |
| Seqs.Filter | src/hooks/useExpenses.js:37 | keeps exactly the elements that pass, each as often as in the input, and never lengthens the list |
| Seqs.FilterThenFilter | src/components/ExpenseList.jsx:21-34 | two filters in a row act as one filter with the conjunction |
| Text.Lower | src/components/ExpenseList.jsx:31-32 | the result has the same length, and every character is lower-cased in place |
| Text.LowerIdempotent | src/components/ExpenseList.jsx:31-32 | a lower-cased string holds no upper-case letter, so lower-casing it again changes nothing |
| Text.ContainsIff | src/components/ExpenseList.jsx:31-32 | `includes` holds exactly when some window of the text spells the needle |
| Text.LexLeTotal | src/components/ExpenseList.jsx:94-100 | any two strings are comparable |
| Text.LexLeTransitive | src/components/ExpenseList.jsx:94-100 | the string order is transitive |
| Text.LexLeAntisymmetric | src/components/ExpenseList.jsx:94-100 | the string order ties only equal strings |
| ListSort.KeyFromName | src/components/ExpenseList.jsx:89-107 | amount, description and category select their own key; every other `sortBy`, including unknown ones, sorts by date |
| ListSort.Compare | src/components/ExpenseList.jsx:109-113 | the comparator answers only 1 or -1: ascending answers 1 exactly when the first key is greater, descending exactly when it is smaller |
| ListSort.CompareInconsistentOnTies | src/components/ExpenseList.jsx:110-112 | on equal keys the comparator answers -1 both ways round |
| ListSort.InOrderMeaning | src/components/ExpenseList.jsx:109-113 | ascending lets `a` precede `b` exactly when `b`'s key is not below `a`'s; descending, when `a`'s key is not below `b`'s |
| ListSort.InOrderTotal | src/components/ExpenseList.jsx:109-113 | of two expenses, at least one may precede the other |
| ListSort.InOrderTransitive | src/components/ExpenseList.jsx:109-113 | "may precede" is transitive |
| ListSort.Insert | src/components/ExpenseList.jsx:86-114 | inserting into a sorted list keeps it sorted and adds exactly the one element |
| ListSort.SortExpenses | src/components/ExpenseList.jsx:86-114 | the result is a permutation of the input in which the comparator accepts every earlier/later pair |
| ExpenseList.ActiveFilterCount | src/components/ExpenseList.jsx:153 | counts search, date and amount at most once each, and is positive exactly when filters are active |
| ExpenseList.ClearAllFilters | src/components/ExpenseList.jsx:119-127 | the reset state is the initial one: no filter active, sorted by date, descending |
| ExpenseList.ActiveIgnoresSort | src/components/ExpenseList.jsx:129 | whether filters are active does not depend on the sort key or order |
| ExpenseList.KeepCategory | src/components/ExpenseList.jsx:24-26 | "All" keeps the list as it is; any other value keeps exactly the expenses of that category, with multiplicity |
| ExpenseList.KeepSearched | src/components/ExpenseList.jsx:29-34 | an empty term keeps the list; otherwise exactly the expenses whose lower-cased description or category contains the lower-cased term |
| ExpenseList.SearchIgnoresCase | src/components/ExpenseList.jsx:31-32 | a term and its lower-cased form select the same expenses |
| ExpenseList.StartBound | src/components/ExpenseList.jsx:41-61 | today, week, month and year start at the start of the day, now minus 604800000 ms, and the starts of the month and the year; custom starts at the custom start if given; anything else has no bound |
| ExpenseList.KeepDates | src/components/ExpenseList.jsx:36-73 | keeps exactly the expenses that pass the date test, with multiplicity |
| ExpenseList.RelativeRangesUnboundedAbove | src/components/ExpenseList.jsx:41-70 | the relative ranges have no upper bound: moving an expense later, even into the future, keeps it in range |
| ExpenseList.CustomRange | src/components/ExpenseList.jsx:54-71 | no custom start means no date filtering, even with an end; with both, the start and end instants are both inclusive; a start alone is open above |
| ExpenseList.EndDayExcludedAsWritten | src/components/ExpenseList.jsx:66-68 | an expense one hour into the end day fails the code's date test, while the whole-day stage keeps it |
| ExpenseList.KeepDatesWholeEndDay | src/components/ExpenseList.jsx:63-71 | the corrected date stage keeps exactly the expenses passing the whole-end-day test, with multiplicity |
| ExpenseList.CustomRangeWholeEndDay | src/components/ExpenseList.jsx:54-71 | in the corrected stage, a custom range with an end runs from the start through the whole end day; without a start nothing is filtered; a start alone is open above |
| ExpenseList.DateTestsAgreeOffEndDay | src/components/ExpenseList.jsx:63-71 | the code's test and the whole-day test differ only on the end day after its first millisecond |
| ExpenseList.WholeEndDayKeepsMore | src/components/ExpenseList.jsx:63-71 | the corrected stage keeps everything the code keeps, and anything more lies on the end day after its first millisecond |
| ExpenseList.KeepAmounts | src/components/ExpenseList.jsx:76-83 | with no bounds the list stays; otherwise exactly the expenses within `min` (default 0) and `max` (default unbounded), with multiplicity |
| ExpenseList.InvertedAmountRangeIsEmpty | src/components/ExpenseList.jsx:79-81 | a minimum above the maximum leaves nothing |
| ExpenseList.MaxOnlyDropsNegative | src/components/ExpenseList.jsx:79-81 | with only a maximum set, negative amounts are dropped |
| ExpenseList.Filtered | src/components/ExpenseList.jsx:20-84 | the stages keep exactly the expenses passing all four tests, with multiplicity |
| ExpenseList.FilteredIsOneFilter | src/components/ExpenseList.jsx:21-83 | the four stages in their order act as a single order-preserving filter with the conjunction of their tests |
| ExpenseList.Visible | src/components/ExpenseList.jsx:20-117 | the visible list holds exactly the expenses passing every stage, each as often as in the input, ordered as the comparator for `sortBy`/`sortOrder` demands |
| ExpenseList.VisibleIsOrderedByKey | src/components/ExpenseList.jsx:109-113 | ascending order gives keys that never decrease along the list; any other order gives keys that never increase |
| ExpenseList.InactiveFiltersKeepCategory | src/components/ExpenseList.jsx:24-83 | with no active filter, the visible list is a reordering of the category stage's output |
| ExpenseList.ClearedListShowsEverything | src/components/ExpenseList.jsx:119-127 | after clearing, with every category shown, all expenses are listed, newest first |
| Scenarios.SampleChart | src/components/ExpenseChart.jsx:7-20 | for Food 50, Food 20, Transportation 30 the chart has Food 70 then Transportation 30, total 100 |
| Scenarios.SampleDashboard | src/components/Dashboard.jsx:28-39 | the same list, unwindowed, gives 3 expenses, total 100, average 100/3, top category Food |
| Scenarios.SampleFoodByAmount | src/components/ExpenseList.jsx:20-117 | listing Food by amount ascending shows the 20 before the 50 |

## Left out

- Persistence and the DOM are outside the model: local storage reads and writes, `JSON.parse`/`JSON.stringify`, and the document's `dark` class (src/hooks/useExpenses.js:14-25). The stored values reach `Store.Initial` already decoded. A stored blob that fails to parse is outside the model.
- Calendar arithmetic and time zones are parameters: "now", the starts of today, month and year, and the local year and month of an instant come in through `Clock`. Parsing the date fields is outside the model too: a custom date is the instant its field parses to, and an empty field is `None`.
- An unparseable custom date or amount bound is not modelled. In the code it yields an invalid date or `NaN`, every comparison with it is false, and the stage then keeps nothing. The fields are modelled as `Option<int>` and `Option<real>`.
- `NaN` and infinite amounts are not modelled, and neither is floating-point rounding. Amounts are exact `real`s.
- `toFixed` formatting, the chart's percentage tooltips and all rendering, animation and chart drawing are presentation.
- The dashboard's "change" figures are fixed strings, not computed.
- Text.Lower: lower-cases the ASCII letters only; `toLowerCase` also maps non-ASCII letters, so the search and the string sort keys agree with the code only on ASCII text.
- Text.LexLe: compares characters by code point; JavaScript compares UTF-16 code units, which order differently only for characters outside the Basic Multilingual Plane.
- ListSort.SortExpenses: fixes neither a sort algorithm nor the order of equal keys. The comparator is inconsistent on ties, so JavaScript leaves their order to the engine; the contract promises only a permutation that the comparator accepts pair by pair.
- ExpenseList.Visible: returns a new sequence. In the code `filtered.sort` reorders the caller's `expenses` array in place whenever no filter stage ran; that aliasing is not modelled.
- Dashboard.TopCategoryIsLastMaximum: requires every category name to be non-empty, as every name in the table is. With an expense filed under "", the fold's empty initial accumulator could collide with a real key.
- Dashboard.TopCardShowsNone: also requires that no category is literally "None", since such a category would make the card read "None" for a non-empty window.
- Dashboard.Summarize: the per-category map and the top category are computed by the chart's grouping. In the code they come from a plain `{}` object, and names of properties every object inherits behave differently there. For "constructor", `acc[c] || 0` starts from the inherited function and the sum becomes a string. For "__proto__", the assignment is ignored and the key never appears among the keys. No category in the table is such a name.
- Dashboard.UnwindowedMatchesChart: the agreement with the chart holds in the code only for category names that are not inherited object properties ("constructor", "__proto__", ...), for the reason just given.
- Dashboard.TopCategoryName: visits categories in first-occurrence order. JavaScript objects list integer-like keys first, in numeric order; no category in the table is integer-like.
- Store.Add: no validation. The code accepts any draft, and validation happens in the form (src/components/AddExpense.jsx), which is not part of this model; neither are src/App.js, src/components/CategoryFilter.jsx or src/components/ThemeToggle.jsx.

## Findings

| source | as written | input that shows it | evidently intended | confidence | as-written member | corrected member |
|---|---|---|---|---|---|---|
| src/components/ExpenseList.jsx:66-68 | The custom end is a day-only field value ("YYYY-MM-DD"), which `new Date` reads as the first millisecond of that day (UTC). The code compares it with `<=` against full timestamps, and every expense is stamped with the time it was added. So only the end day's first millisecond is inside the range. | A custom range from 2024-01-01 to 2024-01-10, and an expense dated 2024-01-10T14:00:00.000Z: the code excludes it. | The end day counts whole: keep dates before the start of the following day. | not executed; high | ExpenseList.EndDayExcludedAsWritten | ExpenseList.CustomRangeWholeEndDay |

The list pipeline keeps the code's test (`ExpenseList.CustomRange`). The corrected stage `ExpenseList.KeepDatesWholeEndDay` sits beside it, and `ExpenseList.WholeEndDayKeepsMore` bounds what it adds.
