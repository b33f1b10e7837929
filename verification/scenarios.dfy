/** A worked example: three expenses, two of them Food, grouped by the chart,
    summarized by the dashboard over an unwindowed view, and queried by the
    list for Food sorted by amount ascending. */
module Scenarios {
  import opened Options
  import Seqs
  import opened Expenses
  import opened CategoryTotals
  import opened ListSort
  import opened ExpenseList
  import ExpenseChart
  import Dashboard

  const Lunch: Expense := Expense(1, 50.0, "Lunch", "Food", 1704412800000)
  const Snack: Expense := Expense(2, 20.0, "Snack", "Food", 1704844800000)
  const Taxi: Expense := Expense(3, 30.0, "Taxi", "Transportation", 1705276800000)

  const Sample: seq<Expense> := [Lunch, Snack, Taxi]

  lemma GroupFirst()
    ensures Group([Lunch]) == [Entry("Food", 50.0)]
  {
    assert [Lunch][..0] == [];
  }

  lemma GroupSecond()
    ensures Group([Lunch, Snack]) == [Entry("Food", 70.0)]
  {
    GroupFirst();
    assert [Lunch, Snack][..1] == [Lunch];
    assert IndexOf([Entry("Food", 50.0)], "Food") == Some(0);
  }

  lemma GroupThird()
    ensures Group(Sample) == [Entry("Food", 70.0), Entry("Transportation", 30.0)]
  {
    GroupSecond();
    assert Sample[..2] == [Lunch, Snack];
    assert IndexOf([Entry("Food", 70.0)], "Transportation") == None;
  }

  /** Grouping gives Food 70 then Transportation 30; the chart total is 100. */
  lemma SampleChart()
    ensures ExpenseChart.CategoryData(Sample) == [Entry("Food", 70.0), Entry("Transportation", 30.0)]
    ensures ExpenseChart.ChartTotal(Sample) == 100.0
  {
    GroupThird();
    var g := [Entry("Food", 70.0), Entry("Transportation", 30.0)];
    assert g[..1] == [Entry("Food", 70.0)];
    assert [Entry("Food", 70.0)][..0] == [];
    assert Total(g) == 100.0;
  }

  /** With the unwindowed view the dashboard counts three expenses totalling
      100, and Food, with 70, is the top category. */
  lemma SampleDashboard(clock: Clock)
    ensures var st := Dashboard.Summarize(Sample, "all", clock);
            && st.count == 3 && st.total == 100.0 && st.average == 100.0 / 3.0
            && st.topCategoryName == "Food"
  {
    SampleChart();
    Dashboard.UnwindowedMatchesChart(Sample, "all", clock);
    var g := Dashboard.Summarize(Sample, "all", clock).byCategory;
    assert g == [Entry("Food", 70.0), Entry("Transportation", 30.0)];
    assert Dashboard.TopFold(g, 1) == "Food";
    assert Dashboard.Lookup(g, "Food") == Some(70.0);
    assert Dashboard.Lookup(g, "Transportation") == Some(30.0);
  }

  lemma FoodStage()
    ensures KeepCategory("Food", Sample) == [Lunch, Snack]
  {
    var food := (e: Expense) => CategoryPass("Food", e);
    StageIsFilter1("Food", Sample);
    FoodTail(food);
    Seqs.FilterCons(food, Lunch, [Snack, Taxi]);
    assert Sample == [Lunch] + [Snack, Taxi];
  }

  lemma FoodTail(food: Expense -> bool)
    requires forall e :: food(e) == CategoryPass("Food", e)
    ensures Seqs.Filter(food, [Snack, Taxi]) == [Snack]
  {
    Seqs.FilterCons(food, Snack, [Taxi]);
    Seqs.FilterCons(food, Taxi, []);
    assert [Snack, Taxi] == [Snack] + [Taxi];
    assert [Taxi] == [Taxi] + [];
  }

  lemma SortTwo()
    ensures SortExpenses(ByAmount, true, [Lunch, Snack]) == [Snack, Lunch]
  {
    assert [Lunch, Snack][1..] == [Snack];
    assert [Snack][1..] == [];
    assert SortExpenses(ByAmount, true, [Snack]) == [Snack];
    assert !InOrder(ByAmount, true, Lunch, Snack);
    assert [Snack][1..] == [];
  }

  /** Listing Food by amount, ascending, shows the 20 before the 50. */
  lemma SampleFoodByAmount(clock: Clock)
    ensures Visible(Sample, "Food", InitialFilters.(sortBy := "amount", sortOrder := "asc"), clock) == [Snack, Lunch]
  {
    var f := InitialFilters.(sortBy := "amount", sortOrder := "asc");
    FoodStage();
    assert Filtered(Sample, "Food", f, clock) == [Lunch, Snack];
    SortTwo();
  }
}
