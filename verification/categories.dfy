/** The closed table of expense categories (src/utils/constants.js): each
    category's display name, icon and gradient, and the chart colour keyed by
    name. */
module Categories {
  import opened Options

  datatype Category =
    | Food | Transportation | Entertainment | Shopping
    | Health | Education | Bills | Other

  /** One row of `CATEGORIES`. */
  datatype CategoryInfo = CategoryInfo(name: string, icon: string, color: string)

  function Info(c: Category): CategoryInfo {
    match c
    case Food => CategoryInfo("Food", "\U{1F354}", "from-orange-400 to-red-500")
    case Transportation => CategoryInfo("Transportation", "\U{1F697}", "from-blue-400 to-purple-500")
    case Entertainment => CategoryInfo("Entertainment", "\U{1F3AC}", "from-pink-400 to-purple-500")
    case Shopping => CategoryInfo("Shopping", "\U{1F6CD}\U{FE0F}", "from-green-400 to-blue-500")
    case Health => CategoryInfo("Health", "\U{1F3E5}", "from-red-400 to-pink-500")
    case Education => CategoryInfo("Education", "\U{1F4DA}", "from-indigo-400 to-purple-500")
    case Bills => CategoryInfo("Bills", "\U{1F4C4}", "from-yellow-400 to-orange-500")
    case Other => CategoryInfo("Other", "\U{1F4E6}", "from-gray-400 to-gray-600")
  }

  function Name(c: Category): string {
    Info(c).name
  }

  /** The table order of `CATEGORIES`. */
  const AllCategories: seq<Category> :=
    [Food, Transportation, Entertainment, Shopping, Health, Education, Bills, Other]

  /** `CATEGORIES`, the rows in table order. */
  const Table: seq<CategoryInfo> := [
    Info(Food), Info(Transportation), Info(Entertainment), Info(Shopping),
    Info(Health), Info(Education), Info(Bills), Info(Other)
  ]

  /** `CHART_COLORS`: pie and bar colour by category name. */
  const ChartColors: map<string, string> := map[
    "Food" := "#FF6B6B",
    "Transportation" := "#4ECDC4",
    "Entertainment" := "#45B7D1",
    "Shopping" := "#96CEB4",
    "Health" := "#FECA57",
    "Education" := "#A55EEA",
    "Bills" := "#FF9FF3",
    "Other" := "#74B9FF"
  ]

  /** The sentinel the category filter uses for "no category selected". */
  const AllSentinel: string := "All"

  /** The position of each category in `CATEGORIES`. */
  function Position(c: Category): (i: nat)
    ensures i < |AllCategories| && AllCategories[i] == c
  {
    match c
    case Food => 0
    case Transportation => 1
    case Entertainment => 2
    case Shopping => 3
    case Health => 4
    case Education => 5
    case Bills => 6
    case Other => 7
  }

  /** The table lists exactly the eight categories, each once, in the fixed
      order Food, Transportation, Entertainment, Shopping, Health, Education,
      Bills, Other; the last row is `Other`. */
  lemma TableIsTheEightCategories()
    ensures |Table| == |AllCategories| == 8
    ensures forall i :: 0 <= i < |Table| ==> Table[i] == Info(AllCategories[i])
    ensures forall i, j :: 0 <= i < j < |AllCategories| ==> AllCategories[i] != AllCategories[j]
    ensures Table[0].name == "Food" && Table[1].name == "Transportation"
    ensures Table[2].name == "Entertainment" && Table[3].name == "Shopping"
    ensures Table[4].name == "Health" && Table[5].name == "Education"
    ensures Table[6].name == "Bills" && Table[7].name == "Other"
    ensures Table[|Table| - 1] == Info(Other)
  {
  }

  /** The category whose display name is `name`, if there is one. */
  function Parse(name: string): (r: Option<Category>)
    ensures r.Some? ==> Name(r.value) == name
  {
    if name == "Food" then Some(Food)
    else if name == "Transportation" then Some(Transportation)
    else if name == "Entertainment" then Some(Entertainment)
    else if name == "Shopping" then Some(Shopping)
    else if name == "Health" then Some(Health)
    else if name == "Education" then Some(Education)
    else if name == "Bills" then Some(Bills)
    else if name == "Other" then Some(Other)
    else None
  }

  /** Reading a category's name back gives the category: names are pairwise
      distinct, and a name outside the table names no category. */
  lemma ParseName(c: Category)
    ensures Parse(Name(c)) == Some(c)
  {
  }

  /** Different categories have different names. */
  lemma NamesDistinct(c: Category, d: Category)
    ensures Name(c) == Name(d) <==> c == d
  {
    ParseName(c);
    ParseName(d);
  }

  /** The rows of `CATEGORIES` have pairwise distinct names. */
  lemma TableNamesDistinct()
    ensures forall i, j :: 0 <= i < j < |Table| ==> Table[i].name != Table[j].name
  {
    forall i, j | 0 <= i < j < |Table|
      ensures Table[i].name != Table[j].name
    {
      NamesDistinct(AllCategories[i], AllCategories[j]);
    }
  }

  /** `CATEGORIES.find(cat => cat.name === name)`: the first row carrying the
      name, if any. */
  function FindByName(rows: seq<CategoryInfo>, name: string): (r: Option<CategoryInfo>)
    ensures r.Some? ==> r.value in rows && r.value.name == name
    ensures r.None? ==> forall i :: 0 <= i < |rows| ==> rows[i].name != name
  {
    if |rows| == 0 then None
    else if rows[0].name == name then Some(rows[0])
    else FindByName(rows[1..], name)
  }

  /** With distinct names, searching for a row's name finds that row. */
  lemma {:induction false} FindByNameFindsRow(rows: seq<CategoryInfo>, i: nat)
    requires i < |rows|
    requires forall j, k :: 0 <= j < k < |rows| ==> rows[j].name != rows[k].name
    ensures FindByName(rows, rows[i].name) == Some(rows[i])
  {
    if i > 0 {
      assert rows[0].name != rows[i].name;
      FindByNameFindsRow(rows[1..], i - 1);
    }
  }

  /** `getCategoryInfo` in the list view: the row for a known name, and the
      last row of the table for any other name. */
  function CategoryInfoOf(name: string): (r: CategoryInfo)
    ensures r in Table
  {
    match FindByName(Table, name)
    case Some(info) => info
    case None => Table[|Table| - 1]
  }

  /** The lookup finds each category's own row, and falls back to the `Other`
      row for a name outside the table. */
  lemma CategoryInfoLookup(name: string)
    ensures Parse(name).Some? ==> CategoryInfoOf(name) == Info(Parse(name).value)
    ensures Parse(name).None? ==> CategoryInfoOf(name) == Info(Other)
  {
    TableIsTheEightCategories();
    match Parse(name)
    case Some(c) =>
      TableNamesDistinct();
      FindByNameFindsRow(Table, Position(c));
    case None =>
      match FindByName(Table, name)
      case Some(info) =>
        var i :| 0 <= i < |Table| && Table[i] == info;
        ParseName(AllCategories[i]);
        assert false;
      case None =>
  }

  /** `CHART_COLORS` has one key per category name and no other key. */
  lemma ChartColorsKeyedByName()
    ensures forall c: Category :: Name(c) in ChartColors
    ensures forall k :: k in ChartColors ==> Parse(k).Some?
    ensures |ChartColors| == |Table|
  {
    assert ChartColors.Keys == {"Food", "Transportation", "Entertainment", "Shopping", "Health", "Education", "Bills", "Other"};
  }

  /** No category is called "All" (nor has an empty name), so the filter
      sentinel can never select, or be mistaken for, a real category. */
  lemma SentinelIsNotACategory()
    ensures forall c: Category :: Name(c) != AllSentinel && Name(c) != ""
    ensures Parse(AllSentinel).None?
  {
  }
}
