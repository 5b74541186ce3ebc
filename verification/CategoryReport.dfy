/** `GetBudgetItemsByCategory`: the flat report grouped by category name, the groups ordered by
    name, each with its items (unchanged) and their total. */
module CategoryReport {
  import opened Wrappers
  import opened Dates
  import opened CategoryRecord
  import opened ExpenseRecord
  import opened Grouping
  import opened GroupOrder
  import opened OrdinalStrings
  import opened BudgetItems
  import opened BudgetReport

  function CategorySummary(g: Group<string, BudgetItem>): BudgetItemsByCategory {
    BudgetItemsByCategory(g.key, g.items, SumAmounts(g.items))
  }

  /** The category groups of `items`, ordered by name. */
  function CategoryGroups(items: seq<BudgetItem>): seq<Group<string, BudgetItem>> {
    OrderByKey(GroupBy(items, ItemCategory))
  }

  /** One summary per category group, in name order. */
  function CategoriesOf(items: seq<BudgetItem>): (r: seq<BudgetItemsByCategory>)
    ensures |r| == |CategoryGroups(items)|
    ensures forall i :: 0 <= i < |r| ==> r[i] == CategorySummary(CategoryGroups(items)[i])
  {
    var gs := CategoryGroups(items);
    seq(|gs|, i requires 0 <= i < |gs| => CategorySummary(gs[i]))
  }

  /** The report `GetBudgetItemsByCategory` returns. */
  function ByCategoryReport(cats: seq<Category>, exps: seq<Expense>, start: Option<Timestamp>, end: Option<Timestamp>,
                            filterFlag: bool, categoryId: int): seq<BudgetItemsByCategory>
  {
    CategoriesOf(FlatReport(cats, exps, start, end, filterFlag, categoryId))
  }

  method GetBudgetItemsByCategory(cats: seq<Category>, exps: seq<Expense>, start: Option<Timestamp>, end: Option<Timestamp>,
                                  filterFlag: bool, categoryId: int)
    returns (summary: seq<BudgetItemsByCategory>)
    ensures summary == ByCategoryReport(cats, exps, start, end, filterFlag, categoryId)
  {
    var items := GetBudgetItems(cats, exps, start, end, filterFlag, categoryId);
    var groupedByCategory := CategoryGroups(items);
    summary := SummarizeCategories(groupedByCategory);
  }

  /** The loop over the ordered category groups: one summary per group, in group order. */
  method SummarizeCategories(groupedByCategory: seq<Group<string, BudgetItem>>)
    returns (summary: seq<BudgetItemsByCategory>)
    ensures |summary| == |groupedByCategory|
    ensures forall k :: 0 <= k < |summary| ==>
              summary[k].category == groupedByCategory[k].key
              && summary[k].details == groupedByCategory[k].items
              && summary[k].total == SumAmounts(groupedByCategory[k].items)
  {
    summary := [];
    var i := 0;
    while i < |groupedByCategory|
      invariant 0 <= i <= |groupedByCategory|
      invariant |summary| == i
      invariant forall k :: 0 <= k < i ==> summary[k] == CategorySummary(groupedByCategory[k])
    {
      var categoryGroup := groupedByCategory[i];
      var total, details := TotalOf(categoryGroup.items);
      summary := summary + [BudgetItemsByCategory(categoryGroup.key, details, total)];
      i := i + 1;
    }
  }

  /** The ordered groups of any item list: names strictly ascending, each group exactly the items
      of its name in their order, and a name has a group exactly when some item carries it. */
  lemma CategoryGroupsCharacterized(items: seq<BudgetItem>, name: string)
    ensures var gs := CategoryGroups(items);
            (forall i, j :: 0 <= i < j < |gs| ==> Less(gs[i].key, gs[j].key))
            && (forall g :: g in gs ==> g.items == Where(items, ItemCategory, g.key) && g.items != [])
            && ((exists i :: 0 <= i < |gs| && gs[i].key == name) <==> (exists i :: 0 <= i < |items| && items[i].category == name))
  {
    GroupByCharacterized(items, ItemCategory, name);
    OrderByKeyAscending(GroupBy(items, ItemCategory));
    CategoryGroupsItems(items);
    CategoryGroupsNames(items, name);
  }

  lemma CategoryGroupsItems(items: seq<BudgetItem>)
    ensures forall g :: g in CategoryGroups(items) ==> g.items == Where(items, ItemCategory, g.key) && g.items != []
  {
    GroupByCharacterized(items, ItemCategory, "");
    OrderByKeyMembers(GroupBy(items, ItemCategory));
  }

  lemma CategoryGroupsNames(items: seq<BudgetItem>, name: string)
    ensures (exists i :: 0 <= i < |CategoryGroups(items)| && CategoryGroups(items)[i].key == name)
            <==> (exists i :: 0 <= i < |items| && items[i].category == name)
  {
    var grouped := GroupBy(items, ItemCategory);
    var gs := CategoryGroups(items);
    GroupByCharacterized(items, ItemCategory, name);
    OrderByKeyMembers(grouped);
    if exists i :: 0 <= i < |gs| && gs[i].key == name {
      var i :| 0 <= i < |gs| && gs[i].key == name;
      assert gs[i] in grouped;
    }
    if exists i :: 0 <= i < |grouped| && grouped[i].key == name {
      var i :| 0 <= i < |grouped| && grouped[i].key == name;
      assert grouped[i] in gs;
      var j :| 0 <= j < |gs| && gs[j] == grouped[i];
    }
    assert forall i :: 0 <= i < |items| ==> ItemCategory(items[i]) == items[i].category;
  }

  /** The category report lists each name that occurs in the flat report once, in strictly
      ascending name order; each entry holds exactly the flat report's items of that name, in
      flat order and unchanged, and its total is their sum. */
  lemma ByCategoryGroups(cats: seq<Category>, exps: seq<Expense>, start: Option<Timestamp>, end: Option<Timestamp>,
                         filterFlag: bool, categoryId: int, name: string)
    ensures var items := FlatReport(cats, exps, start, end, filterFlag, categoryId);
            var r := ByCategoryReport(cats, exps, start, end, filterFlag, categoryId);
            (forall i, j :: 0 <= i < j < |r| ==> Less(r[i].category, r[j].category))
            && (forall i :: 0 <= i < |r| ==>
                  r[i].details == Where(items, ItemCategory, r[i].category)
                  && r[i].details != []
                  && r[i].total == SumAmounts(r[i].details))
            && ((exists i :: 0 <= i < |r| && r[i].category == name) <==> (exists i :: 0 <= i < |items| && items[i].category == name))
  {
    var items := FlatReport(cats, exps, start, end, filterFlag, categoryId);
    var gs := CategoryGroups(items);
    CategoryGroupsCharacterized(items, name);
    forall i | 0 <= i < |gs|
      ensures gs[i].items == Where(items, ItemCategory, gs[i].key) && gs[i].items != []
    {
      assert gs[i] in gs;
    }
    SummariesFromGroups(items, CategoriesOf(items), gs, name);
    SummariesAscending(CategoriesOf(items), gs);
  }

  lemma SummariesFromGroups(items: seq<BudgetItem>, r: seq<BudgetItemsByCategory>, gs: seq<Group<string, BudgetItem>>,
                            name: string)
    requires |r| == |gs|
    requires forall i :: 0 <= i < |r| ==> r[i] == CategorySummary(gs[i])
    requires forall i :: 0 <= i < |gs| ==> gs[i].items == Where(items, ItemCategory, gs[i].key) && gs[i].items != []
    requires (exists i :: 0 <= i < |gs| && gs[i].key == name) <==> (exists i :: 0 <= i < |items| && items[i].category == name)
    ensures forall i :: 0 <= i < |r| ==>
              r[i].details == Where(items, ItemCategory, r[i].category)
              && r[i].details != []
              && r[i].total == SumAmounts(r[i].details)
    ensures (exists i :: 0 <= i < |r| && r[i].category == name) <==> (exists i :: 0 <= i < |items| && items[i].category == name)
  {
    forall i | 0 <= i < |r|
      ensures r[i].details == Where(items, ItemCategory, r[i].category)
    {
      assert r[i].details == gs[i].items && r[i].category == gs[i].key;
    }
  }

  lemma SummariesAscending(r: seq<BudgetItemsByCategory>, gs: seq<Group<string, BudgetItem>>)
    requires |r| == |gs|
    requires forall i :: 0 <= i < |r| ==> r[i] == CategorySummary(gs[i])
    requires forall i, j :: 0 <= i < j < |gs| ==> Less(gs[i].key, gs[j].key)
    ensures forall i, j :: 0 <= i < j < |r| ==> Less(r[i].category, r[j].category)
  {
  }

  function SummaryTotal(s: BudgetItemsByCategory): int {
    s.total
  }

  lemma {:induction false} SummariesSumGroups(r: seq<BudgetItemsByCategory>, gs: seq<Group<string, BudgetItem>>)
    requires |r| == |gs|
    requires forall i :: 0 <= i < |r| ==> r[i].total == SumAmounts(gs[i].items)
    ensures SumBy(r, SummaryTotal) == GroupsSum(gs, ItemAmount)
    decreases |r|
  {
    if r != [] {
      SummariesSumGroups(r[..|r| - 1], gs[..|gs| - 1]);
    }
  }

  /** Every item is counted under exactly one name: the totals of the category report add up to
      the sum of the flat report's amounts. */
  lemma ByCategoryTotalsAddUp(cats: seq<Category>, exps: seq<Expense>, start: Option<Timestamp>, end: Option<Timestamp>,
                              filterFlag: bool, categoryId: int)
    ensures SumBy(ByCategoryReport(cats, exps, start, end, filterFlag, categoryId), SummaryTotal)
            == SumAmounts(FlatReport(cats, exps, start, end, filterFlag, categoryId))
  {
    var items := FlatReport(cats, exps, start, end, filterFlag, categoryId);
    SummariesSumGroups(CategoriesOf(items), CategoryGroups(items));
    OrderByKeySum(GroupBy(items, ItemCategory), ItemAmount);
    GroupBySum(items, ItemCategory, ItemAmount);
  }
}
