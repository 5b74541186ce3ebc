/** `GetBudgetItemsByMonth`: the flat report grouped by year and month, groups in order of first
    appearance, each with its items (unchanged, running balances included) and their total. */
module MonthReport {
  import opened Wrappers
  import opened Dates
  import opened CategoryRecord
  import opened ExpenseRecord
  import opened Grouping
  import opened BudgetItems
  import opened BudgetReport

  function MonthSummary(g: Group<YearMonth, BudgetItem>): BudgetItemsByMonth {
    BudgetItemsByMonth(g.key, g.items, SumAmounts(g.items))
  }

  /** One summary per month group of `items`, in group order. */
  function MonthsOf(items: seq<BudgetItem>): (months: seq<BudgetItemsByMonth>)
    ensures |months| == |GroupBy(items, ItemMonth)|
    ensures forall i :: 0 <= i < |months| ==> months[i] == MonthSummary(GroupBy(items, ItemMonth)[i])
  {
    var gs := GroupBy(items, ItemMonth);
    seq(|gs|, i requires 0 <= i < |gs| => MonthSummary(gs[i]))
  }

  /** The monthly report `GetBudgetItemsByMonth` returns. */
  function ByMonthReport(cats: seq<Category>, exps: seq<Expense>, start: Option<Timestamp>, end: Option<Timestamp>,
                         filterFlag: bool, categoryId: int): seq<BudgetItemsByMonth>
  {
    MonthsOf(FlatReport(cats, exps, start, end, filterFlag, categoryId))
  }

  method GetBudgetItemsByMonth(cats: seq<Category>, exps: seq<Expense>, start: Option<Timestamp>, end: Option<Timestamp>,
                               filterFlag: bool, categoryId: int)
    returns (summary: seq<BudgetItemsByMonth>)
    ensures summary == ByMonthReport(cats, exps, start, end, filterFlag, categoryId)
  {
    var items := GetBudgetItems(cats, exps, start, end, filterFlag, categoryId);
    var groupedByMonth := GroupBy(items, ItemMonth);
    summary := SummarizeMonths(groupedByMonth);
  }

  /** The loop over the month groups: one summary per group, in group order. */
  method SummarizeMonths(groupedByMonth: seq<Group<YearMonth, BudgetItem>>) returns (summary: seq<BudgetItemsByMonth>)
    ensures |summary| == |groupedByMonth|
    ensures forall k :: 0 <= k < |summary| ==>
              summary[k].month == groupedByMonth[k].key
              && summary[k].details == groupedByMonth[k].items
              && summary[k].total == SumAmounts(groupedByMonth[k].items)
  {
    summary := [];
    var i := 0;
    while i < |groupedByMonth|
      invariant 0 <= i <= |groupedByMonth|
      invariant |summary| == i
      invariant forall k :: 0 <= k < i ==> summary[k] == MonthSummary(groupedByMonth[k])
    {
      var monthGroup := groupedByMonth[i];
      var total, details := TotalOf(monthGroup.items);
      summary := summary + [BudgetItemsByMonth(monthGroup.key, details, total)];
      i := i + 1;
    }
  }

  /** The items of the months, month after month. */
  function AllDetails(months: seq<BudgetItemsByMonth>): seq<BudgetItem>
  {
    if months == [] then [] else AllDetails(months[..|months| - 1]) + months[|months| - 1].details
  }

  predicate DatesAscending(items: seq<BudgetItem>) {
    forall i, j :: 0 <= i < j < |items| ==> items[i].date <= items[j].date
  }

  /** In date order, the items of one month stand together. */
  lemma DatesAscendingContiguous(items: seq<BudgetItem>)
    requires DatesAscending(items)
    ensures Contiguous(items, ItemMonth)
  {
    forall i, j, l | 0 <= i < j < l < |items| && ItemMonth(items[i]) == ItemMonth(items[l])
      ensures ItemMonth(items[j]) == ItemMonth(items[i])
    {
      MonthOfMonotone(items[i].date, items[j].date);
      MonthOfMonotone(items[j].date, items[l].date);
      MonthOfInjective(items[i].date, items[j].date);
    }
  }

  /** In date order, each new month key is later than every key before it. */
  lemma {:induction false} MonthKeysIncreasing(items: seq<BudgetItem>)
    requires DatesAscending(items)
    ensures var ks := Keys(items, ItemMonth);
            forall i, j :: 0 <= i < j < |ks| ==> MonthIndex(ks[i]) < MonthIndex(ks[j])
    decreases |items|
  {
    if items != [] {
      var init := items[..|items| - 1];
      var x := items[|items| - 1];
      MonthKeysIncreasing(init);
      var ks' := Keys(init, ItemMonth);
      if ItemMonth(x) !in ks' {
        forall i | 0 <= i < |ks'|
          ensures MonthIndex(ks'[i]) < MonthIndex(ItemMonth(x))
        {
          KeysMembership(init, ItemMonth, ks'[i]);
          var p :| 0 <= p < |init| && ItemMonth(init[p]) == ks'[i];
          assert items[p] == init[p];
          MonthOfMonotone(init[p].date, x.date);
          MonthOfInjective(init[p].date, x.date);
        }
      }
    }
  }

  lemma {:induction false} AllDetailsOfMonths(items: seq<BudgetItem>, n: nat)
    requires n <= |GroupBy(items, ItemMonth)|
    ensures AllDetails(MonthsOf(items)[..n]) == Flatten(GroupBy(items, ItemMonth)[..n])
  {
    if n > 0 {
      AllDetailsOfMonths(items, n - 1);
      assert MonthsOf(items)[..n][..n - 1] == MonthsOf(items)[..n - 1];
      assert GroupBy(items, ItemMonth)[..n][..n - 1] == GroupBy(items, ItemMonth)[..n - 1];
    }
  }

  /** The months partition the flat report: their items, month after month, are exactly the flat
      report's items in its order, unchanged (running balances included). */
  lemma ByMonthFlattens(cats: seq<Category>, exps: seq<Expense>, start: Option<Timestamp>, end: Option<Timestamp>,
                        filterFlag: bool, categoryId: int)
    ensures AllDetails(ByMonthReport(cats, exps, start, end, filterFlag, categoryId))
            == FlatReport(cats, exps, start, end, filterFlag, categoryId)
  {
    var items := FlatReport(cats, exps, start, end, filterFlag, categoryId);
    var gs := GroupBy(items, ItemMonth);
    FlatReportOrdered(cats, exps, start, end, filterFlag, categoryId);
    DatesAscendingContiguous(items);
    FlattenGroupBy(items, ItemMonth);
    AllDetailsOfMonths(items, |gs|);
    assert gs[..|gs|] == gs;
    assert MonthsOf(items)[..|gs|] == MonthsOf(items);
  }

  /** Each month appears once and the months are in strictly increasing order; each month holds
      exactly the flat report's items of that month, in order, and its total is their sum. */
  lemma ByMonthGroups(cats: seq<Category>, exps: seq<Expense>, start: Option<Timestamp>, end: Option<Timestamp>,
                      filterFlag: bool, categoryId: int)
    ensures var items := FlatReport(cats, exps, start, end, filterFlag, categoryId);
            var months := ByMonthReport(cats, exps, start, end, filterFlag, categoryId);
            (forall i, j :: 0 <= i < j < |months| ==> MonthIndex(months[i].month) < MonthIndex(months[j].month))
            && (forall i :: 0 <= i < |months| ==>
                  months[i].details == Where(items, ItemMonth, months[i].month)
                  && months[i].details != []
                  && months[i].total == SumAmounts(months[i].details))
  {
    var items := FlatReport(cats, exps, start, end, filterFlag, categoryId);
    FlatReportOrdered(cats, exps, start, end, filterFlag, categoryId);
    MonthKeysIncreasing(items);
    GroupByCharacterized(items, ItemMonth, YearMonth(0, 1));
    var gs := GroupBy(items, ItemMonth);
    var months := MonthsOf(items);
    forall i | 0 <= i < |months|
      ensures months[i].details == Where(items, ItemMonth, months[i].month)
      ensures months[i].details != []
      ensures months[i].total == SumAmounts(months[i].details)
    {
      assert gs[i] in gs;
      assert months[i] == MonthSummary(gs[i]);
    }
    forall i, j | 0 <= i < j < |months|
      ensures MonthIndex(months[i].month) < MonthIndex(months[j].month)
    {
      assert months[i].month == Keys(items, ItemMonth)[i];
      assert months[j].month == Keys(items, ItemMonth)[j];
    }
  }
}
