/** The records the reports return. */
module BudgetItems {
  import opened Dates
  import opened Grouping

  /** One expense as a report line. `amount` is the expense's amount negated and `balance` the
      running balance of the report it belongs to. */
  datatype BudgetItem = BudgetItem(
    categoryId: int,
    expenseId: int,
    date: Timestamp,
    category: string,
    shortDescription: string,
    amount: int,
    balance: int)

  /** The items of one month and their total. */
  datatype BudgetItemsByMonth = BudgetItemsByMonth(month: YearMonth, details: seq<BudgetItem>, total: int)

  /** The items of one category name and their total. */
  datatype BudgetItemsByCategory = BudgetItemsByCategory(category: string, details: seq<BudgetItem>, total: int)

  function ItemAmount(item: BudgetItem): int {
    item.amount
  }

  /** The grouping key of the monthly report: the year and month of the item's date. */
  function ItemMonth(item: BudgetItem): YearMonth {
    MonthOf(item.date)
  }

  /** The grouping key of the category reports: the category's description. */
  function ItemCategory(item: BudgetItem): string {
    item.category
  }

  function SumAmounts(items: seq<BudgetItem>): int {
    SumBy(items, ItemAmount)
  }

  /** The loop every grouped report runs over one group: it adds up the amounts and copies the
      items, unchanged, into a fresh details list. */
  method TotalOf(group: seq<BudgetItem>) returns (total: int, details: seq<BudgetItem>)
    ensures details == group
    ensures total == SumAmounts(group)
  {
    total := 0;
    details := [];
    var i := 0;
    while i < |group|
      invariant 0 <= i <= |group|
      invariant details == group[..i]
      invariant total == SumAmounts(details)
    {
      var item := group[i];
      total := total + item.amount;
      details := details + [item];
      i := i + 1;
      assert details[..|details| - 1] == group[..i - 1];
    }
    assert group[..i] == group;
  }
}
