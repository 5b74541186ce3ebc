# HomeBudget reporting engine in Dafny

This project models the reporting core of HomeBudget, a personal-finance ledger. The ledger keeps
a list of categories and a list of dated expenses. The `HomeBudget` class turns them into four
reports:

- `GetBudgetItems`, the flat report. It joins every category with its expenses inside a date
  range, sorts the rows by date and optionally keeps only one category id. It negates each amount
  and carries a running balance.
- `GetBudgetItemsByMonth`, the flat report grouped by year and month. Months come in order of
  first appearance, and each month carries its items and their total.
- `GetBudgetItemsByCategory`, the flat report grouped by category description. The groups are
  in name order, and each carries its items and their total.
- `GetBudgetDictionaryByCategoryAndMonth`, the cross-tab. It holds one record per month, split into
  per-category cells in name order. A closing `TOTALS` record follows, with one total per category
  description in the order of the category list.

The project also models the in-memory category list (`Categories`), the two records it
stores (`Category`, `Expense`) and the report records (`BudgetItem`, `BudgetItemsByMonth`,
`BudgetItemsByCategory`).

Modules:

- `Dates`: timestamps and the year/month key.
- `CategoryRecord`, `ExpenseRecord`: the records and their constructors.
- `CategoryList`: the category list as a class over a `seq`.
- `OrdinalStrings`: the ordinal string order that sorts group names.
- `Grouping`, `GroupOrder`: LINQ `GroupBy` (groups in order of first appearance) and a stable
  `OrderBy` over group keys.
- `BudgetQuery`: the join, the stable date sort and the category filter.
- `BudgetItems`: the report records.
- `BudgetReport`, `MonthReport`, `CategoryReport`, `CrossTab`: the four reports.

Each report is a method written like the source's loops. Each method is proved equal to a
specification function, and lemmas state what that function promises.

Decisions where the code is followed:

- An item's `Amount` is the NEGATED expense amount (`Amount = -e.Amount`). Its `Balance` is the
  running total `total - e.Amount` over the rows kept so far. So a balance is the running sum of
  the item amounts.
- With the filter flag set, the flat report KEEPS only the rows of `CategoryID`. Rows that the
  filter drops do not touch the running total.
- The month and category reports reuse the flat report's items unchanged, running balances
  included; only the group totals are new.
- The month key is the `(year, month)` pair that the "YYYY/MM" string is made from.

## Model

| member | source | states |
|---|---|---|
| `Dates.MonthOfEncodeDate` | BudgetSolution/HomeBudget.cs:550 | the month key of a valid calendar date is that date's own year and month |
| `Dates.EncodeDateMonotone` | BudgetSolution/HomeBudget.cs:438 | one valid date is before another exactly when its timestamp is smaller, and two timestamps are equal exactly when the dates are, so the range test and the date sort compare dates as `DateTime` does |
| `Dates.MonthOfMonotone` | BudgetSolution/HomeBudget.cs:550 | a later date never falls in an earlier month, so date order is month order |
| `CategoryRecord.OrdinalBijective` | BudgetSolution/Category.cs:42-48 | the four types are numbered 0..3 in declaration order; each number in range names exactly one type, and no other number names any |
| `CategoryRecord.StoredTypeRoundTrip` | BudgetSolution/Categories.cs:98 | a type written to the store as ordinal+1 and read back as id-1 is the same type; every readable id is the one its type is written as |
| `CategoryRecord.NewCategory` | BudgetSolution/Category.cs:64-69 | the constructor stores id, description and type as given; no check is made |
| `CategoryRecord.NewCategoryDefaultsToExpense` | BudgetSolution/Category.cs:64 | a category built without a type is an `Expense` category |
| `CategoryRecord.CopyCategory` | BudgetSolution/Category.cs:84-89 | the copy has the original's three fields |
| `CategoryRecord.ToString` | BudgetSolution/Category.cs:97-100 | a category prints as its description |
| `ExpenseRecord.NewExpense` | BudgetSolution/Expense.cs:65-75 | construction fails with the empty-description error exactly when the description is null or empty; otherwise it stores all five arguments unchanged |
| `ExpenseRecord.NewExpenseIgnoresCategory` | BudgetSolution/Expense.cs:65-75 | whether construction succeeds does not depend on the category id: ids that no category has are accepted |
| `ExpenseRecord.CopyExpense` | BudgetSolution/Expense.cs:90-97 | the copy has the original's five fields |
| `OrdinalStrings.LessTransitive` | BudgetSolution/HomeBudget.cs:681 | the name order used to sort groups is transitive |
| `OrdinalStrings.LessTotal` | BudgetSolution/HomeBudget.cs:681 | any two different names are ordered one way or the other |
| `OrdinalStrings.LessIrreflexive` | BudgetSolution/HomeBudget.cs:681 | no name is before itself |
| `OrdinalStrings.LessAsymmetric` | BudgetSolution/HomeBudget.cs:681 | two names are never ordered both ways |
| `CategoryList.IndexOfId` | BudgetSolution/Categories.cs:258 | `FindIndex`: the first position holding the id, or -1 exactly when no category has it |
| `CategoryList.MaxIdIsMaximum` | BudgetSolution/Categories.cs:219 | the largest id of a non-empty list is some category's id and no id exceeds it |
| `CategoryList.NextIdIsFresh` | BudgetSolution/Categories.cs:214-225 | the id given to an added category is held by no existing category, so ids stay unique |
| `CategoryList.NextIdAfterConsecutive` | BudgetSolution/Categories.cs:216-221 | on a list numbered 1..n the next id is n+1 |
| `CategoryList.RemoveFirstIdExact` | BudgetSolution/Categories.cs:256-271 | on a list with unique ids, deleting an id that is present removes exactly that one category, keeps the others in order and leaves no category with the id; deleting an absent id changes nothing |
| `CategoryList.DefaultCategories` | BudgetSolution/Categories.cs:176-191 | sixteen defaults numbered 1..16 |
| `CategoryList.DefaultsAddedToEmpty` | BudgetSolution/Categories.cs:165-192 | the sixteen `Add` calls made on a cleared list yield exactly the default list |
| `CategoryList.Categories.constructor` | BudgetSolution/Categories.cs:56-59 | a new list holds exactly the defaults and its ids are unique |
| `CategoryList.Categories.GetCategoryFromId` | BudgetSolution/Categories.cs:78-86 | succeeds exactly when some category has the id and returns the first such; otherwise fails with category-not-found |
| `CategoryList.Categories.SetCategoriesToDefaults` | BudgetSolution/Categories.cs:165-192 | whatever was there before, the list becomes the sixteen defaults |
| `CategoryList.Categories.Add` | BudgetSolution/Categories.cs:214-225 | appends one category whose id is one more than the largest id (1 on an empty list), keeping ids unique |
| `CategoryList.Categories.Delete` | BudgetSolution/Categories.cs:256-271 | removes the first category with the id, or nothing when there is none, keeping ids unique |
| `CategoryList.Categories.List` | BudgetSolution/Categories.cs:291-300 | a new list of field-for-field copies, in the same order |
| `Grouping.GroupByCharacterized` | BudgetSolution/HomeBudget.cs:550 | a key has a group exactly when some element has that key; keys are pairwise distinct; each group is exactly its key's elements, in order, and never empty |
| `Grouping.KeysDistinct` | BudgetSolution/HomeBudget.cs:550 | group keys never repeat |
| `Grouping.FlattenGroupBy` | BudgetSolution/HomeBudget.cs:550 | when equal keys stand together, the groups laid end to end give back the input exactly |
| `Grouping.GroupBySum` | BudgetSolution/HomeBudget.cs:556-574 | grouping loses and duplicates nothing: the group sums add up to the sum of the input |
| `GroupOrder.OrderByKeyAscending` | BudgetSolution/HomeBudget.cs:681 | groups with distinct keys come out in strictly ascending name order |
| `GroupOrder.OrderByKeyMembers` | BudgetSolution/HomeBudget.cs:681 | ordering keeps exactly the same groups |
| `GroupOrder.OrderByKeySum` | BudgetSolution/HomeBudget.cs:681-698 | ordering the groups leaves the sum of all group totals unchanged |
| `BudgetQuery.JoinRow` | BudgetSolution/HomeBudget.cs:439 | a joined row takes its category id and name from the category and its id, date, description and amount from the expense |
| `BudgetQuery.JoinMembership` | BudgetSolution/HomeBudget.cs:436-439 | a row is in the join exactly when it pairs a listed category with an expense of that category dated within [start, end] |
| `BudgetQuery.SortByDateSorted` | BudgetSolution/HomeBudget.cs:447 | the sorted rows are in non-decreasing date order |
| `BudgetQuery.SortByDate` | BudgetSolution/HomeBudget.cs:447 | sorting is a permutation of the rows |
| `BudgetQuery.SortByDateStable` | BudgetSolution/HomeBudget.cs:447 | the sort is stable: the rows of any one date keep their join order |
| `BudgetQuery.KeepMembership` | BudgetSolution/HomeBudget.cs:450-453 | a row survives the filter exactly when it is present and the flag is off or its category id is the one asked for; with the flag off nothing is dropped |
| `BudgetQuery.KeepSorted` | BudgetSolution/HomeBudget.cs:447-453 | filtering keeps date order |
| `BudgetQuery.KeepWhereDate` | BudgetSolution/HomeBudget.cs:447-453 | filtering commutes with selecting one date, so the relative order of kept rows is untouched |
| `BudgetItems.TotalOf` | BudgetSolution/HomeBudget.cs:558-564 | the inner loop of a group copies its items unchanged and sums their amounts |
| `BudgetReport.GetBudgetItems` | BudgetSolution/HomeBudget.cs:428-470 | the flat report: missing bounds default to 1900-01-01 and 2500-01-01, and the rows are joined, sorted by date, filtered and itemized |
| `BudgetReport.ItemsOf` | BudgetSolution/HomeBudget.cs:445-467 | the item loop skips rejected rows and emits one item per kept row, its balance lowered by the row amount |
| `BudgetReport.ItemizeRows` | BudgetSolution/HomeBudget.cs:457-466 | the items are the kept rows, in order, each with its amount negated and its other fields copied |
| `BudgetReport.ItemizeRunning` | BudgetSolution/HomeBudget.cs:456 | each item's balance is the previous balance plus its own amount |
| `BudgetReport.RunningFromSums` | BudgetSolution/HomeBudget.cs:456 | a running balance equals the start plus the sum of the amounts up to and including that item |
| `BudgetReport.FlatReportOrdered` | BudgetSolution/HomeBudget.cs:447 | the flat report is in non-decreasing date order |
| `BudgetReport.FlatReportMembership` | BudgetSolution/HomeBudget.cs:433-453 | a row is reported exactly when it pairs a listed category with one of its expenses dated within the (defaulted) range and the filter keeps it |
| `BudgetReport.FlatReportBounds` | BudgetSolution/HomeBudget.cs:438-453 | every item is dated within the range and, with the flag set, is of the requested category |
| `BudgetReport.FlatReportPermutation` | BudgetSolution/HomeBudget.cs:436-453 | per date, the report is the filtered join in join order; without the flag it is a permutation of the whole join |
| `BudgetReport.FlatReportBalances` | BudgetSolution/HomeBudget.cs:456-465 | the first balance is the first amount, each balance adds its amount to the previous one, and the last balance is the sum of all amounts |
| `MonthReport.GetBudgetItemsByMonth` | BudgetSolution/HomeBudget.cs:540-577 | the monthly report is the flat report grouped by month and summarized |
| `MonthReport.SummarizeMonths` | BudgetSolution/HomeBudget.cs:556-574 | one summary per month group, in group order, with the group's key, its items unchanged and their sum |
| `MonthReport.MonthKeysIncreasing` | BudgetSolution/HomeBudget.cs:550 | over date-ordered items, each new month key is later than all earlier ones |
| `MonthReport.ByMonthFlattens` | BudgetSolution/HomeBudget.cs:540-577 | the months' items, month after month, are exactly the flat report, in order and unchanged |
| `MonthReport.ByMonthGroups` | BudgetSolution/HomeBudget.cs:550-574 | months are strictly increasing (hence distinct); each holds exactly the flat report's items of that month, never none, and its total is their sum |
| `CategoryReport.GetBudgetItemsByCategory` | BudgetSolution/HomeBudget.cs:665-701 | the category report is the flat report grouped by name, ordered by name and summarized |
| `CategoryReport.SummarizeCategories` | BudgetSolution/HomeBudget.cs:684-698 | one summary per ordered group, with the group's name, its items unchanged and their sum |
| `CategoryReport.CategoryGroupsCharacterized` | BudgetSolution/HomeBudget.cs:675-681 | ordered groups: names strictly ascending, each group exactly the items of its name, and a name has a group exactly when an item carries it |
| `CategoryReport.ByCategoryGroups` | BudgetSolution/HomeBudget.cs:665-701 | each name of the flat report appears once, in strictly ascending order, holding exactly its items in flat order with their sum as total; no other name appears |
| `CategoryReport.ByCategoryTotalsAddUp` | BudgetSolution/HomeBudget.cs:675-698 | the `total` fields of the category report add up to the sum of the flat report's amounts: every item is counted under exactly one name |
| `CrossTab.GetBudgetDictionaryByCategoryAndMonth` | BudgetSolution/HomeBudget.cs:787-862 | the cross-tab is built from the monthly report and the category list |
| `CrossTab.BuildCrossTab` | BudgetSolution/HomeBudget.cs:798-860 | the month records followed by the `TOTALS` record |
| `CrossTab.MonthRecordsFor` | BudgetSolution/HomeBudget.cs:800-843 | the month loop yields one record per month and accumulates every cell subtotal into the per-category totals |
| `CrossTab.MonthCells` | BudgetSolution/HomeBudget.cs:802-842 | a month record carries the month, its total and its cells; the month's subtotals are added into the totals |
| `CrossTab.CellsFor` | BudgetSolution/HomeBudget.cs:813-839 | one cell per ordered group; each subtotal is added to the name's total, or starts it when the name is new |
| `CrossTab.CategoryTotals` | BudgetSolution/HomeBudget.cs:845-856 | the closing loop walks the category list; a description gets an entry when it has a total and no earlier category has that description |
| `CrossTab.FirstDescribed` | BudgetSolution/HomeBudget.cs:849-856 | the first position in the category list holding a description, or the list length when none does |
| `CrossTab.CellsCharacterized` | BudgetSolution/HomeBudget.cs:808-824 | a month's cells: names strictly ascending, each cell exactly the month's items of its name with their sum, and a name has a cell exactly when one of the month's items carries it |
| `CrossTab.CellsSum` | BudgetSolution/HomeBudget.cs:808-824 | a month's cell subtotals add up to the sum of its items |
| `CrossTab.CellsOfName` | BudgetSolution/HomeBudget.cs:826-838 | the subtotals under one name in a month add up to the month's items of that name |
| `CrossTab.AddCellsEffect` | BudgetSolution/HomeBudget.cs:831-838 | adding cells raises a name's total by exactly that name's subtotals and leaves the other totals alone |
| `CrossTab.AddCellsDomain` | BudgetSolution/HomeBudget.cs:831-838 | after adding cells, a name has a total exactly when it had one or a cell carries it |
| `CrossTab.AddMonthsTotals` | BudgetSolution/HomeBudget.cs:800-843 | after the month loop, each name's total is the sum of all items of that name over all months |
| `CrossTab.AddMonthsDomain` | BudgetSolution/HomeBudget.cs:800-843 | after the month loop, a name has a total exactly when some item carries it |
| `CrossTab.TotalsEntriesNamed` | BudgetSolution/HomeBudget.cs:847-856 | a description is listed in `TOTALS` exactly when it has a total and some category has it |
| `CrossTab.TotalsEntriesOrdered` | BudgetSolution/HomeBudget.cs:847-856 | each `TOTALS` entry carries its name's total; entries follow the category list order and no description is listed twice |
| `CrossTab.CrossTabMonths` | BudgetSolution/HomeBudget.cs:787-858 | one record per month of the monthly report, in its order, then `TOTALS` last; each month record's cells are its category groups and their subtotals add up to the month total |
| `CrossTab.CrossTabTotals` | BudgetSolution/HomeBudget.cs:787-858 | the last record is `TOTALS`; each entry's total is the sum of the flat report's items of that name; entries are in category-list order; a name is listed exactly when some category has it and some reported item carries it |

## Left out

- Persistence is not modelled. The SQLite connection, the `categories` table, reading and saving the
  `.cats`/`.exps` files, and the `HomeBudget` constructors and file methods that drive them are all
  left out. The category list and the expense list are plain inputs.
- The `Expenses` class is not part of this model; the reports take its list as a `seq<Expense>`.
- Amounts are integers (cents) rather than `Double`. Rounding and floating-point summation order are not modelled.
- `DateTime` becomes an integer timestamp whose months occupy fixed 31-day slots (`Dates`). The
  encoding keeps the order of valid dates (`Dates.EncodeDateMonotone`) and their year and month
  (`Dates.MonthOfEncodeDate`). Fractions of a second and calendar arithmetic are not modelled.
- The month key is the `(year, month)` pair. Its "YYYY/MM" string formatting is not modelled.
- `OrderBy` over group names uses the default culture-aware string comparer. The model sorts by
  ordinal (character-code) order, which agrees on the ASCII names of the default categories but
  not on every culture-specific ordering.
- The cross-tab records are datatypes rather than `Dictionary<string, object>`. Collisions between
  a category named "Month", "Total" or "details:…" and those fixed keys inside one dictionary
  are not modelled.
- `CategoryList.Categories.Add`: the id is an unbounded integer. The 32-bit overflow of `Max() + 1`
  past `int.MaxValue` is not modelled.
- Null strings are modelled only where the source checks for them (the expense constructor); elsewhere a
  description is always a string.
- The `GetCategoryFromId` exception is modelled as a `Failure` result, not as a thrown exception.
- In the cross-tab, `TOTALS` skips a description that already has an entry because `Dictionary.Add`
  throws on a repeated key and the empty `catch` swallows the error. The model skips
  such a description directly; it does not model the exception itself.
- The loops of the reports sit in helper methods (`ItemsOf`, `SummarizeMonths`,
  `SummarizeCategories`, `MonthRecordsFor`, `CellsFor`, `CategoryTotals`), which the report methods call
  in the source's order.
- `CategoryList.Categories.GetCategoryFromId`, `CategoryList.Categories.List`: a `Category` is an
  immutable value here, while in the source it is an object with public setters. So the model
  does not capture that `GetCategoryFromId` returns the stored object itself, which a caller
  can change and thereby change the list. It also does not capture that `List()` returns
  independent copies rather than aliases; its field-for-field copies are the only part modelled.
- `CategoryRecord.TypeFromStored`: a stored type id outside 1..4 reads back as `None`. In the
  source the cast never fails and yields an unnamed enumeration value. Only a store whose type
  ids escape the type table could hold such an id.
