/** `GetBudgetDictionaryByCategoryAndMonth`: the cross-tab. One record per month of the monthly
    report, in its order, splitting the month into category cells ordered by name, each with its
    items and subtotal; then one closing record of per-category totals over all months, listed in
    category-list order. The source builds string-keyed dictionaries; here a record is a tagged
    value holding the same data. */
module CrossTab {
  import opened Wrappers
  import opened Dates
  import opened CategoryRecord
  import opened ExpenseRecord
  import opened Grouping
  import opened GroupOrder
  import opened OrdinalStrings
  import opened BudgetItems
  import opened BudgetReport
  import opened MonthReport
  import opened CategoryReport

  /** The items of one category in one month and their subtotal (the month dictionary's
      "details:<name>" and "<name>" entries). */
  datatype CategoryCell = CategoryCell(category: string, subtotal: int, details: seq<BudgetItem>)

  /** One entry of the closing record. */
  datatype CategoryTotal = CategoryTotal(category: string, total: int)

  datatype CrossTabRecord =
    | MonthRecord(month: YearMonth, total: int, cells: seq<CategoryCell>)
    | TotalsRecord(totals: seq<CategoryTotal>)

  function CellName(c: CategoryCell): string {
    c.category
  }

  function CellSubtotal(c: CategoryCell): int {
    c.subtotal
  }

  function CellOf(g: Group<string, BudgetItem>): CategoryCell {
    CategoryCell(g.key, SumAmounts(g.items), g.items)
  }

  /** One cell per group, in group order. */
  function CellsOfGroups(gs: seq<Group<string, BudgetItem>>): (cells: seq<CategoryCell>)
    ensures |cells| == |gs|
    ensures forall i :: 0 <= i < |cells| ==> cells[i] == CellOf(gs[i])
  {
    seq(|gs|, i requires 0 <= i < |gs| => CellOf(gs[i]))
  }

  /** The cells of a month: its category groups in name order. */
  function CellsOf(details: seq<BudgetItem>): seq<CategoryCell> {
    CellsOfGroups(CategoryGroups(details))
  }

  function MonthRecordOf(m: BudgetItemsByMonth): CrossTabRecord {
    MonthRecord(m.month, m.total, CellsOf(m.details))
  }

  /** The running total of `name`, zero before the name has been seen. */
  function Get(totals: map<string, int>, name: string): int {
    if name in totals then totals[name] else 0
  }

  /** The totals map after the cells' subtotals are added in, one cell after another. */
  function AddCells(totals: map<string, int>, cells: seq<CategoryCell>): map<string, int>
  {
    if cells == [] then totals
    else
      var before := AddCells(totals, cells[..|cells| - 1]);
      var c := cells[|cells| - 1];
      before[c.category := Get(before, c.category) + c.subtotal]
  }

  /** The totals map after the cells of the months are added in, month after month. */
  function AddMonths(totals: map<string, int>, months: seq<BudgetItemsByMonth>): map<string, int>
  {
    if months == [] then totals
    else AddCells(AddMonths(totals, months[..|months| - 1]), CellsOf(months[|months| - 1].details))
  }

  lemma AddCellsSnoc(totals: map<string, int>, cells: seq<CategoryCell>, c: CategoryCell)
    ensures AddCells(totals, cells + [c])
            == AddCells(totals, cells)[c.category := Get(AddCells(totals, cells), c.category) + c.subtotal]
  {
    assert (cells + [c])[..|cells|] == cells;
  }

  lemma AddMonthsSnoc(totals: map<string, int>, months: seq<BudgetItemsByMonth>, i: nat)
    requires i < |months|
    ensures AddMonths(totals, months[..i + 1]) == AddCells(AddMonths(totals, months[..i]), CellsOf(months[i].details))
  {
    assert months[..i + 1][..i] == months[..i];
  }

  lemma MonthRecordsSnoc(months: seq<BudgetItemsByMonth>, i: nat)
    requires i < |months|
    ensures MonthRecords(months[..i + 1]) == MonthRecords(months[..i]) + [MonthRecordOf(months[i])]
  {
    var longer, shorter := MonthRecords(months[..i + 1]), MonthRecords(months[..i]) + [MonthRecordOf(months[i])];
    forall k | 0 <= k <= i
      ensures longer[k] == shorter[k]
    {
      if k < i {
        assert months[..i + 1][k] == months[..i][k];
      }
    }
  }

  predicate Named(entries: seq<CategoryTotal>, name: string) {
    exists i :: 0 <= i < |entries| && entries[i].category == name
  }

  /** The closing record's entries: the categories in list order, each description with a total
      once (a repeated description is skipped, as adding a second dictionary key fails and the
      source ignores the failure; so is one without a total, as its lookup fails). */
  function TotalsEntries(cats: seq<Category>, totals: map<string, int>): seq<CategoryTotal>
  {
    if cats == [] then []
    else
      var before := TotalsEntries(cats[..|cats| - 1], totals);
      var d := cats[|cats| - 1].description;
      if d in totals && !Named(before, d) then before + [CategoryTotal(d, totals[d])] else before
  }

  /** One record per month, in month order. */
  function MonthRecords(months: seq<BudgetItemsByMonth>): (records: seq<CrossTabRecord>)
    ensures |records| == |months|
    ensures forall i :: 0 <= i < |months| ==> records[i] == MonthRecordOf(months[i])
  {
    seq(|months|, i requires 0 <= i < |months| => MonthRecordOf(months[i]))
  }

  /** The cross-tab of a monthly report. */
  function CrossTabOf(cats: seq<Category>, months: seq<BudgetItemsByMonth>): seq<CrossTabRecord>
  {
    MonthRecords(months) + [TotalsRecord(TotalsEntries(cats, AddMonths(map[], months)))]
  }

  /** The cross-tab `GetBudgetDictionaryByCategoryAndMonth` returns. */
  function CrossTabReport(cats: seq<Category>, exps: seq<Expense>, start: Option<Timestamp>, end: Option<Timestamp>,
                          filterFlag: bool, categoryId: int): seq<CrossTabRecord>
  {
    CrossTabOf(cats, ByMonthReport(cats, exps, start, end, filterFlag, categoryId))
  }

  method GetBudgetDictionaryByCategoryAndMonth(cats: seq<Category>, exps: seq<Expense>, start: Option<Timestamp>,
                                               end: Option<Timestamp>, filterFlag: bool, categoryId: int)
    returns (summary: seq<CrossTabRecord>)
    ensures summary == CrossTabReport(cats, exps, start, end, filterFlag, categoryId)
  {
    var groupedByMonth := GetBudgetItemsByMonth(cats, exps, start, end, filterFlag, categoryId);
    summary := BuildCrossTab(cats, groupedByMonth);
  }

  /** The month loop, then the loop over the category list. */
  method BuildCrossTab(cats: seq<Category>, groupedByMonth: seq<BudgetItemsByMonth>) returns (summary: seq<CrossTabRecord>)
    ensures summary == CrossTabOf(cats, groupedByMonth)
  {
    var totalsPerCategory;
    summary, totalsPerCategory := MonthRecordsFor(groupedByMonth);
    var totals := CategoryTotals(cats, totalsPerCategory);
    summary := summary + [TotalsRecord(totals)];
  }

  /** The month loop: one record per month, and the per-category totals over all months. */
  method MonthRecordsFor(groupedByMonth: seq<BudgetItemsByMonth>)
    returns (summary: seq<CrossTabRecord>, totalsPerCategory: map<string, int>)
    ensures summary == MonthRecords(groupedByMonth)
    ensures totalsPerCategory == AddMonths(map[], groupedByMonth)
  {
    summary := [];
    totalsPerCategory := map[];
    var i := 0;
    while i < |groupedByMonth|
      invariant 0 <= i <= |groupedByMonth|
      invariant summary == MonthRecords(groupedByMonth[..i])
      invariant totalsPerCategory == AddMonths(map[], groupedByMonth[..i])
    {
      var record;
      record, totalsPerCategory := MonthCells(groupedByMonth[i], totalsPerCategory);
      summary := summary + [record];
      AddMonthsSnoc(map[], groupedByMonth, i);
      MonthRecordsSnoc(groupedByMonth, i);
      i := i + 1;
    }
    assert groupedByMonth[..i] == groupedByMonth;
  }

  /** The closing loop over the category list: each description that has a total and is not yet
      listed is added with its total. */
  method CategoryTotals(cats: seq<Category>, totalsPerCategory: map<string, int>) returns (totals: seq<CategoryTotal>)
    ensures totals == TotalsEntries(cats, totalsPerCategory)
  {
    totals := [];
    var c := 0;
    while c < |cats|
      invariant 0 <= c <= |cats|
      invariant totals == TotalsEntries(cats[..c], totalsPerCategory)
    {
      var description := cats[c].description;
      if description in totalsPerCategory && !Named(totals, description) {
        totals := totals + [CategoryTotal(description, totalsPerCategory[description])];
      }
      assert cats[..c + 1][..c] == cats[..c];
      c := c + 1;
    }
    assert cats[..c] == cats;
  }

  /** The body of the month loop: the month's record, its category cells in name order, and the
      running per-category totals with the month's subtotals added. */
  method MonthCells(month: BudgetItemsByMonth, totalsPerCategory: map<string, int>)
    returns (record: CrossTabRecord, newTotals: map<string, int>)
    ensures record == MonthRecordOf(month)
    ensures newTotals == AddCells(totalsPerCategory, CellsOf(month.details))
  {
    var groupedByCategory := CategoryGroups(month.details);
    var cells;
    cells, newTotals := CellsFor(groupedByCategory, totalsPerCategory);
    record := MonthRecord(month.month, month.total, cells);
  }

  /** The loop over a month's ordered category groups: one cell per group, each subtotal added
      into the running totals (a new name starts at the subtotal). */
  method CellsFor(groupedByCategory: seq<Group<string, BudgetItem>>, totalsPerCategory: map<string, int>)
    returns (cells: seq<CategoryCell>, newTotals: map<string, int>)
    ensures cells == CellsOfGroups(groupedByCategory)
    ensures newTotals == AddCells(totalsPerCategory, cells)
  {
    cells := [];
    newTotals := totalsPerCategory;
    var j := 0;
    while j < |groupedByCategory|
      invariant 0 <= j <= |groupedByCategory|
      invariant |cells| == j
      invariant forall k :: 0 <= k < j ==> cells[k] == CellOf(groupedByCategory[k])
      invariant newTotals == AddCells(totalsPerCategory, cells)
    {
      var categoryGroup := groupedByCategory[j];
      var total, details := TotalOf(categoryGroup.items);
      AddCellsSnoc(totalsPerCategory, cells, CategoryCell(categoryGroup.key, total, details));
      cells := cells + [CategoryCell(categoryGroup.key, total, details)];
      if categoryGroup.key in newTotals {
        newTotals := newTotals[categoryGroup.key := newTotals[categoryGroup.key] + total];
      } else {
        newTotals := newTotals[categoryGroup.key := total];
      }
      j := j + 1;
    }
  }

  /** The position of the first category described `d`, or the length of the list when none is. */
  function FirstDescribed(cats: seq<Category>, d: string): (r: nat)
    ensures r <= |cats|
    ensures forall j :: 0 <= j < r ==> cats[j].description != d
    ensures r < |cats| ==> cats[r].description == d
  {
    if cats == [] then 0
    else
      var before := FirstDescribed(cats[..|cats| - 1], d);
      if before < |cats| - 1 then before
      else if cats[|cats| - 1].description == d then |cats| - 1
      else |cats|
  }

  /** The cells of a month: names strictly ascending, each cell exactly the month's items of its
      name, in order, with their sum as subtotal; a name has a cell exactly when some item of the
      month carries it. */
  lemma CellsCharacterized(details: seq<BudgetItem>, name: string)
    ensures var cells := CellsOf(details);
            (forall i, j :: 0 <= i < j < |cells| ==> Less(cells[i].category, cells[j].category))
            && (forall i :: 0 <= i < |cells| ==>
                  cells[i].details == Where(details, ItemCategory, cells[i].category)
                  && cells[i].details != []
                  && cells[i].subtotal == SumAmounts(cells[i].details))
            && ((exists i :: 0 <= i < |cells| && cells[i].category == name)
                <==> (exists i :: 0 <= i < |details| && details[i].category == name))
  {
    var gs := CategoryGroups(details);
    CategoryGroupsCharacterized(details, name);
    forall i | 0 <= i < |gs|
      ensures gs[i].items == Where(details, ItemCategory, gs[i].key) && gs[i].items != []
    {
      assert gs[i] in gs;
    }
    CellsFromGroups(details, CellsOf(details), CategoryGroups(details), name);
    CellsAscending(CellsOf(details), CategoryGroups(details));
  }

  lemma CellsAscending(cells: seq<CategoryCell>, gs: seq<Group<string, BudgetItem>>)
    requires |cells| == |gs|
    requires forall i :: 0 <= i < |cells| ==> cells[i] == CellOf(gs[i])
    requires forall i, j :: 0 <= i < j < |gs| ==> Less(gs[i].key, gs[j].key)
    ensures forall i, j :: 0 <= i < j < |cells| ==> Less(cells[i].category, cells[j].category)
  {
  }

  lemma CellsFromGroups(details: seq<BudgetItem>, cells: seq<CategoryCell>, gs: seq<Group<string, BudgetItem>>, name: string)
    requires |cells| == |gs|
    requires forall i :: 0 <= i < |cells| ==> cells[i] == CellOf(gs[i])
    requires forall i :: 0 <= i < |gs| ==> gs[i].items == Where(details, ItemCategory, gs[i].key) && gs[i].items != []
    requires (exists i :: 0 <= i < |gs| && gs[i].key == name) <==> (exists i :: 0 <= i < |details| && details[i].category == name)
    ensures forall i :: 0 <= i < |cells| ==>
              cells[i].details == Where(details, ItemCategory, cells[i].category)
              && cells[i].details != []
              && cells[i].subtotal == SumAmounts(cells[i].details)
    ensures (exists i :: 0 <= i < |cells| && cells[i].category == name)
            <==> (exists i :: 0 <= i < |details| && details[i].category == name)
  {
  }

  /** A month has a cell named `name` exactly when one of its items carries that name. */
  lemma CellsNamed(details: seq<BudgetItem>, name: string)
    ensures (exists i :: 0 <= i < |CellsOf(details)| && CellsOf(details)[i].category == name)
            <==> (exists i :: 0 <= i < |details| && details[i].category == name)
  {
    CellsCharacterized(details, name);
  }

  lemma {:induction false} CellsSumGroups(cells: seq<CategoryCell>, gs: seq<Group<string, BudgetItem>>)
    requires |cells| == |gs|
    requires forall i :: 0 <= i < |cells| ==> cells[i].subtotal == SumAmounts(gs[i].items)
    ensures SumBy(cells, CellSubtotal) == GroupsSum(gs, ItemAmount)
    decreases |cells|
  {
    if cells != [] {
      CellsSumGroups(cells[..|cells| - 1], gs[..|gs| - 1]);
    }
  }

  /** The subtotals of a month's cells add up to the sum of its items. */
  lemma CellsSum(details: seq<BudgetItem>)
    ensures SumBy(CellsOf(details), CellSubtotal) == SumAmounts(details)
  {
    var gs := CategoryGroups(details);
    CellsSumGroups(CellsOf(details), gs);
    OrderByKeySum(GroupBy(details, ItemCategory), ItemAmount);
    GroupBySum(details, ItemCategory, ItemAmount);
  }

  /** The cell of `name`, when there is one, is the only one: the subtotals under `name` add up to
      the sum of the month's items of that name. */
  lemma CellsOfName(details: seq<BudgetItem>, name: string)
    ensures SumBy(Where(CellsOf(details), CellName, name), CellSubtotal)
            == SumAmounts(Where(details, ItemCategory, name))
  {
    var cells := CellsOf(details);
    CellsCharacterized(details, name);
    if exists i :: 0 <= i < |cells| && cells[i].category == name {
      var m :| 0 <= m < |cells| && cells[m].category == name;
      forall i | 0 <= i < |cells| && i != m
        ensures CellName(cells[i]) != name
      {
        LessIrreflexive(name);
      }
      WhereUnique(cells, CellName, name, m);
      assert [cells[m]][..0] == [];
    } else {
      WhereAbsent(cells, CellName, name);
      WhereAbsent(details, ItemCategory, name);
    }
  }

  /** Adding cells into the totals map: the total of `name` grows by the subtotals of the cells of
      that name. */
  lemma {:induction false} AddCellsEffect(totals: map<string, int>, cells: seq<CategoryCell>, name: string)
    ensures Get(AddCells(totals, cells), name) == Get(totals, name) + SumBy(Where(cells, CellName, name), CellSubtotal)
    decreases |cells|
  {
    if cells != [] {
      var init := cells[..|cells| - 1];
      var c := cells[|cells| - 1];
      AddCellsEffect(totals, init, name);
      WhereStep(cells, CellName, name);
      SumByAppend(Where(init, CellName, name), if c.category == name then [c] else [], CellSubtotal);
      assert [c][..0] == [];
    }
  }

  /** After adding cells, `name` is a key exactly when it was one or some cell has it. */
  lemma {:induction false} AddCellsDomain(totals: map<string, int>, cells: seq<CategoryCell>, name: string)
    ensures name in AddCells(totals, cells)
            <==> name in totals || exists i :: 0 <= i < |cells| && cells[i].category == name
    decreases |cells|
  {
    if cells != [] {
      var init := cells[..|cells| - 1];
      AddCellsDomain(totals, init, name);
      if exists i :: 0 <= i < |init| && init[i].category == name {
        var i :| 0 <= i < |init| && init[i].category == name;
        assert cells[i].category == name;
      }
      if exists i :: 0 <= i < |cells| && cells[i].category == name {
        var i :| 0 <= i < |cells| && cells[i].category == name;
        if i < |init| {
          assert init[i].category == name;
        }
      }
    }
  }

  /** The totals map after the month loop holds, for each name, the sum of all items of that name
      over all months. */
  lemma {:induction false} AddMonthsTotals(months: seq<BudgetItemsByMonth>, name: string)
    ensures Get(AddMonths(map[], months), name) == SumAmounts(Where(AllDetails(months), ItemCategory, name))
    decreases |months|
  {
    if months != [] {
      var init := months[..|months| - 1];
      var details := months[|months| - 1].details;
      AddMonthsTotals(init, name);
      AddCellsEffect(AddMonths(map[], init), CellsOf(details), name);
      CellsOfName(details, name);
      WhereAppend(AllDetails(init), details, ItemCategory, name);
      SumByAppend(Where(AllDetails(init), ItemCategory, name), Where(details, ItemCategory, name), ItemAmount);
    }
  }

  /** A name is a key of the totals map after the month loop exactly when some item carries it. */
  lemma {:induction false} AddMonthsDomain(months: seq<BudgetItemsByMonth>, name: string)
    ensures name in AddMonths(map[], months) <==> exists item :: item in AllDetails(months) && item.category == name
    decreases |months|
  {
    if months != [] {
      var init := months[..|months| - 1];
      var details := months[|months| - 1].details;
      assert AllDetails(months) == AllDetails(init) + details;
      AddMonthsDomain(init, name);
      AddCellsDomain(AddMonths(map[], init), CellsOf(details), name);
      CellsNamed(details, name);
      DomainStep(AddMonths(map[], init), AddMonths(map[], months), AllDetails(init), details, name);
    }
  }

  lemma DomainStep(before: map<string, int>, after: map<string, int>, seen: seq<BudgetItem>, details: seq<BudgetItem>,
                   name: string)
    requires name in before <==> exists item :: item in seen && item.category == name
    requires name in after <==> name in before || exists i :: 0 <= i < |details| && details[i].category == name
    ensures name in after <==> exists item :: item in seen + details && item.category == name
  {
    if exists i :: 0 <= i < |details| && details[i].category == name {
      var i :| 0 <= i < |details| && details[i].category == name;
      assert details[i] in seen + details;
    }
    if exists item :: item in seen + details && item.category == name {
      var item :| item in seen + details && item.category == name;
      if item !in seen {
        var i :| 0 <= i < |details| && details[i] == item;
      }
    }
  }

  lemma NamedSnoc(entries: seq<CategoryTotal>, t: CategoryTotal, name: string)
    ensures Named(entries + [t], name) <==> Named(entries, name) || t.category == name
  {
    if Named(entries, name) {
      var i :| 0 <= i < |entries| && entries[i].category == name;
      assert (entries + [t])[i].category == name;
    }
    if Named(entries + [t], name) {
      var i :| 0 <= i < |entries + [t]| && (entries + [t])[i].category == name;
      if i < |entries| {
        assert entries[i].category == name;
      }
    }
    assert (entries + [t])[|entries|] == t;
  }

  /** A name is listed in the closing record exactly when it has a total and some category is
      described by it. */
  lemma {:induction false} TotalsEntriesNamed(cats: seq<Category>, totals: map<string, int>, name: string)
    ensures Named(TotalsEntries(cats, totals), name)
            <==> name in totals && exists c :: 0 <= c < |cats| && cats[c].description == name
    decreases |cats|
  {
    if cats != [] {
      var init := cats[..|cats| - 1];
      var d := cats[|cats| - 1].description;
      var before := TotalsEntries(init, totals);
      TotalsEntriesNamed(init, totals, name);
      if d in totals && !Named(before, d) {
        NamedSnoc(before, CategoryTotal(d, totals[d]), name);
      }
      if exists c :: 0 <= c < |init| && init[c].description == name {
        var c :| 0 <= c < |init| && init[c].description == name;
        assert cats[c].description == name;
      }
      if exists c :: 0 <= c < |cats| && cats[c].description == name {
        var c :| 0 <= c < |cats| && cats[c].description == name;
        if c < |init| {
          assert init[c].description == name;
        }
      }
    }
  }

  /** Each entry of the closing record carries its name's total and names a category; the entries
      follow the category list (by each name's first category), so no name is listed twice. */
  lemma {:induction false} TotalsEntriesOrdered(cats: seq<Category>, totals: map<string, int>)
    ensures forall i :: 0 <= i < |TotalsEntries(cats, totals)| ==>
              var entry := TotalsEntries(cats, totals)[i];
              entry.category in totals && entry.total == totals[entry.category] && FirstDescribed(cats, entry.category) < |cats|
    ensures forall i, j :: 0 <= i < j < |TotalsEntries(cats, totals)| ==>
              FirstDescribed(cats, TotalsEntries(cats, totals)[i].category)
              < FirstDescribed(cats, TotalsEntries(cats, totals)[j].category)
    decreases |cats|
  {
    if cats != [] {
      var init := cats[..|cats| - 1];
      var d := cats[|cats| - 1].description;
      var before := TotalsEntries(init, totals);
      TotalsEntriesOrdered(init, totals);
      forall i | 0 <= i < |before|
        ensures FirstDescribed(cats, before[i].category) == FirstDescribed(init, before[i].category)
      {
        assert FirstDescribed(init, before[i].category) < |init|;
      }
      if d in totals && !Named(before, d) {
        TotalsEntriesNamed(init, totals, d);
        assert FirstDescribed(init, d) == |init|;
        assert FirstDescribed(cats, d) == |init|;
      }
    }
  }

  /** The cross-tab holds one record per month of the monthly report, in its order, carrying the
      month and its total; the month's cells are its category cells, and their subtotals add up
      to the month's total. A closing totals record follows. */
  lemma CrossTabMonths(cats: seq<Category>, exps: seq<Expense>, start: Option<Timestamp>, end: Option<Timestamp>,
                       filterFlag: bool, categoryId: int)
    ensures var months := ByMonthReport(cats, exps, start, end, filterFlag, categoryId);
            var r := CrossTabReport(cats, exps, start, end, filterFlag, categoryId);
            |r| == |months| + 1
            && r[|months|].TotalsRecord?
            && forall i :: 0 <= i < |months| ==>
                 r[i].MonthRecord? && r[i].month == months[i].month && r[i].total == months[i].total
                 && r[i].cells == CellsOf(months[i].details)
                 && SumBy(r[i].cells, CellSubtotal) == r[i].total
  {
    var months := ByMonthReport(cats, exps, start, end, filterFlag, categoryId);
    forall i | 0 <= i < |months|
      ensures SumBy(CellsOf(months[i].details), CellSubtotal) == months[i].total
    {
      CellsSum(months[i].details);
    }
  }

  /** The closing record of the cross-tab: a name is listed exactly when some category is
      described by it and some item of the flat report carries it; its total is the sum of the
      amounts of those items over all months; entries follow the category list. */
  lemma CrossTabTotals(cats: seq<Category>, exps: seq<Expense>, start: Option<Timestamp>, end: Option<Timestamp>,
                       filterFlag: bool, categoryId: int, name: string)
    ensures var items := FlatReport(cats, exps, start, end, filterFlag, categoryId);
            var r := CrossTabReport(cats, exps, start, end, filterFlag, categoryId);
            r != [] && r[|r| - 1].TotalsRecord?
            && var e := r[|r| - 1].totals;
               (forall i :: 0 <= i < |e| ==> e[i].total == SumAmounts(Where(items, ItemCategory, e[i].category)))
               && (forall i, j :: 0 <= i < j < |e| ==> FirstDescribed(cats, e[i].category) < FirstDescribed(cats, e[j].category))
               && (Named(e, name) <==> (exists c :: 0 <= c < |cats| && cats[c].description == name)
                                       && (exists item :: item in items && item.category == name))
  {
    var items := FlatReport(cats, exps, start, end, filterFlag, categoryId);
    var months := ByMonthReport(cats, exps, start, end, filterFlag, categoryId);
    var totals := AddMonths(map[], months);
    var e := TotalsEntries(cats, totals);
    ByMonthFlattens(cats, exps, start, end, filterFlag, categoryId);
    TotalsEntriesOrdered(cats, totals);
    TotalsEntriesNamed(cats, totals, name);
    AddMonthsDomain(months, name);
    forall i | 0 <= i < |e|
      ensures e[i].total == SumAmounts(Where(items, ItemCategory, e[i].category))
    {
      AddMonthsTotals(months, e[i].category);
    }
  }
}
