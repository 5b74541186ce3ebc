/** `GetBudgetItems`: the flat report. The query rows, in date order, become budget items whose
    amount is the expense amount negated and whose balance is the running total of the items
    kept so far. The category list and the expense list are the snapshots the source takes with
    `List()`; a missing start or end date is the default 1900-01-01 or 2500-01-01. */
module BudgetReport {
  import opened Wrappers
  import opened Dates
  import opened CategoryRecord
  import opened ExpenseRecord
  import opened Grouping
  import opened BudgetQuery
  import opened BudgetItems

  /** The item made from row `r` once the running total has reached `balance`. */
  function ItemOf(r: Row, balance: int): BudgetItem {
    BudgetItem(r.catId, r.expId, r.date, r.category, r.description, -r.amount, balance)
  }

  /** The query row an item was made from (its amount negated back). */
  function SourceRow(item: BudgetItem): Row {
    Row(item.categoryId, item.expenseId, item.date, item.category, item.shortDescription, -item.amount)
  }

  function SourceRows(items: seq<BudgetItem>): (rows: seq<Row>)
    ensures |rows| == |items|
    ensures forall k :: 0 <= k < |items| ==> rows[k] == SourceRow(items[k])
  {
    seq(|items|, k requires 0 <= k < |items| => SourceRow(items[k]))
  }

  /** The report loop from a running total of `total`: rows the filter rejects are skipped, and
      every other row lowers the total by its amount and becomes an item carrying the new total. */
  function Itemize(rows: seq<Row>, filterFlag: bool, categoryId: int, total: int): seq<BudgetItem>
  {
    if rows == [] then []
    else if filterFlag && categoryId != rows[0].catId then Itemize(rows[1..], filterFlag, categoryId, total)
    else
      var t := total - rows[0].amount;
      [ItemOf(rows[0], t)] + Itemize(rows[1..], filterFlag, categoryId, t)
  }

  /** The start and end the query uses. */
  function StartOf(start: Option<Timestamp>): Timestamp {
    start.GetOr(DefaultStart)
  }

  function EndOf(end: Option<Timestamp>): Timestamp {
    end.GetOr(DefaultEnd)
  }

  /** The query rows in the order the report visits them. */
  function SortedQuery(cats: seq<Category>, exps: seq<Expense>, start: Option<Timestamp>, end: Option<Timestamp>): seq<Row> {
    SortByDate(Join(cats, exps, StartOf(start), EndOf(end)))
  }

  /** The flat report `GetBudgetItems` returns. */
  function FlatReport(cats: seq<Category>, exps: seq<Expense>, start: Option<Timestamp>, end: Option<Timestamp>,
                      filterFlag: bool, categoryId: int): seq<BudgetItem>
  {
    Itemize(SortedQuery(cats, exps, start, end), filterFlag, categoryId, 0)
  }

  method GetBudgetItems(cats: seq<Category>, exps: seq<Expense>, start: Option<Timestamp>, end: Option<Timestamp>,
                        filterFlag: bool, categoryId: int)
    returns (items: seq<BudgetItem>)
    ensures items == FlatReport(cats, exps, start, end, filterFlag, categoryId)
  {
    var s := start.GetOr(DefaultStart);
    var e := end.GetOr(DefaultEnd);
    var query := SortByDate(Join(cats, exps, s, e));
    items := ItemsOf(query, filterFlag, categoryId);
  }

  /** The loop of `GetBudgetItems` over the sorted query rows. */
  method ItemsOf(query: seq<Row>, filterFlag: bool, categoryId: int) returns (items: seq<BudgetItem>)
    ensures items == Itemize(query, filterFlag, categoryId, 0)
  {
    items := [];
    var total := 0;
    var i := 0;
    while i < |query|
      invariant 0 <= i <= |query|
      invariant items + Itemize(query[i..], filterFlag, categoryId, total) == Itemize(query, filterFlag, categoryId, 0)
    {
      var r := query[i];
      assert query[i..][1..] == query[i + 1..];
      i := i + 1;
      if filterFlag && categoryId != r.catId {
        continue;
      }
      total := total - r.amount;
      items := items + [ItemOf(r, total)];
    }
  }

  /** Item `k` follows item `k - 1` by its own amount; the first starts from `total`. */
  predicate RunningFrom(items: seq<BudgetItem>, total: int) {
    (items != [] ==> items[0].balance == total + items[0].amount)
    && forall k :: 0 < k < |items| ==> items[k].balance == items[k - 1].balance + items[k].amount
  }

  /** The items are the rows the filter keeps, in order, each with its amount negated. */
  lemma {:induction false} ItemizeRows(rows: seq<Row>, filterFlag: bool, categoryId: int, total: int)
    ensures SourceRows(Itemize(rows, filterFlag, categoryId, total)) == Keep(rows, filterFlag, categoryId)
    decreases |rows|
  {
    if rows != [] {
      var r := rows[0];
      assert rows == [r] + rows[1..];
      KeepCons(r, rows[1..], filterFlag, categoryId);
      if filterFlag && categoryId != r.catId {
        ItemizeRows(rows[1..], filterFlag, categoryId, total);
      } else {
        var t := total - r.amount;
        ItemizeRows(rows[1..], filterFlag, categoryId, t);
        var rest := Itemize(rows[1..], filterFlag, categoryId, t);
        assert SourceRows([ItemOf(r, t)] + rest) == [r] + SourceRows(rest);
      }
    }
  }

  /** Each item's balance is the previous balance plus its own amount. */
  lemma {:induction false} ItemizeRunning(rows: seq<Row>, filterFlag: bool, categoryId: int, total: int)
    ensures RunningFrom(Itemize(rows, filterFlag, categoryId, total), total)
    decreases |rows|
  {
    if rows != [] {
      if filterFlag && categoryId != rows[0].catId {
        ItemizeRunning(rows[1..], filterFlag, categoryId, total);
      } else {
        var t := total - rows[0].amount;
        ItemizeRunning(rows[1..], filterFlag, categoryId, t);
        var rest := Itemize(rows[1..], filterFlag, categoryId, t);
        var items := [ItemOf(rows[0], t)] + rest;
        forall k | 0 < k < |items|
          ensures items[k].balance == items[k - 1].balance + items[k].amount
        {
          assert items[k] == rest[k - 1];
          if k > 1 {
            assert items[k - 1] == rest[k - 2];
          }
        }
      }
    }
  }

  /** A running balance from `total` is `total` plus the amounts up to and including the item. */
  lemma {:induction false} RunningFromSums(items: seq<BudgetItem>, total: int)
    requires RunningFrom(items, total)
    ensures forall k :: 0 <= k < |items| ==> items[k].balance == total + SumAmounts(items[..k + 1])
    decreases |items|
  {
    if items != [] {
      var init := items[..|items| - 1];
      assert RunningFrom(init, total);
      RunningFromSums(init, total);
      var n := |items| - 1;
      assert items[..n + 1][..n] == items[..n];
      forall k | 0 <= k < |items|
        ensures items[k].balance == total + SumAmounts(items[..k + 1])
      {
        if k < n {
          assert items[..k + 1] == init[..k + 1];
        } else if k > 0 {
          assert items[..k + 1][..k] == items[..k] == init[..k - 1 + 1];
          assert init[k - 1] == items[k - 1];
          assert items[k - 1].balance == total + SumAmounts(init[..k - 1 + 1]);
          assert SumAmounts(items[..k + 1]) == SumAmounts(items[..k]) + items[k].amount;
        } else {
          assert items[..1][..0] == [];
          assert SumAmounts(items[..1]) == SumAmounts([]) + items[0].amount;
        }
      }
    }
  }

  /** Items come out in non-decreasing date order. */
  lemma FlatReportOrdered(cats: seq<Category>, exps: seq<Expense>, start: Option<Timestamp>, end: Option<Timestamp>,
                          filterFlag: bool, categoryId: int)
    ensures var items := FlatReport(cats, exps, start, end, filterFlag, categoryId);
            forall i, j :: 0 <= i < j < |items| ==> items[i].date <= items[j].date
  {
    var query := SortedQuery(cats, exps, start, end);
    var items := FlatReport(cats, exps, start, end, filterFlag, categoryId);
    SortByDateSorted(Join(cats, exps, StartOf(start), EndOf(end)));
    KeepSorted(query, filterFlag, categoryId);
    ItemizeRows(query, filterFlag, categoryId, 0);
    assert forall k :: 0 <= k < |items| ==> items[k].date == SourceRows(items)[k].date;
  }

  /** Which rows the report holds: exactly the pairs of a listed category and one of its
      expenses dated within [start, end] (the defaults standing in for missing bounds) that the
      filter keeps. So with the flag set every item is of `categoryId`, and without it no item is
      dropped for its category. */
  lemma FlatReportMembership(cats: seq<Category>, exps: seq<Expense>, start: Option<Timestamp>, end: Option<Timestamp>,
                             filterFlag: bool, categoryId: int, r: Row)
    ensures r in SourceRows(FlatReport(cats, exps, start, end, filterFlag, categoryId))
        <==> Paired(cats, exps, StartOf(start), EndOf(end), r)
             && Kept(r, filterFlag, categoryId)
  {
    var join := Join(cats, exps, StartOf(start), EndOf(end));
    var query := SortedQuery(cats, exps, start, end);
    ItemizeRows(query, filterFlag, categoryId, 0);
    KeepMembership(query, filterFlag, categoryId, r);
    assert r in query <==> r in multiset(join);
    JoinMembership(cats, exps, StartOf(start), EndOf(end), r);
  }

  /** Every item is dated within the range and, when the flag is set, is of `categoryId`. */
  lemma FlatReportBounds(cats: seq<Category>, exps: seq<Expense>, start: Option<Timestamp>, end: Option<Timestamp>,
                         filterFlag: bool, categoryId: int)
    ensures var items := FlatReport(cats, exps, start, end, filterFlag, categoryId);
            forall k :: 0 <= k < |items| ==>
              InRange(items[k].date, StartOf(start), EndOf(end)) && (filterFlag ==> items[k].categoryId == categoryId)
  {
    var items := FlatReport(cats, exps, start, end, filterFlag, categoryId);
    forall k | 0 <= k < |items|
      ensures InRange(items[k].date, StartOf(start), EndOf(end)) && (filterFlag ==> items[k].categoryId == categoryId)
    {
      var r := SourceRows(items)[k];
      FlatReportMembership(cats, exps, start, end, filterFlag, categoryId, r);
    }
  }

  /** The report holds each kept row as often as the join does: it is a reordering of the
      filtered join, and without the flag a reordering of the whole join. */
  lemma FlatReportPermutation(cats: seq<Category>, exps: seq<Expense>, start: Option<Timestamp>, end: Option<Timestamp>,
                              filterFlag: bool, categoryId: int)
    ensures var join := Join(cats, exps, StartOf(start), EndOf(end));
            forall d :: Where(SourceRows(FlatReport(cats, exps, start, end, filterFlag, categoryId)), RowDate, d)
                        == Keep(Where(join, RowDate, d), filterFlag, categoryId)
    ensures !filterFlag ==>
              multiset(SourceRows(FlatReport(cats, exps, start, end, filterFlag, categoryId)))
              == multiset(Join(cats, exps, StartOf(start), EndOf(end)))
  {
    var join := Join(cats, exps, StartOf(start), EndOf(end));
    var query := SortedQuery(cats, exps, start, end);
    ItemizeRows(query, filterFlag, categoryId, 0);
    forall d
      ensures Where(Keep(query, filterFlag, categoryId), RowDate, d) == Keep(Where(join, RowDate, d), filterFlag, categoryId)
    {
      KeepWhereDate(query, filterFlag, categoryId, d);
      SortByDateStable(join, d);
    }
    if !filterFlag {
      KeepMembership(query, filterFlag, categoryId, Row(0, 0, 0, [], [], 0));
    }
  }

  /** The balances run over the kept items only: the first item's balance is its amount, each
      later balance adds the item's amount to the one before, and so the last balance is the sum
      of all the amounts. */
  lemma FlatReportBalances(cats: seq<Category>, exps: seq<Expense>, start: Option<Timestamp>, end: Option<Timestamp>,
                           filterFlag: bool, categoryId: int)
    ensures var items := FlatReport(cats, exps, start, end, filterFlag, categoryId);
            RunningFrom(items, 0)
            && (forall k :: 0 <= k < |items| ==> items[k].balance == SumAmounts(items[..k + 1]))
            && (items != [] ==> items[|items| - 1].balance == SumAmounts(items))
  {
    var items := FlatReport(cats, exps, start, end, filterFlag, categoryId);
    ItemizeRunning(SortedQuery(cats, exps, start, end), filterFlag, categoryId, 0);
    RunningFromSums(items, 0);
    if items != [] {
      assert items[..|items|] == items;
    }
  }
}
