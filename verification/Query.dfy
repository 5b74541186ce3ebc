/** The LINQ query at the head of every report: the categories joined with the expenses on the
    category id, restricted to a date range, then ordered by date (`OrderBy` is stable, so rows
    with equal dates keep their join order), then restricted to one category when the filter
    flag is set. */
module BudgetQuery {
  import opened Dates
  import opened CategoryRecord
  import opened ExpenseRecord
  import opened Grouping

  /** One row of the join: the anonymous record the query selects. */
  datatype Row = Row(catId: int, expId: int, date: Timestamp, category: string, description: string, amount: int)

  function JoinRow(c: Category, e: Expense): (r: Row)
    ensures r.catId == c.id && r.category == c.description
    ensures r.expId == e.id && r.date == e.date && r.description == e.description && r.amount == e.amount
  {
    Row(c.id, e.id, e.date, c.description, e.description, e.amount)
  }

  function RowDate(r: Row): Timestamp {
    r.date
  }

  predicate InRange(t: Timestamp, start: Timestamp, end: Timestamp) {
    start <= t && t <= end
  }

  /** The rows category `c` contributes: its expenses within the range, in expense-list order. */
  function Matches(c: Category, exps: seq<Expense>, start: Timestamp, end: Timestamp): seq<Row>
  {
    if exps == [] then []
    else
      var e := exps[|exps| - 1];
      Matches(c, exps[..|exps| - 1], start, end)
        + (if e.category == c.id && InRange(e.date, start, end) then [JoinRow(c, e)] else [])
  }

  /** The join in its own order: category-list order, then expense-list order. */
  function Join(cats: seq<Category>, exps: seq<Expense>, start: Timestamp, end: Timestamp): seq<Row>
  {
    if cats == [] then []
    else Join(cats[..|cats| - 1], exps, start, end) + Matches(cats[|cats| - 1], exps, start, end)
  }

  /** `r` is the row the join produces for category `c` and expense `e`: the expense is of that
      category and dated within the range. */
  predicate Joins(c: Category, e: Expense, start: Timestamp, end: Timestamp, r: Row) {
    e.category == c.id && InRange(e.date, start, end) && r == JoinRow(c, e)
  }

  lemma {:induction false} MatchesMembership(c: Category, exps: seq<Expense>, start: Timestamp, end: Timestamp, r: Row)
    ensures r in Matches(c, exps, start, end)
        <==> exists j :: 0 <= j < |exps| && Joins(c, exps[j], start, end, r)
    decreases |exps|
  {
    if exps != [] {
      var exps' := exps[..|exps| - 1];
      MatchesMembership(c, exps', start, end, r);
      if r in Matches(c, exps', start, end) {
        var j :| 0 <= j < |exps'| && Joins(c, exps'[j], start, end, r);
        assert exps[j] == exps'[j];
      }
    }
  }

  /** `r` pairs a category of the list with one of the expenses. */
  predicate Paired(cats: seq<Category>, exps: seq<Expense>, start: Timestamp, end: Timestamp, r: Row) {
    exists i, j :: 0 <= i < |cats| && 0 <= j < |exps| && Joins(cats[i], exps[j], start, end, r)
  }

  /** A row is in the join exactly when it pairs a listed category with one of its expenses
      inside the range: an expense whose category is missing from the list is dropped, and no
      expense inside the range whose category is listed is missed. */
  lemma {:induction false} JoinMembership(cats: seq<Category>, exps: seq<Expense>, start: Timestamp, end: Timestamp, r: Row)
    ensures r in Join(cats, exps, start, end) <==> Paired(cats, exps, start, end, r)
    decreases |cats|
  {
    if cats != [] {
      JoinMembership(cats[..|cats| - 1], exps, start, end, r);
      MatchesMembership(cats[|cats| - 1], exps, start, end, r);
      PairedStep(cats, exps, start, end, r);
    }
  }

  /** The pairs of a non-empty category list: those of all but the last category, and those of
      the last. */
  lemma PairedStep(cats: seq<Category>, exps: seq<Expense>, start: Timestamp, end: Timestamp, r: Row)
    requires cats != []
    ensures Paired(cats, exps, start, end, r)
        <==> Paired(cats[..|cats| - 1], exps, start, end, r)
             || exists j :: 0 <= j < |exps| && Joins(cats[|cats| - 1], exps[j], start, end, r)
  {
    var init := cats[..|cats| - 1];
    if Paired(cats, exps, start, end, r) {
      var i, j :| 0 <= i < |cats| && 0 <= j < |exps| && Joins(cats[i], exps[j], start, end, r);
      if i < |init| {
        assert Joins(init[i], exps[j], start, end, r);
      }
    }
    if Paired(init, exps, start, end, r) {
      var i, j :| 0 <= i < |init| && 0 <= j < |exps| && Joins(init[i], exps[j], start, end, r);
      assert Joins(cats[i], exps[j], start, end, r);
    }
    if exists j :: 0 <= j < |exps| && Joins(cats[|cats| - 1], exps[j], start, end, r) {
      var j :| 0 <= j < |exps| && Joins(cats[|cats| - 1], exps[j], start, end, r);
      assert Joins(cats[|cats| - 1], exps[j], start, end, r);
    }
  }

  /** Inserts `r` before the first row not earlier than it. */
  function InsertByDate(r: Row, rows: seq<Row>): (result: seq<Row>)
    ensures multiset(result) == multiset(rows) + multiset{r}
  {
    if rows == [] then [r]
    else if r.date <= rows[0].date then [r] + rows
    else
      assert rows == [rows[0]] + rows[1..];
      [rows[0]] + InsertByDate(r, rows[1..])
  }

  /** `OrderBy(q => q.Date)`: a stable sort by date. */
  function SortByDate(rows: seq<Row>): (result: seq<Row>)
    ensures multiset(result) == multiset(rows)
  {
    if rows == [] then []
    else
      assert rows == [rows[0]] + rows[1..];
      InsertByDate(rows[0], SortByDate(rows[1..]))
  }

  predicate SortedByDate(rows: seq<Row>) {
    forall i, j :: 0 <= i < j < |rows| ==> rows[i].date <= rows[j].date
  }

  lemma {:induction false} InsertByDateSorted(r: Row, rows: seq<Row>)
    requires SortedByDate(rows)
    ensures SortedByDate(InsertByDate(r, rows))
    decreases |rows|
  {
    if rows != [] && r.date > rows[0].date {
      var tail := rows[1..];
      InsertByDateSorted(r, tail);
      var rest := InsertByDate(r, tail);
      forall x | x in rest
        ensures rows[0].date <= x.date
      {
        assert x in multiset(rest);
        if x != r {
          assert x in multiset(tail);
          var k :| 0 <= k < |tail| && tail[k] == x;
          assert rows[k + 1] == x;
        }
      }
      PrependSorted(rows[0], rest);
    }
  }

  lemma PrependSorted(h: Row, rows: seq<Row>)
    requires SortedByDate(rows)
    requires forall x :: x in rows ==> h.date <= x.date
    ensures SortedByDate([h] + rows)
  {
    forall i, j | 0 <= i < j < |rows| + 1
      ensures ([h] + rows)[i].date <= ([h] + rows)[j].date
    {
      assert ([h] + rows)[j] == rows[j - 1];
      if i > 0 {
        assert ([h] + rows)[i] == rows[i - 1];
      }
    }
  }

  /** The sort leaves the rows in non-decreasing date order. */
  lemma {:induction false} SortByDateSorted(rows: seq<Row>)
    ensures SortedByDate(SortByDate(rows))
    decreases |rows|
  {
    if rows != [] {
      SortByDateSorted(rows[1..]);
      InsertByDateSorted(rows[0], SortByDate(rows[1..]));
    }
  }

  lemma {:induction false} InsertByDateStable(r: Row, rows: seq<Row>, d: Timestamp)
    ensures Where(InsertByDate(r, rows), RowDate, d) == (if r.date == d then [r] else []) + Where(rows, RowDate, d)
    decreases |rows|
  {
    if rows == [] {
      WhereCons(r, [], RowDate, d);
    } else if r.date <= rows[0].date {
      WhereCons(r, rows, RowDate, d);
    } else {
      var tail := rows[1..];
      InsertByDateStable(r, tail, d);
      assert rows == [rows[0]] + tail;
      SwapPastEarlier(r, rows[0], tail, InsertByDate(r, tail), d);
    }
  }

  /** Moving `r` past a strictly earlier row does not change the rows of any one date. */
  lemma SwapPastEarlier(r: Row, first: Row, tail: seq<Row>, inserted: seq<Row>, d: Timestamp)
    requires first.date < r.date
    requires Where(inserted, RowDate, d) == (if r.date == d then [r] else []) + Where(tail, RowDate, d)
    ensures Where([first] + inserted, RowDate, d) == (if r.date == d then [r] else []) + Where([first] + tail, RowDate, d)
  {
    WhereCons(first, inserted, RowDate, d);
    WhereCons(first, tail, RowDate, d);
  }

  /** Stability: the rows of any one date come out in the order they went in. */
  lemma {:induction false} SortByDateStable(rows: seq<Row>, d: Timestamp)
    ensures Where(SortByDate(rows), RowDate, d) == Where(rows, RowDate, d)
    decreases |rows|
  {
    if rows != [] {
      SortByDateStable(rows[1..], d);
      InsertByDateStable(rows[0], SortByDate(rows[1..]), d);
      WhereCons(rows[0], rows[1..], RowDate, d);
      assert [rows[0]] + rows[1..] == rows;
    }
  }

  /** Whether the category filter lets a row through: with the flag set, only rows of
      `categoryId` pass; without it, all do. */
  predicate Kept(r: Row, filterFlag: bool, categoryId: int) {
    !(filterFlag && categoryId != r.catId)
  }

  /** The rows the category filter lets through, in order. */
  function Keep(rows: seq<Row>, filterFlag: bool, categoryId: int): seq<Row>
  {
    if rows == [] then []
    else
      Keep(rows[..|rows| - 1], filterFlag, categoryId)
        + (if Kept(rows[|rows| - 1], filterFlag, categoryId) then [rows[|rows| - 1]] else [])
  }

  lemma {:induction false} KeepCons(r: Row, rows: seq<Row>, filterFlag: bool, categoryId: int)
    ensures Keep([r] + rows, filterFlag, categoryId)
         == (if Kept(r, filterFlag, categoryId) then [r] else []) + Keep(rows, filterFlag, categoryId)
    decreases |rows|
  {
    if rows == [] {
      assert [r] + rows == [r] && [r][..0] == [];
    } else {
      assert ([r] + rows)[..|rows|] == [r] + rows[..|rows| - 1];
      KeepCons(r, rows[..|rows| - 1], filterFlag, categoryId);
    }
  }

  /** A row passes exactly when it is present and the filter keeps it; without the flag every
      row passes. */
  lemma {:induction false} KeepMembership(rows: seq<Row>, filterFlag: bool, categoryId: int, r: Row)
    ensures r in Keep(rows, filterFlag, categoryId) <==> r in rows && Kept(r, filterFlag, categoryId)
    ensures !filterFlag ==> Keep(rows, filterFlag, categoryId) == rows
    decreases |rows|
  {
    if rows != [] {
      var init := rows[..|rows| - 1];
      assert rows == init + [rows[|rows| - 1]];
      KeepMembership(init, filterFlag, categoryId, r);
    }
  }

  /** The filter keeps the date order. */
  lemma {:induction false} KeepSorted(rows: seq<Row>, filterFlag: bool, categoryId: int)
    requires SortedByDate(rows)
    ensures SortedByDate(Keep(rows, filterFlag, categoryId))
    decreases |rows|
  {
    if rows != [] {
      var init := rows[..|rows| - 1];
      var last := rows[|rows| - 1];
      KeepSorted(init, filterFlag, categoryId);
      var k := Keep(init, filterFlag, categoryId);
      forall i | 0 <= i < |k|
        ensures k[i].date <= last.date
      {
        KeepMembership(init, filterFlag, categoryId, k[i]);
        var j :| 0 <= j < |init| && init[j] == k[i];
        assert rows[j] == k[i];
      }
    }
  }

  /** Filtering by category and selecting one date commute: within a date the kept rows are in
      their order before filtering. */
  lemma {:induction false} KeepWhereDate(rows: seq<Row>, filterFlag: bool, categoryId: int, d: Timestamp)
    ensures Where(Keep(rows, filterFlag, categoryId), RowDate, d) == Keep(Where(rows, RowDate, d), filterFlag, categoryId)
    decreases |rows|
  {
    if rows != [] {
      var init := rows[..|rows| - 1];
      var last := rows[|rows| - 1];
      KeepWhereDate(init, filterFlag, categoryId, d);
      var kept := Keep(init, filterFlag, categoryId);
      var tail := if Kept(last, filterFlag, categoryId) then [last] else [];
      WhereAppend(kept, tail, RowDate, d);
      var sel := Where(init, RowDate, d);
      var tail2 := if last.date == d then [last] else [];
      KeepAppend(sel, tail2, filterFlag, categoryId);
      assert [last][..0] == [];
    }
  }

  lemma {:induction false} KeepAppend(a: seq<Row>, b: seq<Row>, filterFlag: bool, categoryId: int)
    ensures Keep(a + b, filterFlag, categoryId) == Keep(a, filterFlag, categoryId) + Keep(b, filterFlag, categoryId)
    decreases |b|
  {
    if b == [] {
      assert a + b == a;
    } else {
      assert (a + b)[..|a + b| - 1] == a + b[..|b| - 1];
      KeepAppend(a, b[..|b| - 1], filterFlag, categoryId);
    }
  }
}
