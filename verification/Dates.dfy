/** Calendar dates as integer timestamps.

    A `DateTime` is encoded by `EncodeDate` as a count of seconds in a calendar whose every month
    occupies a slot of 31 days.  For valid dates the encoding preserves the order of `DateTime`
    (so comparisons and sorting by date are those of the source) and keeps the year and month
    recoverable, which is all the reports need: the month key "YYYY/MM" of a date is `MonthOf`. */
module Dates {

  type Timestamp = int

  const SecondsPerDay: int := 86400
  const SecondsPerMonthSlot: int := 31 * SecondsPerDay

  /** A year/month key, the value of the source's "YYYY/MM" strings. */
  datatype YearMonth = YearMonth(year: int, month: int)

  /** Position of a month on the time line; consecutive months are consecutive integers. */
  function MonthIndex(ym: YearMonth): int {
    ym.year * 12 + ym.month - 1
  }

  predicate IsLeapYear(year: int) {
    year % 4 == 0 && (year % 100 != 0 || year % 400 == 0)
  }

  function DaysInMonth(year: int, month: int): (n: int)
    requires 1 <= month <= 12
    ensures 28 <= n <= 31
  {
    if month == 2 then (if IsLeapYear(year) then 29 else 28)
    else if month == 4 || month == 6 || month == 9 || month == 11 then 30
    else 31
  }

  predicate ValidDate(year: int, month: int, day: int, second: int) {
    1 <= month <= 12 && 1 <= day <= DaysInMonth(year, month) && 0 <= second < SecondsPerDay
  }

  /** The timestamp of `second` seconds after midnight on `year`-`month`-`day`. */
  function EncodeDate(year: int, month: int, day: int, second: int): (t: Timestamp)
    requires ValidDate(year, month, day, second)
    ensures t / SecondsPerMonthSlot == MonthIndex(YearMonth(year, month))
  {
    var offset := (day - 1) * SecondsPerDay + second;
    assert 0 <= offset < SecondsPerMonthSlot;
    MonthIndex(YearMonth(year, month)) * SecondsPerMonthSlot + offset
  }

  /** The year and month a timestamp falls in (the source's `Date.Year` and `Date.Month`). */
  function MonthOf(t: Timestamp): (ym: YearMonth)
    ensures 1 <= ym.month <= 12
    ensures MonthIndex(ym) == t / SecondsPerMonthSlot
  {
    var m := t / SecondsPerMonthSlot;
    YearMonth(m / 12, m % 12 + 1)
  }

  /** The month key of an encoded date is the date's own year and month. */
  lemma MonthOfEncodeDate(year: int, month: int, day: int, second: int)
    requires ValidDate(year, month, day, second)
    ensures MonthOf(EncodeDate(year, month, day, second)) == YearMonth(year, month)
  {
    var ym := MonthOf(EncodeDate(year, month, day, second));
    assert MonthIndex(ym) == MonthIndex(YearMonth(year, month));
  }

  /** A later timestamp never falls in an earlier month. */
  lemma MonthOfMonotone(t1: Timestamp, t2: Timestamp)
    requires t1 <= t2
    ensures MonthIndex(MonthOf(t1)) <= MonthIndex(MonthOf(t2))
  {
  }

  /** Two timestamps fall in the same month exactly when their month indices agree. */
  lemma MonthOfInjective(t1: Timestamp, t2: Timestamp)
    ensures MonthOf(t1) == MonthOf(t2) <==> MonthIndex(MonthOf(t1)) == MonthIndex(MonthOf(t2))
  {
  }

  /** The lexicographic order of (year, month, day, second), the order of `DateTime`. */
  predicate DateBefore(y1: int, m1: int, d1: int, s1: int, y2: int, m2: int, d2: int, s2: int) {
    y1 < y2 || (y1 == y2 && (m1 < m2 || (m1 == m2 && (d1 < d2 || (d1 == d2 && s1 < s2)))))
  }

  /** The encoding keeps the order of valid dates in both directions: one date is before another
      exactly when its timestamp is smaller, so comparing and sorting timestamps compares and
      sorts the dates. */
  lemma EncodeDateMonotone(y1: int, m1: int, d1: int, s1: int, y2: int, m2: int, d2: int, s2: int)
    requires ValidDate(y1, m1, d1, s1) && ValidDate(y2, m2, d2, s2)
    ensures DateBefore(y1, m1, d1, s1, y2, m2, d2, s2)
            <==> EncodeDate(y1, m1, d1, s1) < EncodeDate(y2, m2, d2, s2)
    ensures EncodeDate(y1, m1, d1, s1) == EncodeDate(y2, m2, d2, s2)
            <==> y1 == y2 && m1 == m2 && d1 == d2 && s1 == s2
  {
    PlaceValueOrder(y1, m1 - 1, y2, m2 - 1, 12);
    PlaceValueOrder(d1 - 1, s1, d2 - 1, s2, SecondsPerDay);
    PlaceValueOrder(MonthIndex(YearMonth(y1, m1)), (d1 - 1) * SecondsPerDay + s1,
                    MonthIndex(YearMonth(y2, m2)), (d2 - 1) * SecondsPerDay + s2, SecondsPerMonthSlot);
  }

  /** Numbers written as `high * w + low` with a digit `low` below `w` compare by their high
      parts first and then by their low parts. */
  lemma PlaceValueOrder(h1: int, l1: int, h2: int, l2: int, w: int)
    requires 0 <= l1 < w && 0 <= l2 < w
    ensures h1 * w + l1 < h2 * w + l2 <==> h1 < h2 || (h1 == h2 && l1 < l2)
    ensures h1 * w + l1 == h2 * w + l2 <==> h1 == h2 && l1 == l2
  {
    if h1 < h2 {
      HigherPartWins(h1, l1, h2, l2, w);
    } else if h2 < h1 {
      HigherPartWins(h2, l2, h1, l1, w);
    }
  }

  /** A larger high part outweighs any difference of the low digits. */
  lemma HigherPartWins(h1: int, l1: int, h2: int, l2: int, w: int)
    requires 0 <= l1 < w && 0 <= l2 < w && h1 < h2
    ensures h1 * w + l1 < h2 * w + l2
  {
    var k := h2 - h1;
    assert h2 * w == h1 * w + k * w by {
      assert h2 == h1 + k;
    }
    AtLeastOnce(k, w);
  }

  lemma {:induction false} AtLeastOnce(k: int, w: int)
    requires 1 <= k && 0 <= w
    ensures k * w >= w
    decreases k
  {
    if k > 1 {
      AtLeastOnce(k - 1, w);
      assert k * w == (k - 1) * w + w;
    }
  }

  /** `new DateTime(1900, 1, 1)`, the start used when none is given. */
  const DefaultStart: Timestamp := EncodeDate(1900, 1, 1, 0)

  /** `new DateTime(2500, 1, 1)`, the end used when none is given. */
  const DefaultEnd: Timestamp := EncodeDate(2500, 1, 1, 0)
}
