/** The proleptic Gregorian calendar (month lengths as in section 5.7 of RFC 3339, leap years
    as in its Appendix C) in a location with a fixed offset from UTC. */
module Calendar {
  import opened Model

  const DAY_SECONDS: int := 86_400

  /** Days from 0001-01-01 to 1970-01-01. */
  const EPOCH_DAY: int := 719_162

  datatype Date = Date(year: int, month: int, day: int) {
    predicate Valid() { 1 <= month <= 12 && 1 <= day <= MonthLength(Leap(year), month) }
  }

  predicate Leap(y: int) { y % 4 == 0 && (y % 100 != 0 || y % 400 == 0) }

  function MonthLength(leap: bool, m: int): (n: int)
    requires 1 <= m <= 12
    ensures 28 <= n <= 31
  {
    if m == 2 then (if leap then 29 else 28)
    else if m == 4 || m == 6 || m == 9 || m == 11 then 30 else 31
  }

  /** Days from 0001-01-01 to the first of January of year y. */
  function YearStart(y: int): int { 365 * (y - 1) + (y - 1) / 4 - (y - 1) / 100 + (y - 1) / 400 }

  const CUMULATIVE: seq<int> := [0, 31, 59, 90, 120, 151, 181, 212, 243, 273, 304, 334, 365]

  /** Days before the first of month m (13 stands for the next January). */
  function MonthStart(leap: bool, m: int): int
    requires 1 <= m <= 13
  {
    CUMULATIVE[m - 1] + if leap && m >= 3 then 1 else 0
  }

  lemma MonthStartStep(leap: bool, m: int)
    requires 1 <= m <= 12
    ensures MonthStart(leap, m + 1) == MonthStart(leap, m) + MonthLength(leap, m)
  {
    assert m == 1 || m == 2 || m == 3 || m == 4 || m == 5 || m == 6 || m == 7 || m == 8 || m == 9 || m == 10 || m == 11 || m == 12;
  }

  /** Counting multiples of k, for the three cycle lengths of the calendar. */
  lemma Multiples(y: int)
    ensures y / 4 == (y - 1) / 4 + if y % 4 == 0 then 1 else 0
    ensures y / 100 == (y - 1) / 100 + if y % 100 == 0 then 1 else 0
    ensures y / 400 == (y - 1) / 400 + if y % 400 == 0 then 1 else 0
    ensures y % 400 == 0 ==> y % 100 == 0
    ensures y % 100 == 0 ==> y % 4 == 0
  {
    var q, r := y / 400, y % 400;
    assert y == 400 * q + r;
    assert y / 4 == 100 * q + r / 4 && y / 100 == 4 * q + r / 100;
    assert y % 4 == r % 4 && y % 100 == r % 100;
    if r > 0 {
      assert (y - 1) / 400 == q && (y - 1) / 4 == 100 * q + (r - 1) / 4 && (y - 1) / 100 == 4 * q + (r - 1) / 100;
    } else {
      assert (y - 1) / 400 == q - 1 && (y - 1) / 4 == 100 * q - 1 && (y - 1) / 100 == 4 * q - 1;
    }
  }

  lemma YearStartStep(y: int)
    ensures YearStart(y + 1) == YearStart(y) + MonthStart(Leap(y), 13)
  {
    Multiples(y);
  }

  lemma {:induction false} YearStartAscends(a: int, b: int)
    requires a <= b
    ensures YearStart(a) <= YearStart(b)
    decreases b - a
  {
    if a < b {
      YearStartAscends(a, b - 1);
      YearStartStep(b - 1);
    }
  }

  /** Days since 1970-01-01. */
  function DayNumber(d: Date): int
    requires 1 <= d.month <= 12
  {
    YearStart(d.year) + MonthStart(Leap(d.year), d.month) + d.day - 1 - EPOCH_DAY
  }

  function YearFrom(n: int, y: int): (r: int)
    requires YearStart(y) <= n
    ensures YearStart(r) <= n < YearStart(r + 1)
    decreases n - YearStart(y)
  {
    YearStartStep(y);
    if n < YearStart(y + 1) then y else YearFrom(n, y + 1)
  }

  /** The year holding the n-th day counted from 0001-01-01. */
  function YearOf(n: int): (r: int)
    ensures YearStart(r) <= n < YearStart(r + 1)
  {
    YearFrom(n, if n >= 0 then 1 else n)
  }

  function MonthFrom(leap: bool, k: int, m: int): (r: int)
    requires 1 <= m <= 12 && MonthStart(leap, m) <= k < MonthStart(leap, 13)
    ensures 1 <= r <= 12 && MonthStart(leap, r) <= k < MonthStart(leap, r + 1)
    decreases 12 - m
  {
    if m == 12 || k < MonthStart(leap, m + 1) then m else MonthFrom(leap, k, m + 1)
  }

  /** The date of the n-th day since 1970-01-01, as Time.Date() reports it. */
  function Civil(n: int): (d: Date)
    ensures d.Valid() && DayNumber(d) == n
  {
    var days := n + EPOCH_DAY;
    var y := YearOf(days);
    YearStartStep(y);
    var k := days - YearStart(y);
    var m := MonthFrom(Leap(y), k, 1);
    MonthStartStep(Leap(y), m);
    Date(y, m, k - MonthStart(Leap(y), m) + 1)
  }

  /** Months counted from January of year 0; carrying month 13 into the next year. */
  function MonthDate(i: int, day: int): (d: Date)
    ensures 1 <= d.month <= 12 && d.day == day
  {
    Date(i / 12, i % 12 + 1, day)
  }

  function MonthIndex(d: Date): int { 12 * d.year + d.month - 1 }

  lemma MonthIndexInverse(d: Date)
    requires 1 <= d.month <= 12
    ensures MonthDate(MonthIndex(d), d.day) == d
  {
  }

  lemma NextMonth(i: int)
    ensures DayNumber(MonthDate(i + 1, 1)) == DayNumber(MonthDate(i, 1)) + MonthLength(Leap(i / 12), i % 12 + 1)
  {
    MonthStartStep(Leap(i / 12), i % 12 + 1);
    if i % 12 == 11 {
      assert (i + 1) / 12 == i / 12 + 1 && (i + 1) % 12 == 0;
      YearStartStep(i / 12);
    } else {
      assert (i + 1) / 12 == i / 12 && (i + 1) % 12 == i % 12 + 1;
    }
  }

  lemma {:induction false} MonthsAscend(i: int, j: int, a: int, b: int)
    requires i < j && 1 <= a && MonthDate(i, a).Valid() && 1 <= b
    ensures DayNumber(MonthDate(i, a)) < DayNumber(MonthDate(j, b))
    decreases j - i
  {
    hide DayNumber, MonthLength, Leap;
    NextMonth(i);
    FirstOfMonth(i, a);
    FirstOfMonth(j, b);
    if i + 1 < j {
      MonthsAscend(i + 1, j, 1, b);
    }
  }

  lemma FirstOfMonth(i: int, a: int)
    ensures DayNumber(MonthDate(i, a)) == DayNumber(MonthDate(i, 1)) + a - 1
  {
  }

  /** A day number determines its date: Civil inverts DayNumber. */
  lemma CivilInverse(d: Date)
    requires d.Valid()
    ensures Civil(DayNumber(d)) == d
  {
    var e := Civil(DayNumber(d));
    MonthIndexInverse(d);
    MonthIndexInverse(e);
    if MonthIndex(d) < MonthIndex(e) {
      MonthsAscend(MonthIndex(d), MonthIndex(e), d.day, e.day);
    } else if MonthIndex(e) < MonthIndex(d) {
      MonthsAscend(MonthIndex(e), MonthIndex(d), e.day, d.day);
    }
  }

  /** The instant local midnight of d in a location `offset` seconds east of UTC. */
  function Midnight(d: Date, offset: int): Time
    requires 1 <= d.month <= 12
  {
    (DayNumber(d) * DAY_SECONDS - offset) * SECOND
  }

  function LocalDate(t: Time, offset: int): (d: Date)
    ensures d.Valid()
  {
    Civil((Unix(t) + offset) / DAY_SECONDS)
  }

  /** t falls on its local date: at or after its midnight, before the midnight of any later date. */
  lemma LocalDateHolds(t: Time, offset: int)
    ensures Midnight(LocalDate(t, offset), offset) <= t
    ensures forall d: Date | 1 <= d.month <= 12 && DayNumber(d) > DayNumber(LocalDate(t, offset)) :: t < Midnight(d, offset)
  {
    hide DayNumber, Date.Valid;
    var n := (Unix(t) + offset) / DAY_SECONDS;
    assert n * DAY_SECONDS <= Unix(t) + offset < (n + 1) * DAY_SECONDS;
    assert DayNumber(LocalDate(t, offset)) == n;
  }

  /** Midnights ascend with day numbers. */
  lemma MidnightAscends(a: Date, b: Date, offset: int)
    requires 1 <= a.month <= 12 && 1 <= b.month <= 12
    ensures DayNumber(a) < DayNumber(b) ==> Midnight(a, offset) < Midnight(b, offset)
  {
    hide DayNumber;
  }

  // ---------------------------------------------------------------- where the day count is anchored

  /** Day 0 is 1970-01-01, and its midnight east of UTC comes before second 0. */
  lemma EpochIsDayZero()
    ensures DayNumber(Date(1970, 1, 1)) == 0 && Civil(0) == Date(1970, 1, 1)
    ensures Midnight(Date(1970, 1, 1), 0) == 0 && Midnight(Date(1970, 1, 1), 3600) == -3_600_000_000_000
    ensures forall offset: int, t: Time | 0 <= t + offset * 1_000_000_000 < 86_400_000_000_000 ::
              LocalDate(t, offset) == Date(1970, 1, 1)
  {
    CivilInverse(Date(1970, 1, 1));
    hide Civil;
    forall offset: int, t: Time | 0 <= t + offset * 1_000_000_000 < 86_400_000_000_000
      ensures LocalDate(t, offset) == Date(1970, 1, 1)
    {
      assert 0 <= Unix(t) + offset < 86_400;
    }
  }

  /** The days of a month, leap years included. */
  function Days(year: int, month: int): int {
    if month == 1 || month == 3 || month == 5 || month == 7 || month == 8 || month == 10 || month == 12 then 31
    else if month == 4 || month == 6 || month == 9 || month == 11 then 30
    else if year % 400 == 0 || (year % 4 == 0 && year % 100 != 0) then 29
    else 28
  }

  /** Every date is followed by the date that follows it: the next day of the month while there is one, then
      the first of the next month, then the first of January. With EpochIsDayZero this fixes the count. */
  lemma DayAfter(d: Date)
    ensures d.Valid() <==> 1 <= d.month <= 12 && 1 <= d.day <= Days(d.year, d.month)
    ensures d.Valid() ==>
              DayNumber(d) + 1 ==
              DayNumber(if d.day < Days(d.year, d.month) then Date(d.year, d.month, d.day + 1)
                        else if d.month < 12 then Date(d.year, d.month + 1, 1) else Date(d.year + 1, 1, 1))
  {
    if d.Valid() {
      MonthStartStep(Leap(d.year), d.month);
      YearStartStep(d.year);
    }
  }
}
