/** When a monthly account's cycle rolls over. */
module Billing {
  import opened Model
  import opened Calendar

  function Anchor(day: int): int { if day < 1 || day > 28 then 1 else day }

  /** nextReset: this month's anchor midnight if it is still ahead, else next month's. */
  function NextBoundary(last: Time, anchorDay: int, offset: int): Time {
    var i := MonthIndex(LocalDate(last, offset));
    var c := Midnight(MonthDate(i, Anchor(anchorDay)), offset);
    if c > last then c else Midnight(MonthDate(i + 1, Anchor(anchorDay)), offset)
  }

  ghost predicate IsBoundary(b: Time, anchorDay: int, offset: int) {
    exists i: int :: b == Midnight(MonthDate(i, Anchor(anchorDay)), offset)
  }

  method NextReset(last: Time, anchorDay: int, offset: int) returns (c: Time)
    ensures c == NextBoundary(last, anchorDay, offset)
  {
    hide LocalDate, MonthDate, Midnight;
    var anchor := anchorDay;
    if anchor < 1 || anchor > 28 { anchor := 1; }
    var d := LocalDate(last, offset);
    MonthIndexInverse(Date(d.year, d.month, anchor));
    c := Midnight(Date(d.year, d.month, anchor), offset);
    if !(c > last) {
      c := Midnight(MonthDate(MonthIndex(d) + 1, anchor), offset);
    }
  }

  /** For every instant and anchor, nextReset is the least anchor-day midnight strictly after it. */
  lemma NextBoundaryLeast(last: Time, anchorDay: int, offset: int)
    ensures IsBoundary(NextBoundary(last, anchorDay, offset), anchorDay, offset)
    ensures NextBoundary(last, anchorDay, offset) > last
    ensures forall b: Time | IsBoundary(b, anchorDay, offset) && b > last :: NextBoundary(last, anchorDay, offset) <= b
  {
    hide LocalDate, MonthDate, Midnight, DayNumber;
    var a := Anchor(anchorDay);
    var d := LocalDate(last, offset);
    var i := MonthIndex(d);
    MonthIndexInverse(d);
    LocalDateHolds(last, offset);
    MonthsAscend(i, i + 1, d.day, a);
    assert last < Midnight(MonthDate(i + 1, a), offset);
    forall b: Time | IsBoundary(b, anchorDay, offset) && b > last
      ensures NextBoundary(last, anchorDay, offset) <= b
    {
      var j: int :| b == Midnight(MonthDate(j, a), offset);
      if j < i {
        AnchorDayValid(j, a);
        MonthsAscend(j, i, a, d.day);
        MidnightAscends(MonthDate(j, a), d, offset);
      } else if j > i {
        AnchorsAscend(i, j, a, offset);
        AnchorsAscend(i + 1, j, a, offset);
      }
    }
  }

  lemma AnchorDayValid(i: int, a: int)
    requires 1 <= a <= 28
    ensures MonthDate(i, a).Valid()
  {
  }

  lemma AnchorsAscend(i: int, j: int, a: int, offset: int)
    requires i <= j && 1 <= a <= 28
    ensures Midnight(MonthDate(i, a), offset) <= Midnight(MonthDate(j, a), offset)
  {
    hide Midnight, DayNumber;
    if i < j {
      AnchorDayValid(i, a);
      MonthsAscend(i, j, a, a);
      MidnightAscends(MonthDate(i, a), MonthDate(j, a), offset);
    }
  }

  /** Stamping a reset in whole seconds does not move its next boundary. */
  lemma TruncationHarmless(t: Time, anchorDay: int, offset: int)
    ensures NextBoundary(Unix(t) * SECOND, anchorDay, offset) == NextBoundary(t, anchorDay, offset)
  {
    hide NextBoundary, DayNumber, MonthDate;
    var s := Unix(t) * SECOND;
    NextBoundaryLeast(s, anchorDay, offset);
    NextBoundaryLeast(t, anchorDay, offset);
    var b := NextBoundary(s, anchorDay, offset);
    var i: int :| b == Midnight(MonthDate(i, Anchor(anchorDay)), offset);
    var whole := DayNumber(MonthDate(i, Anchor(anchorDay))) * DAY_SECONDS - offset;
    assert b == whole * SECOND && whole > Unix(t);
    assert b > t;
  }

  /** runDueResets' test, on the second the last reset was recorded with. */
  predicate Due(lastReset: int, anchorDay: int, offset: int, now: Time) {
    now >= NextBoundary(lastReset * SECOND, anchorDay, offset)
  }

  /** An account is never due right after a reset. */
  lemma NotDueAfterReset(stamp: Time, anchorDay: int, offset: int)
    ensures !Due(Unix(stamp), anchorDay, offset, stamp)
  {
    hide NextBoundary, IsBoundary;
    TruncationHarmless(stamp, anchorDay, offset);
    NextBoundaryLeast(stamp, anchorDay, offset);
  }

  /** A check of the clock at `at`; a reset it triggers is stamped at `stamp`. */
  datatype Check = Check(at: Time, stamp: Time)

  ghost predicate InOrder(checks: seq<Check>) {
    && (forall i | 0 <= i < |checks| :: checks[i].at <= checks[i].stamp)
    && (forall i, j | 0 <= i < j < |checks| :: checks[i].stamp <= checks[j].at)
  }

  /** The stamps of the automatic resets a sequence of checks performs. */
  function AutoResets(lastReset: int, anchorDay: int, offset: int, checks: seq<Check>): seq<Time>
    decreases |checks|
  {
    if checks == [] then []
    else if Due(lastReset, anchorDay, offset, checks[0].at)
    then [checks[0].stamp] + AutoResets(Unix(checks[0].stamp), anchorDay, offset, checks[1..])
    else AutoResets(lastReset, anchorDay, offset, checks[1..])
  }

  ghost predicate NoneBefore(rs: seq<Time>, b: Time) { forall k | 0 <= k < |rs| :: b <= rs[k] }

  /** Between any two of the instants lies a billing boundary. */
  ghost predicate Separated(rs: seq<Time>, anchorDay: int, offset: int) {
    forall i, j | 0 <= i < j < |rs| :: BoundaryWithin(rs[i], rs[j], anchorDay, offset)
  }

  lemma {:induction false} ResetsAreDue(lastReset: int, anchorDay: int, offset: int, checks: seq<Check>)
    requires InOrder(checks)
    ensures NoneBefore(AutoResets(lastReset, anchorDay, offset, checks), NextBoundary(lastReset * SECOND, anchorDay, offset))
    decreases |checks|
  {
    hide NextBoundary;
    if checks != [] {
      var rest, stamp := checks[1..], checks[0].stamp;
      var rs := AutoResets(lastReset, anchorDay, offset, checks);
      if Due(lastReset, anchorDay, offset, checks[0].at) {
        ResetsAreDue(Unix(stamp), anchorDay, offset, rest);
        ResetDelays(stamp, anchorDay, offset);
        var tail := AutoResets(Unix(stamp), anchorDay, offset, rest);
        assert rs == [stamp] + tail;
        assert checks[0].at <= stamp;
        forall k | 0 <= k < |rs| ensures NextBoundary(lastReset * SECOND, anchorDay, offset) <= rs[k] {
          if k > 0 { assert rs[k] == tail[k - 1]; }
        }
      } else {
        ResetsAreDue(lastReset, anchorDay, offset, rest);
        assert rs == AutoResets(lastReset, anchorDay, offset, rest);
      }
    }
  }

  /** What a reset's recorded second says about the next: a boundary, and still ahead. */
  lemma ResetDelays(stamp: Time, anchorDay: int, offset: int)
    ensures var b := NextBoundary(Unix(stamp) * SECOND, anchorDay, offset);
            b > stamp && IsBoundary(b, anchorDay, offset)
  {
    hide NextBoundary;
    TruncationHarmless(stamp, anchorDay, offset);
    NextBoundaryLeast(stamp, anchorDay, offset);
  }

  /** At most one automatic reset per boundary: between any two resets lies a billing boundary. */
  lemma {:induction false} OneResetPerBoundary(lastReset: int, anchorDay: int, offset: int, checks: seq<Check>)
    requires InOrder(checks)
    ensures Separated(AutoResets(lastReset, anchorDay, offset, checks), anchorDay, offset)
    decreases |checks|
  {
    hide NextBoundary, IsBoundary;
    if checks != [] {
      var rest, stamp := checks[1..], checks[0].stamp;
      var rs := AutoResets(lastReset, anchorDay, offset, checks);
      if Due(lastReset, anchorDay, offset, checks[0].at) {
        var tail := AutoResets(Unix(stamp), anchorDay, offset, rest);
        OneResetPerBoundary(Unix(stamp), anchorDay, offset, rest);
        ResetsAreDue(Unix(stamp), anchorDay, offset, rest);
        ResetDelays(stamp, anchorDay, offset);
        assert rs == [stamp] + tail;
        forall i, j | 0 <= i < j < |rs| ensures BoundaryWithin(rs[i], rs[j], anchorDay, offset) {
          assert rs[j] == tail[j - 1];
          if i > 0 {
            assert rs[i] == tail[i - 1] && BoundaryWithin(tail[i - 1], tail[j - 1], anchorDay, offset);
          } else {
            var b := NextBoundary(Unix(stamp) * SECOND, anchorDay, offset);
            assert IsBoundary(b, anchorDay, offset) && rs[i] < b <= rs[j];
          }
        }
      } else {
        OneResetPerBoundary(lastReset, anchorDay, offset, rest);
        assert rs == AutoResets(lastReset, anchorDay, offset, rest);
      }
    }
  }

  ghost predicate BoundaryWithin(after: Time, upTo: Time, anchorDay: int, offset: int) {
    exists b: Time :: IsBoundary(b, anchorDay, offset) && after < b <= upTo
  }

  // ---------------------------------------------------------------- boundaries, spelled out

  /** d is the anchor day of its month. */
  ghost predicate OnAnchor(d: Date, anchorDay: int) { d.Valid() && d.day == if 1 <= anchorDay <= 28 then anchorDay else 1 }

  /** A boundary is local midnight at the start of the anchor day of some month. */
  lemma BoundarySpelled(b: Time, anchorDay: int, offset: int)
    ensures IsBoundary(b, anchorDay, offset) <==>
            exists d: Date :: OnAnchor(d, anchorDay) && b == (DayNumber(d) * 86_400 - offset) * 1_000_000_000
  {
    hide DayNumber;
    if IsBoundary(b, anchorDay, offset) {
      var i: int :| b == Midnight(MonthDate(i, Anchor(anchorDay)), offset);
      AnchorDayValid(i, Anchor(anchorDay));
      var d := MonthDate(i, Anchor(anchorDay));
      assert OnAnchor(d, anchorDay) && b == (DayNumber(d) * 86_400 - offset) * 1_000_000_000;
    }
    if exists d: Date :: OnAnchor(d, anchorDay) && b == (DayNumber(d) * 86_400 - offset) * 1_000_000_000 {
      var d: Date :| OnAnchor(d, anchorDay) && b == (DayNumber(d) * 86_400 - offset) * 1_000_000_000;
      MonthIndexInverse(d);
      assert b == Midnight(MonthDate(MonthIndex(d), Anchor(anchorDay)), offset);
    }
  }

  /** An account is due exactly when a boundary has come since the second its last reset was recorded with:
      neither before it nor any later than it. */
  lemma DueExact(lastReset: int, anchorDay: int, offset: int, now: Time)
    ensures Due(lastReset, anchorDay, offset, now) <==> BoundaryWithin(lastReset * 1_000_000_000, now, anchorDay, offset)
  {
    hide NextBoundary, IsBoundary;
    NextBoundaryLeast(lastReset * SECOND, anchorDay, offset);
  }
}
