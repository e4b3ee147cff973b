/** Reading and printing expiry dates, in the shapes the date library accepts: `full-date` of
    section 5.6 of RFC 3339, optionally followed by a time. */
module ExpiryText {
  import opened Model
  import opened Text
  import opened Calendar

  /** A local wall-clock reading. */
  datatype Clock = Clock(year: int, month: int, day: int, hour: int, minute: int, second: int) {
    predicate Valid() {
      Date(year, month, day).Valid() && 0 <= hour < 24 && 0 <= minute < 60 && 0 <= second < 60
    }
  }

  const NO_CLOCK := Clock(0, 1, 1, 0, 0, 0)

  /** The unix second of a reading in a location `offset` seconds east of UTC. */
  function UnixOf(c: Clock, offset: int): int
    requires 1 <= c.month <= 12
  {
    DayNumber(Date(c.year, c.month, c.day)) * DAY_SECONDS + 3600 * c.hour + 60 * c.minute + c.second - offset
  }

  lemma TimeOfDay(s: int)
    requires 0 <= s < DAY_SECONDS
    ensures 0 <= s / 3600 < 24 && 0 <= s % 3600 / 60 < 60 && 0 <= s % 60 < 60
    ensures 3600 * (s / 3600) + 60 * (s % 3600 / 60) + s % 60 == s
  {
    assert s % 3600 % 60 == s % 60;
  }

  function ClockAt(unix: int, offset: int): (c: Clock)
    ensures c.Valid() && UnixOf(c, offset) == unix
  {
    hide DayNumber, MonthLength;
    var n, s := (unix + offset) / DAY_SECONDS, (unix + offset) % DAY_SECONDS;
    var d := Civil(n);
    TimeOfDay(s);
    Clock(d.year, d.month, d.day, s / 3600, s % 3600 / 60, s % 60)
  }

  // ---------------------------------------------------------------- printing

  function Pad2(n: int): (s: string)
    requires 0 <= n < 100
    ensures |s| == 2 && AllDigits(s)
  {
    [DigitChar(n / 10), DigitChar(n % 10)]
  }

  function Pad4(n: int): (s: string)
    requires 0 <= n < 10_000
    ensures |s| == 4 && AllDigits(s)
  {
    Pad2(n / 100) + Pad2(n % 100)
  }

  /** At least four digits, and as many as the year needs. */
  function YearText(y: int): string
    requires 0 <= y
  {
    if y < 10_000 then Pad4(y) else Decimal(y)
  }

  function DateText(c: Clock): string
    requires c.Valid() && 0 <= c.year
  {
    YearText(c.year) + ("-" + (Pad2(c.month) + ("-" + Pad2(c.day))))
  }

  function TimeText(c: Clock): string
    requires c.Valid()
  {
    if c.hour == 0 && c.minute == 0 && c.second == 0 then ""
    else " " + (Pad2(c.hour) + (":" + (Pad2(c.minute) + if c.second == 0 then "" else ":" + Pad2(c.second))))
  }

  /** A fixed offset of less than a day either way keeps years after the epoch non-negative. */
  predicate IsOffset(offset: int) { -DAY_SECONDS < offset < DAY_SECONDS }

  lemma YearAfterEpoch(unix: int, offset: int)
    requires unix > 0 && IsOffset(offset)
    ensures ClockAt(unix, offset).year >= 1969
  {
    hide DayNumber, Civil;
    var n := (unix + offset) / DAY_SECONDS;
    assert n >= -1;
    DayNotBefore1969(n);
  }

  lemma DayNotBefore1969(n: int)
    requires n >= -1
    ensures Civil(n).year >= 1969
  {
    var d := Civil(n);
    if d.year < 1969 {
      YearStartAscends(d.year + 1, 1969);
      assert false;
    }
  }

  function FormatExpiry(unix: int, offset: int): string
    requires IsOffset(offset)
  {
    if unix <= 0 then "never"
    else
      YearAfterEpoch(unix, offset);
      DateText(ClockAt(unix, offset)) + TimeText(ClockAt(unix, offset))
  }

  // ---------------------------------------------------------------- parsing

  datatype Elem = Year | Month | Day | Hour | Minute | Second | Lit(c: char)

  const DATE_LAYOUT: seq<Elem> := [Year, Lit('-'), Month, Lit('-'), Day]

  function Timed(separator: char, seconds: bool): seq<Elem> {
    DATE_LAYOUT + ([Lit(separator), Hour, Lit(':'), Minute] + if seconds then [Lit(':'), Second] else [])
  }

  const LAYOUTS: seq<seq<Elem>> :=
    [DATE_LAYOUT, Timed(' ', false), Timed('T', false), Timed(' ', true), Timed('T', true)]

  /** The number at the front of s: exactly two digits, or when `loose` one or two. */
  function TwoDigits(s: string, loose: bool): Option<(int, string)> {
    if s == [] || !IsDigit(s[0]) then None
    else if |s| >= 2 && IsDigit(s[1]) then Some((10 * DigitOf(s[0]) + DigitOf(s[1]), s[2..]))
    else if loose then Some((DigitOf(s[0]), s[1..]))
    else None
  }

  /** A fraction after the seconds is accepted and dropped. */
  function DropFraction(s: string): string {
    if |s| >= 2 && (s[0] == '.' || s[0] == ',') && IsDigit(s[1]) then s[1 + Digits(s[1..])..] else s
  }

  /** One layout element: the updated reading and the rest of the text. */
  function ParseElem(e: Elem, s: string, c: Clock): Option<(Clock, string)> {
    match e
    case Year =>
      if |s| < 4 || !AllDigits(s[..4]) then None else Some((c.(year := Value(s[..4])), s[4..]))
    case Month =>
      (match TwoDigits(s, false)
       case None => None
       case Some((n, r)) => if 1 <= n <= 12 then Some((c.(month := n), r)) else None)
    case Day =>
      (match TwoDigits(s, false) case None => None case Some((n, r)) => Some((c.(day := n), r)))
    case Hour =>
      (match TwoDigits(s, true)
       case None => None
       case Some((n, r)) => if n < 24 then Some((c.(hour := n), r)) else None)
    case Minute =>
      (match TwoDigits(s, false)
       case None => None
       case Some((n, r)) => if n < 60 then Some((c.(minute := n), r)) else None)
    case Second =>
      (match TwoDigits(s, false)
       case None => None
       case Some((n, r)) => if n < 60 then Some((c.(second := n), DropFraction(r))) else None)
    case Lit(' ') => if s != [] && s[0] != ' ' then None else Some((c, CutBlanks(s)))
    case Lit(x) => if s == [] || s[0] != x then None else Some((c, s[1..]))
  }

  /** A blank in a layout stands for any number of blanks, and for no other white space. */
  function CutBlanks(s: string): (r: string)
    ensures r == [] || r[0] != ' '
    ensures s == [] || s[0] != ' ' ==> r == s
  {
    if s != [] && s[0] == ' ' then CutBlanks(s[1..]) else s
  }

  function ParseElems(layout: seq<Elem>, s: string, c: Clock): Option<(Clock, string)> {
    if layout == [] then Some((c, s))
    else match ParseElem(layout[0], s, c)
      case None => None
      case Some((d, r)) => ParseElems(layout[1..], r, d)
  }

  /** time.ParseInLocation: every element, no text left over, a day the month has. */
  function ParseLayout(layout: seq<Elem>, s: string): (r: Option<Clock>)
    ensures r.Some? ==> 1 <= r.value.month <= 12
  {
    match ParseElems(layout, s, NO_CLOCK)
    case None => None
    case Some((c, rest)) =>
      if rest == [] && Date(c.year, c.month, c.day).Valid() then Some(c) else None
  }

  function TryLayouts(layouts: seq<seq<Elem>>, s: string, offset: int): Option<int> {
    if layouts == [] then None
    else match ParseLayout(layouts[0], s)
      case None => TryLayouts(layouts[1..], s, offset)
      case Some(c) => if UnixOf(c, offset) <= 0 then None else Some(UnixOf(c, offset))
  }

  function TrimLeft(s: string): string { if s != [] && IsSpace(s[0]) then TrimLeft(s[1..]) else s }

  function TrimRight(s: string): string {
    if s != [] && IsSpace(s[|s| - 1]) then TrimRight(s[..|s| - 1]) else s
  }

  function LowerChar(c: char): char { if 'A' <= c <= 'Z' then (c as int + 32) as char else c }

  function Lower(s: string): string { seq(|s|, i requires 0 <= i < |s| => LowerChar(s[i])) }

  predicate ClearsExpiry(s: string) { Lower(s) == "" || Lower(s) == "0" || Lower(s) == "never" || Lower(s) == "none" }

  /** Some(0) clears the expiry; None is the "invalid expiry" error. */
  function ParsedExpiry(text: string, offset: int): Option<int> {
    var s := TrimRight(TrimLeft(text));
    if ClearsExpiry(s) then Some(0) else TryLayouts(LAYOUTS, s, offset)
  }

  method ParseExpiry(text: string, offset: int) returns (r: Option<int>)
    ensures r == ParsedExpiry(text, offset)
  {
    var s := TrimRight(TrimLeft(text));
    if ClearsExpiry(s) { return Some(0); }
    for i := 0 to |LAYOUTS|
      invariant TryLayouts(LAYOUTS[i..], s, offset) == TryLayouts(LAYOUTS, s, offset)
    {
      assert LAYOUTS[i..][1..] == LAYOUTS[i + 1..];
      var c := ParseLayout(LAYOUTS[i], s);
      if c.Some? {
        if UnixOf(c.value, offset) <= 0 { break; }
        return Some(UnixOf(c.value, offset));
      }
    }
    return None;
  }

  // ---------------------------------------------------------------- the round trip

  lemma Pad2Read(n: int, rest: string, loose: bool)
    requires 0 <= n < 100
    ensures TwoDigits(Pad2(n) + rest, loose) == Some((n, rest))
  {
    assert (Pad2(n) + rest)[2..] == rest;
  }

  lemma Pad4Value(n: int)
    requires 0 <= n < 10_000
    ensures Value(Pad4(n)) == n
  {
    var s := Pad4(n);
    assert s[..3][..2] == Pad2(n / 100) && s[..3][2] == DigitChar(n % 100 / 10);
    assert Pad2(n / 100)[..1] == [DigitChar(n / 100 / 10)] && [DigitChar(n / 100 / 10)][..0] == [];
    assert Value(s[..3][..2][..1]) == n / 100 / 10;
    assert Value(s[..3][..2]) == n / 100 / 10 * 10 + n / 100 % 10 == n / 100;
    assert Value(s[..3]) == n / 100 * 10 + n % 100 / 10;
    assert Value(s) == (n / 100 * 10 + n % 100 / 10) * 10 + n % 100 % 10;
    assert n % 100 / 10 * 10 + n % 100 % 10 == n % 100;
  }

  /** One element at the front of a layout consumes its own text. */
  lemma Consume(e: Elem, layout: seq<Elem>, s: string, c: Clock, d: Clock, rest: string)
    requires ParseElem(e, s, c) == Some((d, rest))
    ensures ParseElems([e] + layout, s, c) == ParseElems(layout, rest, d)
  {
    assert ([e] + layout)[1..] == layout;
  }

  /** The year, month and day of c over a cleared time. */
  function DateOnly(c: Clock): Clock { Clock(c.year, c.month, c.day, 0, 0, 0) }

  lemma MonthInRange(c: Clock)
    requires c.Valid()
    ensures 1 <= c.month <= 12 && 1 <= c.day <= 31
  {
  }

  lemma FiveDigitYear(y: int)
    requires y >= 10_000
    ensures |Decimal(y)| >= 5
  {
    hide IsDigit;
    assert |Decimal(y / 10)| >= 4 by {
      assert |Decimal(y / 100)| >= 3 by {
        assert |Decimal(y / 1000)| >= 2;
      }
    }
  }

  /** A year of five digits or more is printed but not read: the parser takes four digits. */
  lemma LongYearFails(layouts: seq<seq<Elem>>, y: int, rest: string, offset: int)
    requires y >= 10_000
    requires forall i | 0 <= i < |layouts| :: |layouts[i]| >= 2 && layouts[i][0] == Year && layouts[i][1] == Lit('-')
    ensures TryLayouts(layouts, Decimal(y) + rest, offset) == None
  {
    if layouts != [] {
      FiveDigitYear(y);
      var s := Decimal(y) + rest;
      assert IsDigit(s[4]) && s[4..][0] == s[4];
      var layout := layouts[0];
      assert layout == [Year] + layout[1..] && layout[1..] == [Lit('-')] + layout[2..];
      assert s[..4] == Decimal(y)[..4];
      var c := NO_CLOCK.(year := Value(s[..4]));
      Consume(Year, layout[1..], s, NO_CLOCK, c, s[4..]);
      assert ParseElem(Lit('-'), s[4..], c) == None;
      assert ParseElems(layout, s, NO_CLOCK) == None;
      LongYearFails(layouts[1..], y, rest, offset);
    }
  }

  lemma Untrimmed(s: string)
    requires |s| >= 10 && IsDigit(s[0]) && IsDigit(s[|s| - 1])
    ensures TrimRight(TrimLeft(s)) == s && !ClearsExpiry(s)
  {
  }

  lemma PrintedEnds(c: Clock)
    requires c.Valid() && 0 <= c.year
    ensures var s := DateText(c) + TimeText(c); |s| >= 10 && IsDigit(s[0]) && IsDigit(s[|s| - 1])
  {
    hide Pad2, Date.Valid;
    MonthInRange(c);
    if c.year >= 10_000 { FiveDigitYear(c.year); }
    var y := YearText(c.year);
    assert |y| >= 4 && AllDigits(y);
    var d := DateText(c);
    assert d[0] == y[0] && |d| == |y| + 6 && d[|d| - 1] == Pad2(c.day)[1];
    var t := TimeText(c);
    assert t == "" || t[|t| - 1] == (if c.second == 0 then Pad2(c.minute) else Pad2(c.second))[1];
  }

  lemma LongText(c: Clock)
    requires c.Valid() && c.year >= 10_000
    ensures exists rest :: DateText(c) + TimeText(c) == Decimal(c.year) + rest
  {
    hide Pad2, Date.Valid, TimeText;
    MonthInRange(c);
    var rest := ("-" + (Pad2(c.month) + ("-" + Pad2(c.day)))) + TimeText(c);
    assert DateText(c) + TimeText(c) == Decimal(c.year) + rest;
  }

  /** "never" is printed for no expiry and read back as none. */
  lemma NeverRoundTrip(unix: int, offset: int)
    requires unix <= 0 && IsOffset(offset)
    ensures ParsedExpiry(FormatExpiry(unix, offset), offset) == Some(0)
  {
    assert TrimLeft("never") == "never" && TrimRight("never") == "never";
    assert Lower("never") == "never";
  }
}
