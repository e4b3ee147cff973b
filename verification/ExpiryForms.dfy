/** What an expiry text looks like, digit by digit, and what it means: printed, and read. */
module ExpiryForms {
  import opened Model
  import opened Text
  import opened Calendar
  import opened ExpiryText

  function Digit(n: int): char
    requires 0 <= n <= 9
  {
    ('0' as int + n) as char
  }

  function Two(n: int): string
    requires 0 <= n < 100
  {
    [Digit(n / 10), Digit(n % 10)]
  }

  function Four(n: int): string
    requires 0 <= n < 10_000
  {
    [Digit(n / 1000), Digit(n / 100 % 10), Digit(n / 10 % 10), Digit(n % 10)]
  }

  lemma DigitsAre(n: int)
    requires 0 <= n < 100
    ensures Pad2(n) == Two(n)
  {
  }

  lemma FourAre(n: int)
    requires 0 <= n < 10_000
    ensures Pad4(n) == Four(n)
  {
    assert n / 100 / 10 == n / 1000 && n / 100 % 10 == n / 100 % 10 && n % 100 / 10 == n / 10 % 10 && n % 100 % 10 == n % 10;
  }

  /** How much of the time of day a text gives. */
  datatype Form = Bare | Minutes | Seconds

  /** YYYY-MM-DD, then nothing, or HH:MM or HH:MM:SS after the separator. */
  function Shaped(c: Clock, separator: char, form: Form): string
    requires Fits(c)
  {
    Four(c.year) + "-" + Two(c.month) + "-" + Two(c.day)
    + match form
      case Bare => ""
      case Minutes => [separator] + Two(c.hour) + ":" + Two(c.minute)
      case Seconds => [separator] + Two(c.hour) + ":" + Two(c.minute) + ":" + Two(c.second)
  }

  /** The figures fit the digits. */
  predicate Fits(c: Clock) {
    && 0 <= c.year < 10_000 && 0 <= c.month < 100 && 0 <= c.day < 100
    && 0 <= c.hour < 100 && 0 <= c.minute < 100 && 0 <= c.second < 100
  }

  /** What a form says nothing of is zero. */
  predicate Says(c: Clock, form: Form) {
    && (form.Bare? ==> c.hour == 0 && c.minute == 0)
    && (!form.Seconds? ==> c.second == 0)
  }

  // ---------------------------------------------------------------- printing

  /** The local date and time of day of a second. */
  function Reading(unix: int, offset: int): Clock {
    var d, t := Civil((unix + offset) / 86_400), (unix + offset) % 86_400;
    Clock(d.year, d.month, d.day, t / 3600, t / 60 % 60, t % 60)
  }

  lemma ReadingIsClock(unix: int, offset: int)
    ensures Reading(unix, offset) == ClockAt(unix, offset)
    ensures var c, t := Reading(unix, offset), (unix + offset) % 86_400;
            (t == 0 <==> c.hour == 0 && c.minute == 0 && c.second == 0) && (t % 60 == 0 <==> c.second == 0)
  {
    var t := (unix + offset) % 86_400;
    TimeOfDay(t);
    assert t % 3600 / 60 == t / 60 % 60;
    hide Civil;
  }

  /** A second is printed as the date of its local day, with the minute unless it is midnight, and with the
      second unless the minute is whole; and no expiry as "never". */
  lemma FormatSpelled(unix: int, offset: int)
    requires unix > 0 && IsOffset(offset) && Reading(unix, offset).year < 10_000
    ensures Fits(Reading(unix, offset))
    ensures var t := (unix + offset) % 86_400;
            FormatExpiry(unix, offset) ==
            Shaped(Reading(unix, offset), ' ', if t == 0 then Bare else if t % 60 == 0 then Minutes else Seconds)
  {
    hide Civil, Pad2, Pad4, Two, Four, ClockAt, Reading, DateText, TimeText, Shaped;
    var c, t := ClockAt(unix, offset), (unix + offset) % 86_400;
    ReadingIsClock(unix, offset);
    YearAfterEpoch(unix, offset);
    DayFits(Date(c.year, c.month, c.day));
    PrintedShape(c, if t == 0 then Bare else if t % 60 == 0 then Minutes else Seconds);
  }

  lemma DayFits(d: Date)
    requires d.Valid()
    ensures 1 <= d.month <= 12 && 1 <= d.day <= 31
  {
  }

  lemma PrintedShape(c: Clock, form: Form)
    requires Fits(c) && c.Valid() && Says(c, form)
    requires !form.Bare? ==> c.hour != 0 || c.minute != 0 || c.second != 0
    requires form.Seconds? ==> c.second != 0
    ensures DateText(c) + TimeText(c) == Shaped(c, ' ', form)
  {
    FourAre(c.year);
    DigitsAre(c.month);
    DigitsAre(c.day);
    DigitsAre(c.hour);
    DigitsAre(c.minute);
    DigitsAre(c.second);
    hide Pad2, Pad4, Two, Four, Date.Valid;
  }

  lemma NoneSpelled(unix: int, offset: int)
    requires unix <= 0 && IsOffset(offset)
    ensures FormatExpiry(unix, offset) == "never"
  {
  }

  // ---------------------------------------------------------------- reading

  lemma ReadDate(c: Clock, layout: seq<Elem>, rest: string)
    requires Fits(c)
    ensures ParseElems(DATE_LAYOUT + layout, Four(c.year) + ("-" + (Two(c.month) + ("-" + (Two(c.day) + rest)))), NO_CLOCK)
            == if 1 <= c.month <= 12 then ParseElems(layout, rest, DateOnly(c)) else None
  {
    FourAre(c.year);
    DigitsAre(c.month);
    DigitsAre(c.day);
    hide Pad2, Pad4, Two, Four;
    var s5 := Two(c.day) + rest;
    var s4 := "-" + s5;
    var s3 := Two(c.month) + s4;
    var s2 := "-" + s3;
    var s1 := Four(c.year) + s2;
    var l4 := [Day] + layout;
    var l3 := [Lit('-')] + l4;
    var l2 := [Month] + l3;
    var l1 := [Lit('-')] + l2;
    assert DATE_LAYOUT + layout == [Year] + l1;
    var cy := NO_CLOCK.(year := c.year);
    var cm := cy.(month := c.month);
    Pad4Value(c.year);
    assert s1[..4] == Four(c.year) && s1[4..] == s2;
    Consume(Year, l1, s1, NO_CLOCK, cy, s2);
    assert s2[1..] == s3;
    Consume(Lit('-'), l2, s2, cy, cy, s3);
    Pad2Read(c.month, s4, false);
    if 1 <= c.month <= 12 {
      Consume(Month, l3, s3, cy, cm, s4);
      assert s4[1..] == s5;
      Consume(Lit('-'), l4, s4, cm, cm, s5);
      Pad2Read(c.day, rest, false);
      Consume(Day, layout, s5, cm, DateOnly(c), rest);
    } else {
      Refuse(Month, l3, s3, cy);
    }
  }

  lemma Refuse(e: Elem, layout: seq<Elem>, s: string, c: Clock)
    requires ParseElem(e, s, c) == None
    ensures ParseElems([e] + layout, s, c) == None
  {
    assert ([e] + layout)[0] == e;
  }

  lemma ReadMinutes(c: Clock, separator: char, layout: seq<Elem>, rest: string)
    requires Fits(c) && (separator == ' ' || separator == 'T')
    ensures ParseElems([Lit(separator)] + ([Hour] + ([Lit(':')] + ([Minute] + layout))),
                       [separator] + (Two(c.hour) + (":" + (Two(c.minute) + rest))), DateOnly(c))
            == if c.hour < 24 && c.minute < 60 then ParseElems(layout, rest, c.(second := 0)) else None
  {
    DigitsAre(c.hour);
    DigitsAre(c.minute);
    hide Two;
    var s4 := Two(c.minute) + rest;
    var s3 := ":" + s4;
    var s2 := Two(c.hour) + s3;
    var s1 := [separator] + s2;
    var l3 := [Minute] + layout;
    var l2 := [Lit(':')] + l3;
    var l1 := [Hour] + l2;
    assert s1[1..] == s2 && IsDigit(s2[0]);
    if separator == ' ' { assert CutBlanks(s1) == s2; }
    var d := DateOnly(c);
    var dh := d.(hour := c.hour);
    hide Pad2, CutBlanks;
    Consume(Lit(separator), l1, s1, d, d, s2);
    Pad2Read(c.hour, s3, true);
    if c.hour < 24 {
      Consume(Hour, l2, s2, d, dh, s3);
      assert s3[1..] == s4;
      Consume(Lit(':'), l3, s3, dh, dh, s4);
      Pad2Read(c.minute, rest, false);
      if c.minute < 60 {
        Consume(Minute, layout, s4, dh, c.(second := 0), rest);
      } else {
        Refuse(Minute, layout, s4, dh);
      }
    } else {
      Refuse(Hour, l2, s2, d);
    }
  }

  lemma ReadSeconds(c: Clock)
    requires Fits(c)
    ensures ParseElems([Lit(':')] + ([Second] + []), ":" + (Two(c.second) + ""), c.(second := 0))
            == if c.second < 60 then Some((c, "")) else None
  {
    DigitsAre(c.second);
    hide Two;
    var s2 := Two(c.second) + "";
    var s1 := ":" + s2;
    assert s1[1..] == s2;
    Consume(Lit(':'), [Second] + [], s1, c.(second := 0), c.(second := 0), s2);
    Pad2Read(c.second, "", false);
    if c.second < 60 {
      Consume(Second, [], s2, c.(second := 0), c, "");
    } else {
      Refuse(Second, [], s2, c.(second := 0));
    }
  }

  /** The rest of a text after the date. */
  function Tail(c: Clock, separator: char, form: Form): string
    requires Fits(c)
  {
    match form
    case Bare => ""
    case Minutes => [separator] + (Two(c.hour) + (":" + (Two(c.minute) + "")))
    case Seconds => [separator] + (Two(c.hour) + (":" + (Two(c.minute) + (":" + (Two(c.second) + "")))))
  }

  lemma ShapedIs(c: Clock, separator: char, form: Form)
    requires Fits(c)
    ensures Shaped(c, separator, form) == Four(c.year) + ("-" + (Two(c.month) + ("-" + (Two(c.day) + Tail(c, separator, form)))))
  {
    hide Two, Four;
    match form case Bare => case Minutes => case Seconds =>
  }

  predicate RealTime(c: Clock) { c.hour < 24 && c.minute < 60 && c.second < 60 }

  predicate RealDate(c: Clock) { 1 <= c.month <= 12 && 1 <= c.day <= Days(c.year, c.month) }

  /** The layout with the same separator and the same parts reads the time; every other stumbles. */
  lemma ReadTail(c: Clock, separator: char, form: Form, lit: char, seconds: bool)
    requires Fits(c) && Says(c, form) && (separator == ' ' || separator == 'T') && (lit == ' ' || lit == 'T')
    ensures var l := [Lit(lit)] + ([Hour] + ([Lit(':')] + ([Minute] + if seconds then [Lit(':')] + ([Second] + []) else [])));
            var r := ParseElems(l, Tail(c, separator, form), DateOnly(c));
            if !form.Bare? && lit == separator && seconds == form.Seconds?
            then r == if RealTime(c) then Some((c, "")) else None
            else r == None || (r.Some? && r.value.1 != "")
  {
    hide Two, ParseElems;
    var last: seq<Elem> := if seconds then [Lit(':')] + ([Second] + []) else [];
    var l1 := [Hour] + ([Lit(':')] + ([Minute] + last));
    if form.Bare? {
      EmptyTail(lit, l1, DateOnly(c));
    } else {
      var rest := if form.Seconds? then ":" + (Two(c.second) + "") else "";
      var tail := [separator] + (Two(c.hour) + (":" + (Two(c.minute) + rest)));
      assert Tail(c, separator, form) == tail;
      if lit != separator {
        assert tail[0] == separator;
        Refuse(Lit(lit), l1, tail, DateOnly(c));
      } else {
        ReadMinutes(c, separator, last, rest);
        if c.hour < 24 && c.minute < 60 { ReadLast(c, form, seconds); }
      }
    }
  }

  lemma EmptyTail(lit: char, l1: seq<Elem>, c: Clock)
    requires l1 != [] && l1[0] == Hour && (lit == ' ' || lit == 'T')
    ensures ParseElems([Lit(lit)] + l1, "", c) == None
  {
    assert l1 == [Hour] + l1[1..];
    if lit == ' ' {
      Consume(Lit(' '), l1, "", c, c, "");
      Refuse(Hour, l1[1..], "", c);
    } else {
      Refuse(Lit(lit), l1, "", c);
    }
  }

  lemma ReadLast(c: Clock, form: Form, seconds: bool)
    requires Fits(c) && Says(c, form) && !form.Bare?
    ensures var rest := if form.Seconds? then ":" + (Two(c.second) + "") else "";
            var r := ParseElems(if seconds then [Lit(':')] + ([Second] + []) else [], rest, c.(second := 0));
            if seconds == form.Seconds? then r == if c.second < 60 then Some((c, "")) else None
            else r == None || (r.Some? && r.value.1 != "")
  {
    hide Two;
    if seconds && form.Seconds? {
      ReadSeconds(c);
    } else if seconds {
      Refuse(Lit(':'), [Second] + [], "", c.(second := 0));
    } else {
      assert c.(second := 0) == c || form.Seconds?;
    }
  }

  /** A layout reads exactly the texts of its own form, and of those exactly the real dates and times. */
  lemma LayoutReads(c: Clock, separator: char, form: Form, lit: char, seconds: bool)
    requires Fits(c) && Says(c, form) && (separator == ' ' || separator == 'T') && (lit == ' ' || lit == 'T')
    ensures ParseLayout(Timed(lit, seconds), Shaped(c, separator, form)) ==
            if !form.Bare? && lit == separator && seconds == form.Seconds? && RealDate(c) && RealTime(c) then Some(c) else None
  {
    hide Two, Four, ParseElems, Shaped, Tail, RealTime;
    var last: seq<Elem> := if seconds then [Lit(':')] + ([Second] + []) else [];
    var l := [Lit(lit)] + ([Hour] + ([Lit(':')] + ([Minute] + last)));
    assert Timed(lit, seconds) == DATE_LAYOUT + l;
    ShapedIs(c, separator, form);
    ReadDate(c, l, Tail(c, separator, form));
    ReadTail(c, separator, form, lit, seconds);
    DayAfter(Date(c.year, c.month, c.day));
  }

  lemma DateLayoutReads(c: Clock, separator: char, form: Form)
    requires Fits(c) && Says(c, form)
    ensures ParseLayout(DATE_LAYOUT, Shaped(c, separator, form)) ==
            if form.Bare? && RealDate(c) then Some(c) else None
  {
    hide Two, Four, Shaped;
    ShapedIs(c, separator, form);
    assert DATE_LAYOUT + [] == DATE_LAYOUT;
    ReadDate(c, [], Tail(c, separator, form));
    DayAfter(Date(c.year, c.month, c.day));
    assert ParseElems([], Tail(c, separator, form), DateOnly(c)) == Some((DateOnly(c), Tail(c, separator, form)));
    assert form.Bare? ==> DateOnly(c) == c;
    assert !form.Bare? ==> Tail(c, separator, form) != "";
  }

  /** Every text of the five forms, with a blank or a T before the time, is read as the second it names if date and time are real and the second is after the epoch, and refused otherwise. */
  lemma ParsedSpelled(c: Clock, separator: char, form: Form, offset: int)
    requires Fits(c) && Says(c, form) && (separator == ' ' || separator == 'T')
    ensures ParsedExpiry(Shaped(c, separator, form), offset) ==
            if RealDate(c) && RealTime(c)
            then (var unix := DayNumber(Date(c.year, c.month, c.day)) * 86_400 + 3600 * c.hour + 60 * c.minute + c.second - offset;
                  if unix > 0 then Some(unix) else None)
            else None
  {
    hide Two, Four, Shaped, ParseLayout, DayNumber, TrimLeft, TrimRight, ClearsExpiry;
    var s := Shaped(c, separator, form);
    ShapedUntrimmed(c, separator, form);
    DateLayoutReads(c, separator, form);
    LayoutReads(c, separator, form, ' ', false);
    LayoutReads(c, separator, form, 'T', false);
    LayoutReads(c, separator, form, ' ', true);
    LayoutReads(c, separator, form, 'T', true);
    TryAll(s, offset);
  }

  lemma TryAll(s: string, offset: int)
    ensures LAYOUTS[0] == DATE_LAYOUT && LAYOUTS[1..] == [Timed(' ', false), Timed('T', false), Timed(' ', true), Timed('T', true)]
    ensures TryLayouts(LAYOUTS, s, offset) ==
            First(ParseLayout(DATE_LAYOUT, s), First(ParseLayout(Timed(' ', false), s), First(ParseLayout(Timed('T', false), s),
              First(ParseLayout(Timed(' ', true), s), First(ParseLayout(Timed('T', true), s), None, offset), offset), offset), offset), offset)
  {
    hide ParseLayout, Timed;
    var l1, l2, l3, l4 := LAYOUTS[1..], LAYOUTS[2..], LAYOUTS[3..], LAYOUTS[4..];
    assert l1[1..] == l2 && l2[1..] == l3 && l3[1..] == l4 && l4[1..] == [];
    assert TryLayouts(l4, s, offset) == First(ParseLayout(Timed('T', true), s), None, offset);
    assert TryLayouts(l3, s, offset) == First(ParseLayout(Timed(' ', true), s), TryLayouts(l4, s, offset), offset);
    assert TryLayouts(l2, s, offset) == First(ParseLayout(Timed('T', false), s), TryLayouts(l3, s, offset), offset);
    assert TryLayouts(l1, s, offset) == First(ParseLayout(Timed(' ', false), s), TryLayouts(l2, s, offset), offset);
  }

  /** The first layout that reads decides. */
  function First(read: Option<Clock>, otherwise: Option<int>, offset: int): Option<int>
    requires read.Some? ==> 1 <= read.value.month <= 12
  {
    if read.None? then otherwise else if UnixOf(read.value, offset) > 0 then Some(UnixOf(read.value, offset)) else None
  }

  lemma ShapedUntrimmed(c: Clock, separator: char, form: Form)
    requires Fits(c)
    ensures TrimRight(TrimLeft(Shaped(c, separator, form))) == Shaped(c, separator, form) && !ClearsExpiry(Shaped(c, separator, form))
  {
    var s := Shaped(c, separator, form);
    assert |s| >= 10 && IsDigit(s[0]) && IsDigit(s[|s| - 1]);
    Untrimmed(s);
  }

  /** Parsing the printed expiry returns the same second exactly up to the year 9999. */
  lemma ExpiryRoundTrip(unix: int, offset: int)
    requires unix > 0 && IsOffset(offset)
    ensures ParsedExpiry(FormatExpiry(unix, offset), offset) == Some(unix) <==> ClockAt(unix, offset).year <= 9999
  {
    hide DateText, TimeText, ClockAt, Reading, Civil, Two, Four, Shaped, DayNumber;
    YearAfterEpoch(unix, offset);
    var c, t := ClockAt(unix, offset), (unix + offset) % 86_400;
    ReadingIsClock(unix, offset);
    if c.year < 10_000 {
      FormatSpelled(unix, offset);
      DayAfter(Date(c.year, c.month, c.day));
      ParsedSpelled(c, ' ', if t == 0 then Bare else if t % 60 == 0 then Minutes else Seconds, offset);
    } else {
      PrintedEnds(c);
      Untrimmed(DateText(c) + TimeText(c));
      LongText(c);
      var rest :| DateText(c) + TimeText(c) == Decimal(c.year) + rest;
      LongYearFails(LAYOUTS, c.year, rest, offset);
    }
  }

  predicate Blank(s: string) { forall i | 0 <= i < |s| :: IsSpace(s[i]) }

  lemma {:induction false} TrimsLeft(before: string, s: string)
    requires Blank(before) && (s == [] || !IsSpace(s[0]))
    ensures TrimLeft(before + s) == s
  {
    if before == [] {
      assert before + s == s;
    } else {
      assert (before + s)[1..] == before[1..] + s;
      TrimsLeft(before[1..], s);
    }
  }

  lemma {:induction false} TrimsRight(s: string, after: string)
    requires Blank(after) && (s == [] || !IsSpace(s[|s| - 1]))
    ensures TrimRight(s + after) == s
    decreases |after|
  {
    var n := |after|;
    if n == 0 {
      assert s + after == s;
    } else {
      assert (s + after)[..|s + after| - 1] == s + after[..n - 1];
      TrimsRight(s, after[..n - 1]);
    }
  }

  /** White space around a text makes no difference. */
  lemma PaddedParses(before: string, s: string, after: string, offset: int)
    requires Blank(before) && Blank(after) && s != [] && !IsSpace(s[0]) && !IsSpace(s[|s| - 1])
    ensures ParsedExpiry(before + (s + after), offset) == ParsedExpiry(s, offset)
  {
    assert (s + after)[0] == s[0];
    TrimsLeft(before, s + after);
    TrimsRight(s, after);
    TrimsLeft("", s);
    TrimsRight(s, "");
    assert "" + s == s && s + "" == s;
    hide IsSpace, ClearsExpiry, TryLayouts;
  }

  /** The two are the same letter by letter, up to the case of ASCII letters. */
  ghost predicate SameLetters(s: string, word: string) {
    |s| == |word| && forall i | 0 <= i < |s| ::
      s[i] == word[i] || ('A' <= s[i] <= 'Z' && word[i] as int == s[i] as int + 32)
  }

  /** The words that clear an expiry, whatever the case of their letters. */
  lemma ClearingSpelled(s: string)
    requires s == "" || s == "0" || SameLetters(s, "never") || SameLetters(s, "none")
    ensures ClearsExpiry(s)
  {
    assert SameLetters(s, "never") ==> Lower(s) == "never";
    assert SameLetters(s, "none") ==> Lower(s) == "none";
    assert s == "" ==> Lower(s) == "";
    assert s == "0" ==> Lower(s) == "0";
  }
}
