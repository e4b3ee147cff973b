/** Kernel object names are derived from ids, and a listing is read back by parsing them. */
module Names {
  import opened Model
  import opened Text
  import opened Ruleset

  const MAX_INT64: int := 0x7fff_ffff_ffff_ffff

  predicate Int64(i: int) { -MAX_INT64 - 1 <= i <= MAX_INT64 }

  function Suffix(d: Direction): string { if d.In? then "_in" else "_out" }

  function CounterName(k: Key): string { "p" + IntText(k.port) + Suffix(k.dir) }

  function QuotaName(account: int): string { "acct" + IntText(account) }

  /** Sscanf with "%d": leading blanks, an optional sign, at least one digit, a 64-bit result;
      whatever follows the digits is ignored. */
  function ScanInt(text: string): Option<int> {
    var s := CutSpaces(text);
    var signed := s != [] && (s[0] == '-' || s[0] == '+');
    var body := if signed then s[1..] else s;
    var n := Digits(body);
    if n == 0 then None
    else
      var v: int := if signed && s[0] == '-' then 0 - Value(body[..n]) else Value(body[..n]);
      if Int64(v) then Some(v) else None
  }

  function ParseCounterName(name: string): Option<Key> {
    if !IsPrefix("p", name) then None
    else
      var rest := name[1..];
      if IsSuffix("_in", rest) then
        match ScanInt(rest[..|rest| - 3]) { case Some(id) => Some(Key(id, In)) case None => None }
      else if IsSuffix("_out", rest) then
        match ScanInt(rest[..|rest| - 4]) { case Some(id) => Some(Key(id, Out)) case None => None }
      else None
  }

  function ParseQuotaName(name: string): Option<int> {
    if !IsPrefix("acct", name) then None else ScanInt(name[4..])
  }

  lemma ScanPrinted(i: int)
    requires Int64(i)
    ensures ScanInt(IntText(i)) == Some(i)
  {
    var d := Decimal(if i < 0 then -i else i);
    DecimalValue(if i < 0 then -i else i);
    DigitsOf(d, "");
    assert d + "" == d && d[..|d|] == d;
    assert IntText(i) == if i < 0 then "-" + d else d;
    assert ("-" + d)[1..] == d;
    assert IsDigit(d[0]);
  }

  /** A direction's suffix is recognised, and not taken for the other's. */
  lemma SuffixSplits(text: string, d: Direction)
    ensures IsSuffix(Suffix(d), text + Suffix(d)) && (d.Out? ==> !IsSuffix("_in", text + Suffix(d)))
    ensures (text + Suffix(d))[..|text + Suffix(d)| - |Suffix(d)|] == text
  {
    var s := text + Suffix(d);
    assert s[|text|..] == Suffix(d) && s[..|text|] == text;
    if d.Out? {
      assert s[|s| - 3..][2] == 't' && "_in"[2] == 'n';
    }
  }

  /** The parser is a left inverse of the printer, so counter names never collide. */
  lemma CounterNameRoundTrip(k: Key)
    requires Int64(k.port)
    ensures ParseCounterName(CounterName(k)) == Some(k)
    ensures ParseQuotaName(CounterName(k)) == None
  {
    hide ScanInt, IntText, IsSuffix;
    ScanPrinted(k.port);
    SuffixSplits(IntText(k.port), k.dir);
    var name, rest := CounterName(k), IntText(k.port) + Suffix(k.dir);
    assert name == "p" + rest && name[1..] == rest && name[..1] == "p";
    assert name[0] != "acct"[0];
  }

  lemma QuotaNameRoundTrip(id: int)
    requires Int64(id)
    ensures ParseQuotaName(QuotaName(id)) == Some(id)
    ensures ParseCounterName(QuotaName(id)) == None
  {
    ScanPrinted(id);
    assert QuotaName(id)[..4] == "acct" && QuotaName(id)[4..] == IntText(id);
    assert QuotaName(id)[0] != "p"[0];
  }

  /** One object of `nft -j list table`, as far as the sampler looks at it. */
  datatype Item = CounterItem(name: string, value: Counter) | QuotaItem(name: string, used: nat) | OtherItem

  /** items lists the objects of t, in any order and among any other objects. */
  ghost predicate IsListing(items: seq<Item>, t: Table) {
    && (forall i | 0 <= i < |items| :: Truthful(items[i], t))
    && (forall k | k in t.counters :: CounterItem(CounterName(k), t.counters[k]) in items)
    && (forall id | id in t.quotas :: QuotaItem(QuotaName(id), t.quotas[id].Listed()) in items)
  }

  ghost predicate Truthful(item: Item, t: Table) {
    match item
    case CounterItem(name, c) => exists k :: k in t.counters && name == CounterName(k) && c == t.counters[k]
    case QuotaItem(name, used) => exists id :: id in t.quotas && name == QuotaName(id) && used == t.quotas[id].Listed()
    case OtherItem => true
  }

  ghost predicate Int64Ids(t: Table) {
    (forall k | k in t.counters :: Int64(k.port)) && (forall id | id in t.quotas :: Int64(id))
  }

  /** The key a listed counter's name parses to, and that no other counter has this name. */
  lemma ListedCounter(name: string, c: Counter, t: Table)
    requires Truthful(CounterItem(name, c), t) && Int64Ids(t)
    ensures ParseCounterName(name).Some?
    ensures var k := ParseCounterName(name).value; k in t.counters && t.counters[k] == c && CounterName(k) == name
    ensures forall k | k in t.counters && CounterName(k) == name :: k == ParseCounterName(name).value
  {
    forall k | k in t.counters && CounterName(k) == name ensures ParseCounterName(name) == Some(k) {
      CounterNameRoundTrip(k);
    }
  }

  lemma ListedQuota(name: string, used: nat, t: Table)
    requires Truthful(QuotaItem(name, used), t) && Int64Ids(t)
    ensures ParseQuotaName(name).Some?
    ensures var id := ParseQuotaName(name).value; id in t.quotas && t.quotas[id].Listed() == used && QuotaName(id) == name
    ensures forall id | id in t.quotas && QuotaName(id) == name :: id == ParseQuotaName(name).value
  {
    forall id | id in t.quotas && QuotaName(id) == name ensures ParseQuotaName(name) == Some(id) {
      QuotaNameRoundTrip(id);
    }
  }

  /** s is what the first n items say about t. */
  ghost predicate ReadSoFar(s: Sample, items: seq<Item>, n: nat, t: Table)
    requires n <= |items|
  {
    && (forall k | k in s.counters :: k in t.counters && s.counters[k] == t.counters[k])
    && (forall id | id in s.used :: id in t.quotas && s.used[id] == t.quotas[id].Listed())
    && (forall k | k in t.counters && CounterItem(CounterName(k), t.counters[k]) in items[..n] :: k in s.counters)
    && (forall id | id in t.quotas && QuotaItem(QuotaName(id), t.quotas[id].Listed()) in items[..n] :: id in s.used)
  }

  /** One turn of the sampler's loop: an item whose name does not parse is skipped. */
  function ReadItem(s: Sample, item: Item): Sample {
    match item
    case CounterItem(name, c) =>
      var key := ParseCounterName(name);
      if key.Some? then s.(counters := s.counters[key.value := c]) else s
    case QuotaItem(name, used) =>
      var id := ParseQuotaName(name);
      if id.Some? then s.(used := s.used[id.value := used]) else s
    case OtherItem => s
  }

  lemma ReadOne(s: Sample, items: seq<Item>, n: nat, t: Table)
    requires n < |items| && ReadSoFar(s, items, n, t) && IsListing(items, t) && Int64Ids(t)
    ensures ReadSoFar(ReadItem(s, items[n]), items, n + 1, t)
  {
    hide ParseCounterName, ParseQuotaName, CounterName, QuotaName;
    assert Truthful(items[n], t);
    assert items[..n + 1] == items[..n] + [items[n]];
    match items[n]
    case CounterItem(name, c) => ListedCounter(name, c, t);
    case QuotaItem(name, used) => ListedQuota(name, used, t);
    case OtherItem =>
  }

  /** Reading a listing by name recovers exactly the table's values. */
  method ReadListing(items: seq<Item>, ghost t: Table) returns (s: Sample)
    requires IsListing(items, t) && Int64Ids(t)
    ensures s == SampleOf(t)
  {
    s := NO_SAMPLE;
    for i := 0 to |items|
      invariant ReadSoFar(s, items, i, t)
    {
      ReadOne(s, items, i, t);
      s := ReadItem(s, items[i]);
    }
    ReadAll(s, items, t);
  }

  lemma ReadAll(s: Sample, items: seq<Item>, t: Table)
    requires ReadSoFar(s, items, |items|, t) && IsListing(items, t)
    ensures s == SampleOf(t)
  {
    assert items[..|items|] == items;
    forall k | k in t.counters ensures k in s.counters {
      assert CounterItem(CounterName(k), t.counters[k]) in items;
    }
    KeyMapExt(s.counters, t.counters);
    forall id | id in t.quotas ensures id in s.used {
      assert QuotaItem(QuotaName(id), t.quotas[id].Listed()) in items;
    }
    MapExt(s.used, Listings(t.quotas));
  }

  /** What the kernel's objects are called; by the round trips these names are also read so. */
  lemma NamesSpelled(k: Key, account: int)
    ensures CounterName(k) == (if k.dir == In then "p" + IntText(k.port) + "_in" else "p" + IntText(k.port) + "_out")
    ensures QuotaName(account) == "acct" + IntText(account)
    ensures IntText(305) == "305" && IntText(-7) == "-7" && IntText(0) == "0"
  {
    assert Decimal(30) == Decimal(3) + "0" == "30";
  }

  lemma DigitsEnd(digits: string)
    requires AllDigits(digits)
    ensures !IsSuffix("_in", digits) && !IsSuffix("_out", digits)
  {
    if |digits| >= 3 { assert digits[|digits| - 3..][0] == digits[|digits| - 3]; }
    if |digits| >= 4 { assert digits[|digits| - 4..][0] == digits[|digits| - 4]; }
  }

  /** A name without a direction is no counter's. */
  lemma ForeignNameSkipped(digits: string)
    requires AllDigits(digits)
    ensures ParseCounterName("p" + digits) == None && ParseQuotaName("p" + digits) == None
  {
    hide ScanInt, IsSuffix;
    var name := "p" + digits;
    assert name[1..] == digits && name[0] == 'p' && name[0] != "acct"[0];
    DigitsEnd(digits);
  }
}
