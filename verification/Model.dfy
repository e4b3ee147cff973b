/** Domain types of the metering daemon: accounts own ports, ports own a pair of
    counters, and a snapshot is the desired state rendered into the kernel. */
module Model {

  datatype Option<+T> = None | Some(value: T)

  lemma Member<T>(s: set<T>) returns (x: T)
    requires s != {}
    ensures x in s
  {
    x :| x in s;
  }

  lemma MapDiff<K, V>(a: map<K, V>, b: map<K, V>) returns (k: K)
    requires a != b
    ensures (k in a) != (k in b) || (k in a && k in b && a[k] != b[k])
  {
    k :| (k in a) != (k in b) || (k in a && k in b && a[k] != b[k]);
  }

  lemma SetDiff<K>(a: set<K>, b: set<K>) returns (k: K)
    requires a != b
    ensures (k in a) != (k in b)
  {
    k :| (k in a) != (k in b);
  }

  /** Maps with the same entries are equal. */
  lemma MapExt<V>(a: map<int, V>, b: map<int, V>)
    requires forall k: int :: k in a <==> k in b
    requires forall k: int | k in a :: a[k] == b[k]
    ensures a == b
  {
    if a != b { var k := MapDiff(a, b); }
  }

  lemma KeyMapExt<V>(a: map<Key, V>, b: map<Key, V>)
    requires forall k: Key :: k in a <==> k in b
    requires forall k: Key | k in a :: a[k] == b[k]
    ensures a == b
  {
    if a != b { var k := MapDiff(a, b); }
  }

  lemma SetExt(a: set<int>, b: set<int>)
    requires forall k: int :: k in a <==> k in b
    ensures a == b
  {
    if a != b { var k := SetDiff(a, b); }
  }

  /** An instant, in nanoseconds since the Unix epoch. */
  type Time = int

  const SECOND: int := 1_000_000_000

  /** The zero time.Time (year 1), which never counts as "expired". */
  const ZERO_TIME: Time := -62_135_596_800 * SECOND

  /** Whole seconds since the epoch, rounded down. */
  function Unix(t: Time): int { t / SECOND }

  datatype Tier = Monthly | OneShot | Unlimited | Other(text: string) {
    predicate HasQuota() { Monthly? || OneShot? }
    predicate Resets() { Monthly? }
    predicate Valid() { !Other? }
  }

  datatype Direction = In | Out

  const DIRECTIONS: seq<Direction> := [In, Out]

  datatype Account = Account(
    id: int, name: string, tier: Tier, limitGiB: real, anchorDay: int,
    used: nat, lastReset: int, token: string, expires: int)
  {
    predicate HasExpiry() { tier.HasQuota() && expires > 0 }

    predicate ExpiredAt(now: Time) { HasExpiry() && now != ZERO_TIME && Unix(now) >= expires }

    /** The quota ceiling in bytes. */
    function LimitBytes(): nat {
      if !tier.HasQuota() || limitGiB <= 0.0 then 0 else (limitGiB * 1073741824.0).Floor
    }

    /** The part of an account the kernel's structure and the operator's intent depend on:
        everything but the recorded usage. */
    function Design(): Account { this.(used := 0) }

    ghost predicate WellFormed() { tier.Valid() && (tier.HasQuota() ==> limitGiB > 0.0) }
  }

  type uint16 = x: int | 0 <= x < 0x1_0000

  datatype Port = Port(id: int, account: int, start: uint16, end: uint16) {
    predicate Overlaps(q: Port) { start <= q.end && q.start <= end }
    predicate ValidRange() { start >= 1 && start <= end }
    predicate Contains(n: int) { start <= n <= end }
  }

  datatype Counter = Counter(packets: nat, bytes: nat)

  datatype Key = Key(port: int, dir: Direction)

  /** The two counter keys of every port. */
  function KeysOf(ports: map<int, Port>): (keys: set<Key>)
    ensures forall k :: k in keys <==> k.port in ports
  {
    set id, d: Direction | id in ports :: Key(id, d)
  }

  /** Desired state as relations: what the tables hold, and what a snapshot lists. */
  datatype Tree = Tree(accounts: map<int, Account>, ports: map<int, Port>, counters: map<Key, Counter>) {
    ghost predicate Keyed() {
      && (forall id | id in accounts :: accounts[id].id == id)
      && (forall id | id in ports :: ports[id].id == id)
    }

    /** What Snapshot.Validate promises about the state a snapshot lists. */
    ghost predicate Valid() {
      && (forall id | id in accounts :: accounts[id].WellFormed())
      && (forall id | id in ports :: ports[id].account in accounts && ports[id].ValidRange())
      && (forall i, j | i in ports && j in ports && i != j :: !ports[i].Overlaps(ports[j]))
    }

    function ExpiredSet(now: Time): (r: set<int>)
      ensures forall id :: id in r <==> id in accounts && accounts[id].ExpiredAt(now)
    {
      set id | id in accounts && accounts[id].ExpiredAt(now)
    }
  }

  /** Two trees with the same accounts up to recorded usage, and the same ports. */
  ghost predicate SameDesign(s: Tree, t: Tree) {
    && s.ports == t.ports
    && s.accounts.Keys == t.accounts.Keys
    && (forall id | id in s.accounts :: s.accounts[id].Design() == t.accounts[id].Design())
  }

  lemma SameDesignKeeps(s: Tree, t: Tree)
    requires SameDesign(s, t)
    ensures s.Valid() <==> t.Valid()
    ensures s.Keyed() <==> t.Keyed()
    ensures forall now :: s.ExpiredSet(now) == t.ExpiredSet(now)
  {
    forall id | id in s.accounts
      ensures s.accounts[id].id == t.accounts[id].id
      ensures s.accounts[id].WellFormed() == t.accounts[id].WellFormed()
      ensures forall now :: s.accounts[id].ExpiredAt(now) == t.accounts[id].ExpiredAt(now)
    {
      assert s.accounts[id].Design() == t.accounts[id].Design();
    }
    forall now ensures s.ExpiredSet(now) == t.ExpiredSet(now) {
      forall id ensures id in s.ExpiredSet(now) <==> id in t.ExpiredSet(now) {
        if id in s.accounts {
          assert s.accounts[id].ExpiredAt(now) == t.accounts[id].ExpiredAt(now);
        }
      }
    }
  }

  /** A snapshot as the engine holds it: slices in table order, plus a reference time. */
  datatype Snapshot = Snapshot(accounts: seq<Account>, ports: seq<Port>, counters: map<Key, Counter>, now: Time) {
    ghost predicate WellFormed() {
      && (forall i | 0 <= i < |accounts| :: accounts[i].WellFormed())
      && (forall i | 0 <= i < |ports| :: HasAccount(accounts, ports[i].account) && ports[i].ValidRange())
      && (forall i, j | 0 <= j < i < |ports| :: !ports[i].Overlaps(ports[j]))
    }
  }

  ghost predicate ListsAccounts(xs: seq<Account>, m: map<int, Account>) {
    && (forall i | 0 <= i < |xs| :: xs[i].id in m && m[xs[i].id] == xs[i])
    && (forall id | id in m :: HasAccount(xs, id))
    && (forall i, j | 0 <= i < j < |xs| :: xs[i].id != xs[j].id)
  }

  ghost predicate HasAccount(xs: seq<Account>, id: int) { exists i :: 0 <= i < |xs| && xs[i].id == id }

  ghost predicate HasPort(xs: seq<Port>, id: int) { exists i :: 0 <= i < |xs| && xs[i].id == id }

  ghost predicate ListsPorts(xs: seq<Port>, m: map<int, Port>) {
    && (forall i | 0 <= i < |xs| :: xs[i].id in m && m[xs[i].id] == xs[i])
    && (forall id | id in m :: HasPort(xs, id))
    && (forall i, j | 0 <= i < j < |xs| :: xs[i].id != xs[j].id)
  }

  /** The slices of s list exactly the rows of t, each once. */
  ghost predicate Lists(s: Snapshot, t: Tree) {
    ListsAccounts(s.accounts, t.accounts) && ListsPorts(s.ports, t.ports) && s.counters == t.counters
  }

  /** Why a snapshot was refused, with the offending positions. */
  datatype Invalid =
    | BadTier(i: nat) | NoLimit(i: nat)
    | UnknownAccount(i: nat) | BadRange(i: nat) | Overlap(i: nat, j: nat)

  ghost predicate Explains(s: Snapshot, e: Invalid) {
    match e
    case BadTier(i) => i < |s.accounts| && !s.accounts[i].tier.Valid()
    case NoLimit(i) => i < |s.accounts| && s.accounts[i].tier.HasQuota() && s.accounts[i].limitGiB <= 0.0
    case UnknownAccount(i) => i < |s.ports| && !HasAccount(s.accounts, s.ports[i].account)
    case BadRange(i) => i < |s.ports| && !s.ports[i].ValidRange()
    case Overlap(i, j) => j < i < |s.ports| && s.ports[i].Overlaps(s.ports[j])
  }

  /** The last structural guard before every kernel Apply. */
  method Validate(s: Snapshot) returns (refusal: Option<Invalid>)
    ensures refusal.None? <==> s.WellFormed()
    ensures refusal.Some? ==> Explains(s, refusal.value)
  {
    var known: set<int> := {};
    for i := 0 to |s.accounts|
      invariant forall k | 0 <= k < i :: s.accounts[k].WellFormed()
      invariant forall a :: a in known <==> exists k :: 0 <= k < i && s.accounts[k].id == a
    {
      var a := s.accounts[i];
      if !a.tier.Valid() { return Some(BadTier(i)); }
      if a.tier.HasQuota() && a.limitGiB <= 0.0 { return Some(NoLimit(i)); }
      known := known + {a.id};
    }
    for i := 0 to |s.ports|
      invariant forall k | 0 <= k < i :: s.ports[k].account in known && s.ports[k].ValidRange()
      invariant forall k, j | 0 <= j < k < i :: !s.ports[k].Overlaps(s.ports[j])
    {
      var p := s.ports[i];
      if p.account !in known { return Some(UnknownAccount(i)); }
      if !p.ValidRange() { return Some(BadRange(i)); }
      for j := 0 to i
        invariant forall k | 0 <= k < j :: !p.Overlaps(s.ports[k])
      {
        if p.Overlaps(s.ports[j]) { return Some(Overlap(i, j)); }
      }
    }
    return None;
  }

  /** The slice form and the relational form of validity agree. */
  lemma WellFormedIsValid(s: Snapshot, t: Tree)
    requires Lists(s, t)
    ensures s.WellFormed() <==> t.Valid()
  {
    if s.WellFormed() {
      forall id | id in t.accounts ensures t.accounts[id].WellFormed() {
        var i :| 0 <= i < |s.accounts| && s.accounts[i].id == id;
      }
      forall id | id in t.ports ensures t.ports[id].account in t.accounts && t.ports[id].ValidRange() {
        var i :| 0 <= i < |s.ports| && s.ports[i].id == id;
        assert HasAccount(s.accounts, s.ports[i].account);
      }
      forall i, j | i in t.ports && j in t.ports && i != j ensures !t.ports[i].Overlaps(t.ports[j]) {
        var x :| 0 <= x < |s.ports| && s.ports[x].id == i;
        var y :| 0 <= y < |s.ports| && s.ports[y].id == j;
        assert if x < y then !s.ports[y].Overlaps(s.ports[x]) else !s.ports[x].Overlaps(s.ports[y]);
      }
    }
    if t.Valid() {
      forall i | 0 <= i < |s.accounts| ensures s.accounts[i].WellFormed() {
        assert t.accounts[s.accounts[i].id] == s.accounts[i];
      }
      forall i | 0 <= i < |s.ports| ensures HasAccount(s.accounts, s.ports[i].account) && s.ports[i].ValidRange() {
        assert t.ports[s.ports[i].id] == s.ports[i];
      }
      forall i, j | 0 <= j < i < |s.ports| ensures !s.ports[i].Overlaps(s.ports[j]) {
        assert s.ports[j].id != s.ports[i].id;
      }
    }
  }

  /** The engine's incremental checks decide full validity: AddPort's tests hold exactly
      when the tree with the new row still satisfies the all-pairs Validate. */
  lemma AddPortCheckExact(t: Tree, p: Port)
    requires t.Valid() && p.id !in t.ports
    ensures t.(ports := t.ports[p.id := p]).Valid() <==>
            p.account in t.accounts && p.ValidRange() && forall id | id in t.ports :: !t.ports[id].Overlaps(p)
  {
    var u := t.(ports := t.ports[p.id := p]);
    if u.Valid() {
      assert u.ports[p.id] == p;
      forall id | id in t.ports ensures !t.ports[id].Overlaps(p) {
        assert u.ports[id] == t.ports[id] && !u.ports[id].Overlaps(u.ports[p.id]);
      }
    }
  }

  /** EditPort's tests, which skip the edited row, likewise decide full validity. */
  lemma EditPortCheckExact(t: Tree, id: int, start: uint16, end: uint16)
    requires t.Valid() && id in t.ports
    ensures var p := t.ports[id].(start := start, end := end);
            t.(ports := t.ports[id := p]).Valid() <==>
            p.ValidRange() && forall j | j in t.ports && j != id :: !t.ports[j].Overlaps(p)
  {
    var p := t.ports[id].(start := start, end := end);
    var u := t.(ports := t.ports[id := p]);
    if u.Valid() {
      assert u.ports[id] == p;
      forall j | j in t.ports && j != id ensures !t.ports[j].Overlaps(p) {
        assert u.ports[j] == t.ports[j] && !u.ports[j].Overlaps(u.ports[id]);
      }
    }
  }

  // ---------------------------------------------------------------- the domain predicates, spelled out

  /** A quota of L GiB is the largest whole number of bytes within L times 2^30. */
  lemma LimitSpelled(a: Account)
    ensures a.tier == Monthly || a.tier == OneShot ==> a.limitGiB > 0.0 ==>
              a.LimitBytes() as real <= a.limitGiB * 1073741824.0 < (a.LimitBytes() + 1) as real
    ensures (a.tier != Monthly && a.tier != OneShot) || a.limitGiB <= 0.0 ==> a.LimitBytes() == 0
  {
  }

  /** An account is expired from the very second on that its row names, if it has one and a quota tier. */
  lemma ExpiredSpelled(t: Tree, now: Time)
    ensures forall id :: id in t.ExpiredSet(now) <==>
              id in t.accounts && (t.accounts[id].tier == Monthly || t.accounts[id].tier == OneShot)
              && 0 < t.accounts[id].expires && t.accounts[id].expires * 1_000_000_000 <= now
  {
    forall e: int ensures now / 1_000_000_000 >= e <==> now >= e * 1_000_000_000 {
    }
  }

  predicate Between(lo: int, n: int, hi: int) { lo <= n <= hi }

  /** Ranges overlap exactly when they share a port number. */
  lemma OverlapsExact(p: Port, q: Port)
    requires p.ValidRange() && q.ValidRange()
    ensures p.Overlaps(q) <==> exists n :: Between(p.start, n, p.end) && Between(q.start, n, q.end)
  {
    if p.Overlaps(q) {
      var n := if p.start <= q.start then q.start else p.start;
      assert Between(p.start, n, p.end) && Between(q.start, n, q.end);
    }
  }

  /** What Validate lets through: known tiers, limits where a quota needs one, ports of existing accounts
      with a range from 1 up, and no port number in two of them. */
  lemma ValidSpelled(t: Tree)
    ensures t.Valid() <==>
      && (forall id | id in t.accounts :: t.accounts[id].tier in {Monthly, OneShot, Unlimited}
            && (t.accounts[id].tier != Unlimited ==> t.accounts[id].limitGiB > 0.0))
      && (forall id | id in t.ports :: t.ports[id].account in t.accounts && 1 <= t.ports[id].start <= t.ports[id].end)
      && (forall i, j | i in t.ports && j in t.ports && i != j ::
            forall n | Between(t.ports[i].start, n, t.ports[i].end) :: !Between(t.ports[j].start, n, t.ports[j].end))
  {
    forall i, j | i in t.ports && j in t.ports && t.ports[i].ValidRange() && t.ports[j].ValidRange()
      ensures !t.ports[i].Overlaps(t.ports[j]) <==>
              forall n | Between(t.ports[i].start, n, t.ports[i].end) :: !Between(t.ports[j].start, n, t.ports[j].end)
    {
      OverlapsExact(t.ports[i], t.ports[j]);
    }
    assert t.Valid() ==> forall id | id in t.accounts :: t.accounts[id].WellFormed();
    assert forall id | id in t.accounts :: t.accounts[id].WellFormed() <==>
      t.accounts[id].tier in {Monthly, OneShot, Unlimited} && (t.accounts[id].tier != Unlimited ==> t.accounts[id].limitGiB > 0.0);
    hide Port.Overlaps, Between, Account.WellFormed;
  }
}
