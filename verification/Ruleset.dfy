/** The compiler from snapshots to nftables, and the part of the kernel it relies on.

    Kernel assumptions, stated by the source in its package comment: a `quota over L`
    statement charges the packet and fires when the charged total exceeds L, `drop` ends
    the walk of the chain, and a listed `used` is capped at L. A script is one
    transaction: it replaces the table or changes nothing. */
module Ruleset {
  import opened Model

  datatype Proto = Tcp | Udp | OtherProto

  datatype Packet = Packet(hook: Direction, proto: Proto, sport: int, dport: int, bytes: nat)

  datatype Field = DPort | SPort

  /** `meta l4proto { tcp, udp } th <field> lo-hi` */
  datatype Match = Match(field: Field, lo: int, hi: int) {
    predicate Hits(p: Packet) {
      !p.proto.OtherProto? && lo <= (if field.DPort? then p.dport else p.sport) <= hi
    }
  }

  datatype Action = Drop | QuotaDrop(account: int) | Count(key: Key)

  datatype Rule = Rule(guard: Match, action: Action)

  datatype Quota = Quota(limit: nat, charged: nat) {
    /** The `used` figure a listing shows. */
    function Listed(): nat { if charged <= limit then charged else limit }
  }

  datatype Table = Table(quotas: map<int, Quota>, counters: map<Key, Counter>, chains: map<Direction, seq<Rule>>) {
    function Chain(d: Direction): seq<Rule> { if d in chains then chains[d] else [] }
  }

  const EMPTY_TABLE := Table(map[], map[], map[])

  datatype Kernel = Absent | Present(table: Table)

  /** One reading of the kernel's quotas and counters. */
  datatype Sample = Sample(used: map<int, nat>, counters: map<Key, Counter>)

  const NO_SAMPLE := Sample(map[], map[])

  function Listings(quotas: map<int, Quota>): (used: map<int, nat>)
    ensures forall id :: id in used <==> id in quotas
    ensures forall id | id in used :: used[id] == quotas[id].Listed()
  {
    map id | id in quotas :: quotas[id].Listed()
  }

  function SampleOf(t: Table): Sample { Sample(Listings(t.quotas), t.counters) }

  // ---------------------------------------------------------------- packets

  datatype Outcome = Outcome(accepted: bool, table: Table)

  function Charged(t: Table, account: int, bytes: nat): Table {
    if account in t.quotas
    then t.(quotas := t.quotas[account := t.quotas[account].(charged := t.quotas[account].charged + bytes)])
    else t
  }

  predicate Over(t: Table, account: int) {
    account in t.quotas && t.quotas[account].charged > t.quotas[account].limit
  }

  function Counted(t: Table, k: Key, bytes: nat): Table {
    if k in t.counters
    then t.(counters := t.counters[k := Counter(t.counters[k].packets + 1, t.counters[k].bytes + bytes)])
    else t
  }

  /** The kernel's walk of one chain: rules in order, first drop wins. */
  function Walk(rules: seq<Rule>, p: Packet, t: Table): Outcome {
    if rules == [] then Outcome(true, t)
    else if !rules[0].guard.Hits(p) then Walk(rules[1..], p, t)
    else match rules[0].action
      case Drop => Outcome(false, t)
      case QuotaDrop(a) =>
        var u := Charged(t, a, p.bytes);
        if Over(u, a) then Outcome(false, u) else Walk(rules[1..], p, u)
      case Count(k) => Walk(rules[1..], p, Counted(t, k, p.bytes))
  }

  function Process(t: Table, p: Packet): Outcome { Walk(t.Chain(p.hook), p, t) }

  // ---------------------------------------------------------------- rendering

  /** Ingress matches the destination port, egress the source port. */
  function PortMatch(d: Direction, p: Port): Match {
    Match(if d.Out? then SPort else DPort, p.start, p.end)
  }

  predicate HasQuota(accounts: map<int, Account>, id: int) { id in accounts && accounts[id].tier.HasQuota() }

  /** The rules of one port in one direction: a bare drop when blocked, else breaker then counter. */
  function PortRules(d: Direction, p: Port, accounts: map<int, Account>, blocked: set<int>): seq<Rule> {
    var m := PortMatch(d, p);
    if p.account in blocked then [Rule(m, Drop)]
    else (if HasQuota(accounts, p.account) then [Rule(m, QuotaDrop(p.account))] else [])
         + [Rule(m, Count(Key(p.id, d)))]
  }

  function Rules(d: Direction, ports: seq<Port>, accounts: map<int, Account>, blocked: set<int>): seq<Rule> {
    if ports == [] then [] else PortRules(d, ports[0], accounts, blocked) + Rules(d, ports[1..], accounts, blocked)
  }

  lemma {:induction false} RulesAppend(d: Direction, ps: seq<Port>, p: Port, accounts: map<int, Account>,
                                       blocked: set<int>)
    ensures Rules(d, ps + [p], accounts, blocked) == Rules(d, ps, accounts, blocked) + PortRules(d, p, accounts, blocked)
  {
    if ps == [] {
      assert ps + [p] == [p];
    } else {
      assert (ps + [p])[1..] == ps[1..] + [p];
      RulesAppend(d, ps[1..], p, accounts, blocked);
    }
  }

  lemma {:induction false} LowestExists(m: map<int, Port>)
    requires m.Keys != {}
    ensures exists id :: id in m && forall j | j in m :: m[id].start <= m[j].start
    decreases m.Keys
  {
    var x := Member(m.Keys);
    var rest := m - {x};
    if rest.Keys == {} {
      assert forall j | j in m :: j == x || j in rest;
    } else {
      LowestExists(rest);
      var y :| y in rest && forall j | j in rest :: rest[y].start <= rest[j].start;
      var low := if m[x].start <= m[y].start then x else y;
      assert forall j | j in m :: j == x || j in rest;
      assert low in m && forall j | j in m :: m[low].start <= m[j].start;
    }
  }

  /** The port with the lowest first port number. */
  ghost function Lowest(m: map<int, Port>): (id: int)
    requires m.Keys != {}
    ensures id in m && forall j | j in m :: m[id].start <= m[j].start
  {
    LowestExists(m);
    var id :| id in m && forall j | j in m :: m[id].start <= m[j].start;
    id
  }

  /** The ports in ascending order of their first port number. */
  ghost function Ordered(m: map<int, Port>): seq<Port>
    decreases m.Keys
  {
    if m.Keys == {} then [] else [m[Lowest(m)]] + Ordered(m - {Lowest(m)})
  }

  lemma {:induction false} OrderedLists(m: map<int, Port>)
    requires forall id | id in m :: m[id].id == id
    ensures ListsPorts(Ordered(m), m)
    decreases m.Keys
  {
    if m.Keys != {} {
      var low := Lowest(m);
      var rest := m - {low};
      OrderedLists(rest);
      assert forall i | 0 < i < |Ordered(m)| :: Ordered(m)[i] == Ordered(rest)[i - 1];
      forall id | id in m ensures HasPort(Ordered(m), id) {
        if id == low {
          assert Ordered(m)[0].id == id;
        } else {
          assert id in rest;
          assert HasPort(Ordered(rest), id);
          var i :| 0 <= i < |Ordered(rest)| && Ordered(rest)[i].id == id;
          assert Ordered(m)[i + 1].id == id;
        }
      }
    }
  }

  ghost predicate Ascending(ps: seq<Port>) { forall i, j | 0 <= i < j < |ps| :: ps[i].start <= ps[j].start }

  lemma ListHeadIsLowest(ps: seq<Port>, m: map<int, Port>)
    requires ListsPorts(ps, m) && Ascending(ps) && ps != []
    requires forall i, j | i in m && j in m && i != j :: m[i].start != m[j].start
    ensures m.Keys != {} && Lowest(m) == ps[0].id
  {
    var first := ps[0];
    assert first.id in m && m[first.id] == first;
    forall j | j in m ensures first.start <= m[j].start {
      assert HasPort(ps, j);
      var i :| 0 <= i < |ps| && ps[i].id == j;
      assert m[j] == ps[i];
    }
  }

  lemma ListTail(ps: seq<Port>, m: map<int, Port>)
    requires ListsPorts(ps, m) && ps != []
    ensures ListsPorts(ps[1..], m - {ps[0].id})
  {
    var rest, tail := m - {ps[0].id}, ps[1..];
    assert forall k | 0 <= k < |tail| :: tail[k] == ps[k + 1];
    forall k | k in rest ensures HasPort(tail, k) {
      assert HasPort(ps, k);
      var i :| 0 <= i < |ps| && ps[i].id == k;
      assert i > 0 && tail[i - 1].id == k;
    }
  }

  /** With distinct first ports there is one ascending order, so sorting a slice finds it. */
  lemma {:induction false} SortedIsOrdered(ps: seq<Port>, m: map<int, Port>)
    requires ListsPorts(ps, m) && Ascending(ps)
    requires forall i, j | i in m && j in m && i != j :: m[i].start != m[j].start
    ensures ps == Ordered(m)
  {
    if ps == [] {
      assert m.Keys == {};
    } else {
      ListHeadIsLowest(ps, m);
      ListTail(ps, m);
      SortedIsOrdered(ps[1..], m - {ps[0].id});
    }
  }

  function CounterOf(t: Tree, k: Key): Counter { if k in t.counters then t.counters[k] else Counter(0, 0) }

  function SeededQuotas(accounts: map<int, Account>): map<int, Quota> {
    map id | id in accounts && accounts[id].tier.HasQuota() :: Quota(accounts[id].LimitBytes(), accounts[id].used)
  }

  function SeededCounters(t: Tree): map<Key, Counter> { map k | k in KeysOf(t.ports) :: CounterOf(t, k) }

  ghost function Chains(t: Tree, blocked: set<int>): map<Direction, seq<Rule>> {
    map[In := Rules(In, Ordered(t.ports), t.accounts, blocked), Out := Rules(Out, Ordered(t.ports), t.accounts, blocked)]
  }

  /** The table a snapshot denotes, when `blocked` are the expired accounts. */
  ghost function Rendered(t: Tree, blocked: set<int>): Table {
    Table(SeededQuotas(t.accounts), SeededCounters(t), Chains(t, blocked))
  }

  // ---------------------------------------------------------------- the direct policy

  function PortNumber(p: Packet): int { if p.hook.In? then p.dport else p.sport }

  predicate At(m: map<int, Port>, p: Packet, id: int) {
    id in m && !p.proto.OtherProto? && m[id].Contains(PortNumber(p))
  }

  ghost predicate Managed(m: map<int, Port>, p: Packet) { exists id :: At(m, p, id) }

  /** The entry a packet belongs to; disjoint intervals make it unique. */
  ghost function Entry(m: map<int, Port>, p: Packet): (id: int)
    requires Managed(m, p)
    ensures At(m, p, id)
  {
    var id :| At(m, p, id); id
  }

  lemma EntryUnique(t: Tree, p: Packet, id: int)
    requires t.Valid() && At(t.ports, p, id)
    ensures Entry(t.ports, p) == id
  {
    var e := Entry(t.ports, p);
    assert e != id ==> !t.ports[e].Overlaps(t.ports[id]);
  }

  /** What should happen to a packet, with no rule list in sight: blocked accounts pass nothing
      and touch nothing, unlimited ones are counted, quota ones are charged first. */
  ghost function Policy(t: Tree, blocked: set<int>, p: Packet, tb: Table): Outcome {
    if !Managed(t.ports, p) then Outcome(true, tb)
    else PortPolicy(t.ports[Entry(t.ports, p)], t, blocked, p, tb)
  }

  function PortPolicy(port: Port, t: Tree, blocked: set<int>, p: Packet, tb: Table): Outcome {
    if port.account in blocked then Outcome(false, tb)
    else
      var u := if HasQuota(t.accounts, port.account) then Charged(tb, port.account, p.bytes) else tb;
      if HasQuota(t.accounts, port.account) && Over(u, port.account) then Outcome(false, u)
      else Outcome(true, Counted(u, Key(port.id, p.hook), p.bytes))
  }

  lemma {:induction false} WalkAppend(a: seq<Rule>, b: seq<Rule>, p: Packet, t: Table)
    ensures Walk(a + b, p, t) == (var o := Walk(a, p, t); if o.accepted then Walk(b, p, o.table) else o)
  {
    if a == [] {
      assert a + b == b;
    } else {
      assert (a + b)[0] == a[0] && (a + b)[1..] == a[1..] + b;
      var u := match a[0].action
        case Drop => t
        case QuotaDrop(q) => Charged(t, q, p.bytes)
        case Count(k) => Counted(t, k, p.bytes);
      WalkAppend(a[1..], b, p, t);
      WalkAppend(a[1..], b, p, u);
    }
  }

  lemma WalkPort(port: Port, t: Tree, blocked: set<int>, p: Packet, tb: Table)
    ensures Walk(PortRules(p.hook, port, t.accounts, blocked), p, tb)
            == if !p.proto.OtherProto? && port.Contains(PortNumber(p)) then PortPolicy(port, t, blocked, p, tb) else Outcome(true, tb)
  {
    var m := PortMatch(p.hook, port);
    assert m.Hits(p) <==> !p.proto.OtherProto? && port.Contains(PortNumber(p));
    var count := [Rule(m, Count(Key(port.id, p.hook)))];
    assert forall u: Table :: Walk(count, p, u) == Outcome(true, if m.Hits(p) then Counted(u, Key(port.id, p.hook), p.bytes) else u) by {
      assert count[1..] == [];
    }
    if port.account !in blocked && HasQuota(t.accounts, port.account) {
      var rules := PortRules(p.hook, port, t.accounts, blocked);
      assert rules[0] == Rule(m, QuotaDrop(port.account)) && rules[1..] == count;
    } else if port.account !in blocked {
      assert [] + count == count;
    }
  }

  /** A chain over disjoint entries acts on a packet as its one entry does. */
  lemma {:induction false} WalkPorts(ps: seq<Port>, t: Tree, blocked: set<int>, p: Packet, tb: Table)
    requires t.Valid()
    requires forall i | 0 <= i < |ps| :: ps[i].id in t.ports && t.ports[ps[i].id] == ps[i]
    requires forall i, j | 0 <= i < j < |ps| :: ps[i].id != ps[j].id
    ensures Walk(Rules(p.hook, ps, t.accounts, blocked), p, tb)
            == if Managed(t.ports, p) && HasPort(ps, Entry(t.ports, p)) then Policy(t, blocked, p, tb) else Outcome(true, tb)
  {
    if ps != [] {
      var first, rest := ps[0], ps[1..];
      WalkAppend(PortRules(p.hook, first, t.accounts, blocked), Rules(p.hook, rest, t.accounts, blocked), p, tb);
      WalkPort(first, t, blocked, p, tb);
      var o := Walk(PortRules(p.hook, first, t.accounts, blocked), p, tb);
      WalkPorts(rest, t, blocked, p, o.table);
      if At(t.ports, p, first.id) {
        EntryUnique(t, p, first.id);
        assert ps[0].id == first.id;
        assert !HasPort(rest, first.id);
      } else if Managed(t.ports, p) {
        var e := Entry(t.ports, p);
        assert HasPort(ps, e) <==> HasPort(rest, e) by {
          if HasPort(ps, e) {
            var i :| 0 <= i < |ps| && ps[i].id == e;
            assert rest[i - 1] == ps[i];
          }
          if HasPort(rest, e) {
            var i :| 0 <= i < |rest| && rest[i].id == e;
            assert ps[i + 1] == rest[i];
          }
        }
      }
    }
  }

  /** tb enforces t with `blocked` shut off: it has the chains rendered from them. */
  ghost predicate Enforces(tb: Table, t: Tree, blocked: set<int>) {
    t.Keyed() && t.Valid() && tb.chains == Chains(t, blocked)
  }

  /** Compiler correctness: walking the rendered chain of a packet's hook has the verdict and the
      quota and counter updates of the direct policy, whatever the objects' current values. */
  lemma WalkIsPolicy(tb: Table, t: Tree, blocked: set<int>, p: Packet)
    requires Enforces(tb, t, blocked)
    ensures Process(tb, p) == Policy(t, blocked, p, tb)
  {
    var ps := Ordered(t.ports);
    OrderedLists(t.ports);
    assert tb.Chain(p.hook) == Rules(p.hook, ps, t.accounts, blocked);
    WalkPorts(ps, t, blocked, p, tb);
    if Managed(t.ports, p) {
      assert HasPort(ps, Entry(t.ports, p));
    }
  }

  // ---------------------------------------------------------------- rebuilding from a sample

  /** The table reseeded from its own listing. */
  function Reseeded(t: Table): Table {
    t.(quotas := map id | id in t.quotas :: Quota(t.quotas[id].limit, t.quotas[id].Listed()))
  }

  /** Equal, or both spent: what a listing cannot tell apart. */
  predicate SameOrSpent(a: Quota, b: Quota) {
    a.limit == b.limit && (a.charged == b.charged || (a.charged >= a.limit && b.charged >= b.limit))
  }

  ghost predicate Similar(a: Table, b: Table) {
    && a.chains == b.chains && a.counters == b.counters && a.quotas.Keys == b.quotas.Keys
    && forall id | id in a.quotas :: SameOrSpent(a.quotas[id], b.quotas[id])
  }

  lemma {:induction false} WalkSimilar(rules: seq<Rule>, p: Packet, a: Table, b: Table)
    requires Similar(a, b) && p.bytes > 0
    ensures Walk(rules, p, a).accepted == Walk(rules, p, b).accepted
    ensures Similar(Walk(rules, p, a).table, Walk(rules, p, b).table)
  {
    if rules != [] {
      if rules[0].guard.Hits(p) {
        match rules[0].action
        case Drop =>
        case QuotaDrop(q) =>
          if q in a.quotas { assert SameOrSpent(a.quotas[q], b.quotas[q]); }
          WalkSimilar(rules[1..], p, Charged(a, q, p.bytes), Charged(b, q, p.bytes));
        case Count(k) => WalkSimilar(rules[1..], p, Counted(a, k, p.bytes), Counted(b, k, p.bytes));
      } else {
        WalkSimilar(rules[1..], p, a, b);
      }
    }
  }

  /** The verdicts on a stream of packets and the table it leaves. */
  function Stream(t: Table, ps: seq<Packet>): (seq<bool>, Table)
    decreases |ps|
  {
    if ps == [] then ([], t)
    else var o := Process(t, ps[0]); var (vs, u) := Stream(o.table, ps[1..]); ([o.accepted] + vs, u)
  }

  lemma {:induction false} StreamSimilar(a: Table, b: Table, ps: seq<Packet>)
    requires Similar(a, b) && forall i | 0 <= i < |ps| :: ps[i].bytes > 0
    ensures Stream(a, ps).0 == Stream(b, ps).0
    ensures Similar(Stream(a, ps).1, Stream(b, ps).1)
    decreases |ps|
  {
    if ps != [] {
      WalkSimilar(a.Chain(ps[0].hook), ps[0], a, b);
      StreamSimilar(Process(a, ps[0]).table, Process(b, ps[0]).table, ps[1..]);
    }
  }

  lemma ReseededSimilar(t: Table)
    ensures Similar(Reseeded(t), t)
  {
  }

  lemma SimilarListing(a: Table, b: Table)
    requires Similar(a, b)
    ensures SampleOf(a) == SampleOf(b)
  {
    forall id | id in a.quotas ensures a.quotas[id].Listed() == b.quotas[id].Listed() {
      assert SameOrSpent(a.quotas[id], b.quotas[id]);
    }
    assert SampleOf(a).used == SampleOf(b).used;
  }

  /** Rebuild transparency: over every stream of non-empty packets a table reseeded from its own
      listing gives the same verdicts, the same counters and the same later listing. */
  lemma {:induction false} ReseedTransparent(t: Table, ps: seq<Packet>)
    requires forall i | 0 <= i < |ps| :: ps[i].bytes > 0
    ensures Stream(Reseeded(t), ps).0 == Stream(t, ps).0
    ensures SampleOf(Stream(Reseeded(t), ps).1) == SampleOf(Stream(t, ps).1)
  {
    ReseededSimilar(t);
    StreamSimilar(Reseeded(t), t, ps);
    SimilarListing(Stream(Reseeded(t), ps).1, Stream(t, ps).1);
  }

  /** Emptiness is the exact exception: on a metered entry the reseeded table decides a packet
      like the original if and only if the packet is non-empty or the quota is not overcharged. */
  lemma ReseedVerdictExact(tb: Table, t: Tree, blocked: set<int>, p: Packet)
    requires Enforces(tb, t, blocked) && Managed(t.ports, p)
    requires var a := t.ports[Entry(t.ports, p)].account;
             a !in blocked && HasQuota(t.accounts, a) && a in tb.quotas
    ensures var q := tb.quotas[t.ports[Entry(t.ports, p)].account];
            Process(Reseeded(tb), p).accepted == Process(tb, p).accepted <==> p.bytes > 0 || q.charged <= q.limit
  {
    WalkIsPolicy(tb, t, blocked, p);
    WalkIsPolicy(Reseeded(tb), t, blocked, p);
  }

  /** Overwriting a tree with a sample, as every rebuild does before it seeds the new table. */
  function Adopt(t: Tree, s: Sample): Tree {
    t.(accounts := FoldUsed(t.accounts, s.used), counters := t.counters + s.counters)
  }

  function FoldUsed(accounts: map<int, Account>, used: map<int, nat>): map<int, Account> {
    map id | id in accounts :: if id in used then accounts[id].(used := used[id]) else accounts[id]
  }

  /** Rules depend on the accounts only through which of them have a quota. */
  lemma {:induction false} RulesSameDesign(d: Direction, ps: seq<Port>, a: map<int, Account>, b: map<int, Account>,
                                           blocked: set<int>)
    requires forall id :: HasQuota(a, id) == HasQuota(b, id)
    ensures Rules(d, ps, a, blocked) == Rules(d, ps, b, blocked)
  {
    if ps != [] {
      RulesSameDesign(d, ps[1..], a, b, blocked);
    }
  }

  // ---------------------------------------------------------------- the fate of a packet, spelled out

  /** The packet is TCP or UDP and goes to a number of the range on its way in, or comes from one on its way out. */
  predicate Reaches(p: Packet, q: Port) {
    (p.proto == Tcp || p.proto == Udp) && (if p.hook == In then q.start <= p.dport <= q.end else q.start <= p.sport <= q.end)
  }

  /** u is t with `bytes` more on account's quota if it is charged, and one packet more on the counter if it
      is counted, and nothing else. */
  ghost predicate Touched(t: Table, u: Table, charged: bool, account: int, counted: bool, k: Key, bytes: nat) {
    && u.chains == t.chains
    && (forall id :: id in u.quotas <==> id in t.quotas)
    && (forall j :: j in u.counters <==> j in t.counters)
    && (forall id | id in t.quotas ::
          && u.quotas[id].limit == t.quotas[id].limit
          && u.quotas[id].charged == t.quotas[id].charged + if charged && id == account then bytes else 0)
    && (forall j | j in t.counters ::
          u.counters[j] == if counted && j == k then Counter(t.counters[j].packets + 1, t.counters[j].bytes + bytes) else t.counters[j])
  }

  /** Under enforced rules a packet that reaches a port is dropped untouched if the account is shut off; is
      charged to the account's quota first if it has one, and dropped if that takes the charge above the
      limit; and otherwise passes and is counted on the port's counter for its direction. */
  lemma PacketFate(tb: Table, t: Tree, blocked: set<int>, p: Packet, id: int)
    requires Enforces(tb, t, blocked) && id in t.ports && Reaches(p, t.ports[id])
    requires HasQuota(t.accounts, t.ports[id].account) ==> t.ports[id].account in tb.quotas
    ensures t.ports[id].account in t.accounts
    ensures var a, o := t.ports[id].account, Process(tb, p);
            var metered := t.accounts[a].tier == Monthly || t.accounts[a].tier == OneShot;
            && (a in blocked ==> o == Outcome(false, tb))
            && (a !in blocked && !metered ==> o.accepted && Touched(tb, o.table, false, a, true, Key(id, p.hook), p.bytes))
            && (a !in blocked && metered ==>
                  && (o.accepted <==> tb.quotas[a].charged + p.bytes <= tb.quotas[a].limit)
                  && Touched(tb, o.table, true, a, o.accepted, Key(id, p.hook), p.bytes))
  {
    WalkIsPolicy(tb, t, blocked, p);
    assert At(t.ports, p, id);
    EntryUnique(t, p, id);
    PolicyFate(t.ports[id], t, blocked, p, tb);
    hide Process, PortPolicy, Touched;
  }

  lemma PolicyFate(port: Port, t: Tree, blocked: set<int>, p: Packet, tb: Table)
    requires port.account in t.accounts && (HasQuota(t.accounts, port.account) ==> port.account in tb.quotas)
    ensures var a, o := port.account, PortPolicy(port, t, blocked, p, tb);
            var metered := t.accounts[a].tier == Monthly || t.accounts[a].tier == OneShot;
            && (a in blocked ==> o == Outcome(false, tb))
            && (a !in blocked && !metered ==> o.accepted && Touched(tb, o.table, false, a, true, Key(port.id, p.hook), p.bytes))
            && (a !in blocked && metered ==>
                  && (o.accepted <==> tb.quotas[a].charged + p.bytes <= tb.quotas[a].limit)
                  && Touched(tb, o.table, true, a, o.accepted, Key(port.id, p.hook), p.bytes))
  {
  }

  /** Every other packet passes and touches nothing. */
  lemma StrangerPasses(tb: Table, t: Tree, blocked: set<int>, p: Packet)
    requires Enforces(tb, t, blocked) && forall id | id in t.ports :: !Reaches(p, t.ports[id])
    ensures Process(tb, p) == Outcome(true, tb)
  {
    WalkIsPolicy(tb, t, blocked, p);
    assert forall id | id in t.ports :: !At(t.ports, p, id);
    hide Process;
  }
}
