/** Where every accepted byte goes: an account kept beside the machine, never read by it. */
module Metering {
  import opened Model
  import opened Ruleset
  import opened Tables
  import opened Engine
  import opened Structure
  import opened Invariant
  import opened Mutations

  /** Per counter: bytes accepted since the port's counter came to be, bytes accepted inside the
      sample-to-apply window of a successful rebuild (and so replaced away), and bytes accepted
      since the last sample a rebuild started from. Per quota: the same for the account since its
      limit or usage was last set, and the usage it was then seeded with. */
  datatype Meter = Meter(
    accepted: map<Key, nat>, lost: map<Key, nat>, window: map<Key, nat>,
    spent: map<int, nat>, lostSpend: map<int, nat>, spendWindow: map<int, nat>, base: map<int, nat>)

  function Get<K>(m: map<K, nat>, k: K): nat { if k in m then m[k] else 0 }

  function Plus<K>(m: map<K, nat>, k: K, n: nat): map<K, nat> { m[k := Get(m, k) + n] }

  function Sum<K>(a: map<K, nat>, b: map<K, nat>): map<K, nat> {
    map k | k in a.Keys + b.Keys :: Get(a, k) + Get(b, k)
  }

  ghost function MeterPacket(s: State, m: Meter, p: Packet): Meter {
    if s.kernel.Absent? || !Managed(s.given.ports, p) || !Process(s.kernel.table, p).accepted then m
    else
      var port := s.given.ports[Entry(s.given.ports, p)];
      var k := Key(port.id, p.hook);
      MeterAccepted(m, k, port.account, HasQuota(s.given.accounts, port.account), p.bytes)
  }

  function MeterAccepted(m: Meter, k: Key, account: int, quota: bool, bytes: nat): Meter {
    var n := m.(accepted := Plus(m.accepted, k, bytes), window := Plus(m.window, k, bytes));
    if quota then n.(spent := Plus(n.spent, account, bytes), spendWindow := Plus(n.spendWindow, account, bytes)) else n
  }

  /** The account's limit and usage are carried over by a rebuild, not set by it. */
  predicate Continues(was: map<int, Quota>, now: map<int, Quota>, op: Op, id: int) {
    id in was && id in now && was[id].limit == now[id].limit && !TargetsUsage(op, id)
  }

  /** A rebuild: window traffic is lost, and quotas whose limit or usage was set start over. */
  function MeterRebuild(m: Meter, was: map<int, Quota>, now: map<int, Quota>, op: Op): Meter {
    m.(lost := Sum(m.lost, m.window), window := map[], spendWindow := map[],
       spent := map id | id in now :: if Continues(was, now, op, id) then Get(m.spent, id) else 0,
       lostSpend := map id | id in now ::
         if Continues(was, now, op, id) then Get(m.lostSpend, id) + Get(m.spendWindow, id) else 0,
       base := map id | id in now :: if Continues(was, now, op, id) then Get(m.base, id) else now[id].Listed())
  }

  function Quotas(k: Kernel): map<int, Quota> { if k.Present? then k.table.quotas else map[] }

  ghost function MeterNext(s: State, m: Meter, st: Step): Meter
    requires Enabled(s, st)
  {
    match st
    case Traffic(p) => MeterPacket(s, m, p)
    case Begin(_) => m.(window := map[], spendWindow := map[])
    case Start => m.(window := map[], spendWindow := map[])
    case ApplyOk => MeterRebuild(m, Quotas(s.kernel), Next(s, st).kernel.table.quotas, s.proc.lock.op)
    case StartOk =>
      var table := Next(s, st).kernel.table;
      if s.proc.hot then MeterRebuild(m, Quotas(s.kernel), table.quotas, Resync)
      else Meter(map k | k in table.counters :: table.counters[k].bytes, map[], map[],
                 map[], map[], map[], Listings(table.quotas))
    case _ => m
  }

  // ---------------------------------------------------------------- what persists without straddling

  /** A batch copied earlier lands between a reconcile's fold and its reload. */
  ghost predicate Straddles(s: State, st: Step) {
    st.PersistWrite? && s.proc.Running? && (s.proc.lock.Folded? || s.proc.lock.Mutated?)
  }

  const ZERO := Counter(0, 0)

  /** The sample mentions no counter of a port that the kernel does not have yet. */
  ghost predicate Known(r: Sample, s: State) {
    s.kernel.Present? && forall k | k in r.counters ::
      k.port < s.db.nextPort && (k.port in s.db.tree.ports ==> k in s.kernel.table.counters)
  }

  /** A port that has never been in the kernel has a zero row, and no sample in flight mentions it. */
  ghost predicate Ledger(s: State) {
    && (s.kernel.Present? ==> forall k | k in s.db.tree.counters && k !in s.kernel.table.counters :: s.db.tree.counters[k] == ZERO)
    && match s.proc
       case Down => true
       case Starting(_, live, hot, _) => if hot then Known(live, s) else s.kernel.Absent? && live == NO_SAMPLE
       case Running(mem, sampler, batches, _) =>
         && Known(mem.live, s)
         && (sampler.Holding? ==> Known(sampler.reading, s))
         && (forall i | 0 <= i < |batches| :: Known(batches[i], s))
  }

  /** The kernel's counters and quotas are the sample's plus what passed since. */
  ghost predicate Pending(s: State, m: Meter, seen: Sample) {
    && s.kernel.Present?
    && (forall k :: k in seen.counters <==> k in s.kernel.table.counters)
    && (forall id :: id in seen.used <==> id in s.kernel.table.quotas)
    && (forall k | k in seen.counters :: s.kernel.table.counters[k].bytes == seen.counters[k].bytes + Get(m.window, k))
    && (forall id | id in seen.used ::
          && seen.used[id] <= s.kernel.table.quotas[id].limit
          && Get(m.spent, id) + Get(m.base, id) <= seen.used[id] + Get(m.lostSpend, id) + Get(m.spendWindow, id))
  }

  /** What a rebuild must seed an account with that had a quota when it sampled. */
  function Expected(op: Op, seen: Sample, id: int): nat
    requires id in seen.used
  {
    if TargetsUsage(op, id) then Requested(op) else seen.used[id]
  }

  /** Rows the sample covers carry its counters, and rows it does not are untouched zeros. */
  ghost predicate CarriesCounters(t: Tree, seen: Sample) {
    && t.counters.Keys == KeysOf(t.ports)
    && forall k | k in t.counters :: t.counters[k] == if k in seen.counters then seen.counters[k] else ZERO
  }

  ghost predicate CarriesUsed(t: Tree, seen: Sample, op: Op) {
    forall id | id in t.accounts && id in seen.used :: t.accounts[id].used == Expected(op, seen, id)
  }

  ghost predicate LockMeter(s: State, m: Meter, mem: Mem, lock: Lock) {
    match lock
    case Free => true
    case Sampled(_, seen) => Pending(s, m, seen) && mem.live == seen
    case Folded(_, seen) =>
      Pending(s, m, seen) && mem.live == seen && CarriesCounters(s.db.tree, seen) && CarriesUsed(s.db.tree, seen, Resync)
    case Mutated(op, seen) =>
      Pending(s, m, seen) && CarriesCounters(s.db.tree, seen) && CarriesUsed(s.db.tree, seen, op) && LiveFollows(mem.live, seen, op)
    case Loaded(op, seen, tree) =>
      Pending(s, m, seen) && CarriesCounters(tree, seen) && CarriesUsed(tree, seen, op) && LiveFollows(mem.live, seen, op)
    case Applied(_, _, _, _) => true
  }

  /** Memory's live view is the sample, but for the target of a usage change. */
  ghost predicate LiveFollows(live: Sample, seen: Sample, op: Op) {
    forall id | id in live.used && !TargetsUsage(op, id) :: id in seen.used && live.used[id] == seen.used[id]
  }

  /** What a start-up sampled is what it will seed. */
  ghost predicate StartMeter(s: State, m: Meter, snap: Tree, live: Sample) {
    && Pending(s, m, live) && CarriesUsed(snap, live, Resync)
    && (forall k: Key | k.port in snap.ports :: CounterOf(snap, k) == if k in live.counters then live.counters[k] else ZERO)
  }

  /** Every accepted byte is in the kernel counter or was lost in a rebuild window. */
  ghost predicate Conserved(s: State, m: Meter) {
    s.kernel.Present? ==>
      && (forall k | k in s.kernel.table.counters ::
            Get(m.accepted, k) == s.kernel.table.counters[k].bytes + Get(m.lost, k))
      && (forall k: Key | k !in s.kernel.table.counters && (k.port in s.db.tree.ports || k.port >= s.db.nextPort) ::
            Get(m.accepted, k) == 0 && Get(m.lost, k) == 0 && Get(m.window, k) == 0)
  }

  /** Spending since the limit or usage was set stays within what the quota lists, up to window traffic. */
  ghost predicate Bounded(s: State, m: Meter) {
    s.kernel.Present? ==> forall id | id in s.kernel.table.quotas ::
      var q := s.kernel.table.quotas[id];
      Get(m.base, id) <= q.limit && Get(m.spent, id) + Get(m.base, id) <= q.Listed() + Get(m.lostSpend, id)
  }

  ghost predicate Metered(s: State, m: Meter) {
    && Ledger(s) && Conserved(s, m) && Bounded(s, m)
    && (s.proc.Starting? && s.proc.hot ==> StartMeter(s, m, s.proc.snap, s.proc.live))
    && (s.proc.Running? ==> LockMeter(s, m, s.proc.mem, s.proc.lock))
  }

  // ---------------------------------------------------------------- packets

  lemma PlusGet<K>(m: map<K, nat>, k: K, n: nat)
    ensures forall j :: Get(Plus(m, k, n), j) == Get(m, j) + if j == k then n else 0
  {
  }

  lemma ChargeEffect(t: Table, account: int, bytes: nat)
    ensures var u := Charged(t, account, bytes);
      && u.counters == t.counters && u.quotas.Keys == t.quotas.Keys
      && (forall id | id in t.quotas :: u.quotas[id].limit == t.quotas[id].limit && u.quotas[id].Listed() >= t.quotas[id].Listed())
      && (account in t.quotas && !Over(u, account) ==> u.quotas[account].Listed() == t.quotas[account].Listed() + bytes)
  {
    SetExt(Charged(t, account, bytes).quotas.Keys, t.quotas.Keys);
  }

  /** u is t after accepting (or not) a packet on key's port, charging `account` if it has a quota. */
  ghost predicate Moved(t: Table, u: Table, accepted: bool, key: Key, account: int, quota: bool, bytes: nat) {
    && (forall k :: k in t.counters <==> k in u.counters)
    && (forall id :: id in t.quotas <==> id in u.quotas)
    && (forall k | k in t.counters :: u.counters[k].bytes == t.counters[k].bytes + if accepted && k == key then bytes else 0)
    && (forall id | id in t.quotas :: u.quotas[id].limit == t.quotas[id].limit)
    && (forall id | id in t.quotas ::
          u.quotas[id].Listed() >= t.quotas[id].Listed() + if accepted && quota && id == account then bytes else 0)
  }

  lemma PortPolicyEffect(port: Port, t: Tree, blocked: set<int>, p: Packet, tb: Table)
    requires Key(port.id, p.hook) in tb.counters
    ensures var o := PortPolicy(port, t, blocked, p, tb);
            Moved(tb, o.table, o.accepted, Key(port.id, p.hook), port.account, HasQuota(t.accounts, port.account), p.bytes)
  {
    ChargeEffect(tb, port.account, p.bytes);
    hide Charged;
  }

  /** The table's values moved from t to u as the meter moved from m to n. */
  ghost predicate InStep(t: Table, u: Table, m: Meter, n: Meter) {
    && (forall k :: k in t.counters <==> k in u.counters)
    && (forall id :: id in t.quotas <==> id in u.quotas)
    && (forall k | k in t.counters ::
          && u.counters[k].bytes + Get(m.accepted, k) == t.counters[k].bytes + Get(n.accepted, k)
          && u.counters[k].bytes + Get(m.window, k) == t.counters[k].bytes + Get(n.window, k))
    && (forall k | k !in t.counters :: Get(n.accepted, k) == Get(m.accepted, k) && Get(n.window, k) == Get(m.window, k))
    && (forall id | id in t.quotas ::
          && u.quotas[id].limit == t.quotas[id].limit
          && Get(n.spent, id) + Get(m.spendWindow, id) == Get(m.spent, id) + Get(n.spendWindow, id)
          && Get(n.spent, id) + t.quotas[id].Listed() <= Get(m.spent, id) + u.quotas[id].Listed())
    && n.lost == m.lost && n.lostSpend == m.lostSpend && n.base == m.base
  }

  lemma MovedInStep(t: Table, u: Table, m: Meter, accepted: bool, key: Key, account: int, quota: bool, bytes: nat)
    requires Moved(t, u, accepted, key, account, quota, bytes) && key in t.counters
    ensures InStep(t, u, m, if accepted then MeterAccepted(m, key, account, quota, bytes) else m)
  {
    PlusGet(m.accepted, key, bytes);
    PlusGet(m.window, key, bytes);
    PlusGet(m.spent, account, bytes);
    PlusGet(m.spendWindow, account, bytes);
    hide Plus, Quota.Listed;
  }

  lemma NotMoved(t: Table, m: Meter)
    ensures InStep(t, t, m, m)
  {
  }

  /** By compiler correctness, the meter follows every packet the kernel lets through. */
  lemma PacketEffect(s: State, m: Meter, p: Packet)
    requires KernelOk(s) && s.kernel.Present?
    ensures InStep(s.kernel.table, Process(s.kernel.table, p).table, m, MeterPacket(s, m, p))
  {
    var t := s.kernel.table;
    WalkIsPolicy(t, s.given, s.blocked, p);
    assert ShapeOf(t).counters == KeysOf(s.given.ports);
    hide InStep, Process, PortPolicy, ShapeOf, ShapeFor, MeterAccepted;
    NotMoved(t, m);
    if Managed(s.given.ports, p) {
      var port := s.given.ports[Entry(s.given.ports, p)];
      PortPolicyEffect(port, s.given, s.blocked, p, t);
      var o := Process(t, p);
      MovedInStep(t, o.table, m, o.accepted, Key(port.id, p.hook), port.account, HasQuota(s.given.accounts, port.account), p.bytes);
    }
  }
}
