/** The metering theorems without the meter: sums over the packets of the run itself. */
module Direct {
  import opened Model
  import opened Ruleset
  import opened Tables
  import opened Engine
  import opened Structure
  import opened Invariant
  import opened Mutations
  import opened Metering
  import opened MeteringProof
  import opened Stretches
  import opened Guarantees

  /** The kernel lets the packet through. */
  ghost predicate LetThrough(s: State, p: Packet) { s.kernel.Present? && Process(s.kernel.table, p).accepted }

  /** It is one of the counter's: on the counter's port, in its direction, under the rules in force. */
  ghost predicate OnCounter(s: State, p: Packet, k: Key) {
    k.port in s.given.ports && Reaches(p, s.given.ports[k.port]) && p.hook == k.dir
  }

  /** It is on one of the account's ports. */
  ghost predicate OnAccount(s: State, p: Packet, id: int) {
    exists q :: q in s.given.ports && s.given.ports[q].account == id && Reaches(p, s.given.ports[q])
  }

  /** Between a sample a rebuild starts from and its apply. */
  ghost predicate InWindow(s: State) {
    s.proc.Starting?
    || (s.proc.Running? && (s.proc.lock.Sampled? || s.proc.lock.Folded? || s.proc.lock.Mutated? || s.proc.lock.Loaded?))
  }

  /** The bytes a step lets through on a counter, and for an account. */
  ghost function CounterBytes(s: State, st: Step, k: Key): nat {
    if st.Traffic? && LetThrough(s, st.p) && OnCounter(s, st.p, k) then st.p.bytes else 0
  }

  ghost function AccountBytes(s: State, st: Step, id: int): nat {
    if st.Traffic? && LetThrough(s, st.p) && OnAccount(s, st.p, id) then st.p.bytes else 0
  }

  /** Summed over a run; `window` asks for those inside rebuild windows only. */
  ghost function CounterSum(s: State, steps: seq<Step>, k: Key, window: bool): nat
    requires Legal(s, steps)
    decreases |steps|
  {
    if steps == [] then 0
    else (if window && !InWindow(s) then 0 else CounterBytes(s, steps[0], k)) + CounterSum(Next(s, steps[0]), steps[1..], k, window)
  }

  ghost function AccountSum(s: State, steps: seq<Step>, id: int, window: bool): nat
    requires Legal(s, steps)
    decreases |steps|
  {
    if steps == [] then 0
    else (if window && !InWindow(s) then 0 else AccountBytes(s, steps[0], id)) + AccountSum(Next(s, steps[0]), steps[1..], id, window)
  }

  // ---------------------------------------------------------------- the meter reads these sums

  /** What the meter has given up, or will if the rebuild under way gets through. */
  ghost function LostOn(s: State, m: Meter, k: Key): nat { Get(m.lost, k) + if InWindow(s) then Get(m.window, k) else 0 }

  ghost function LostFor(s: State, m: Meter, id: int): nat {
    Get(m.lostSpend, id) + if InWindow(s) then Get(m.spendWindow, id) else 0
  }

  /** Both sums count a packet that is let through for its entry, and no other. */
  lemma EntryCounts(s: State, p: Packet, k: Key, id: int)
    requires KernelOk(s) && s.kernel.Present?
    ensures !Managed(s.given.ports, p) || !LetThrough(s, p) ==>
              CounterBytes(s, Traffic(p), k) == 0 && AccountBytes(s, Traffic(p), id) == 0
    ensures Managed(s.given.ports, p) && LetThrough(s, p) ==>
              var port := s.given.ports[Entry(s.given.ports, p)];
              && CounterBytes(s, Traffic(p), k) == (if k == Key(port.id, p.hook) then p.bytes else 0)
              && AccountBytes(s, Traffic(p), id) == if id == port.account then p.bytes else 0
  {
    hide LetThrough, Reaches, KernelOk, Managed;
    EntryIs(s, p);
  }

  lemma MeterTakes(s: State, m: Meter, p: Packet)
    requires s.kernel.Present?
    ensures !Managed(s.given.ports, p) || !LetThrough(s, p) ==> MeterPacket(s, m, p) == m
    ensures Managed(s.given.ports, p) && LetThrough(s, p) ==>
              var port := s.given.ports[Entry(s.given.ports, p)];
              MeterPacket(s, m, p) == MeterAccepted(m, Key(port.id, p.hook), port.account, HasQuota(s.given.accounts, port.account), p.bytes)
  {
    hide Process, MeterAccepted;
  }

  lemma PacketMetered(s: State, m: Meter, p: Packet, k: Key)
    requires KernelOk(s) && s.kernel.Present?
    ensures var n := MeterPacket(s, m, p);
            && Get(n.accepted, k) == Get(m.accepted, k) + CounterBytes(s, Traffic(p), k)
            && Get(n.window, k) == Get(m.window, k) + CounterBytes(s, Traffic(p), k)
            && n.lost == m.lost && n.lostSpend == m.lostSpend && n.base == m.base
  {
    hide KernelOk, Managed, MeterPacket, LetThrough, CounterBytes, AccountBytes, Plus, Get;
    EntryCounts(s, p, k, 0);
    MeterTakes(s, m, p);
    if Managed(s.given.ports, p) && LetThrough(s, p) {
      var port := s.given.ports[Entry(s.given.ports, p)];
      PlusGet(m.accepted, Key(port.id, p.hook), p.bytes);
      PlusGet(m.window, Key(port.id, p.hook), p.bytes);
    }
  }

  lemma PacketSpent(s: State, m: Meter, p: Packet, id: int)
    requires KernelOk(s) && s.kernel.Present? && id in s.kernel.table.quotas
    ensures var n := MeterPacket(s, m, p);
            && Get(n.spent, id) == Get(m.spent, id) + AccountBytes(s, Traffic(p), id)
            && Get(n.spendWindow, id) == Get(m.spendWindow, id) + AccountBytes(s, Traffic(p), id)
  {
    hide KernelOk, Managed, MeterPacket, LetThrough, CounterBytes, AccountBytes, Plus, Get;
    QuotaGiven(s, id);
    EntryCounts(s, p, Key(0, In), id);
    MeterTakes(s, m, p);
    if Managed(s.given.ports, p) && LetThrough(s, p) {
      var port := s.given.ports[Entry(s.given.ports, p)];
      PlusGet(m.spent, port.account, p.bytes);
      PlusGet(m.spendWindow, port.account, p.bytes);
    }
  }

  lemma QuotaGiven(s: State, id: int)
    requires KernelOk(s) && s.kernel.Present? && id in s.kernel.table.quotas
    ensures HasQuota(s.given.accounts, id)
  {
    assert id in ShapeOf(s.kernel.table).limits && id in Limits(s.given.accounts);
  }

  /** The entry of a packet is the one port it reaches. */
  lemma EntryIs(s: State, p: Packet)
    requires KernelOk(s) && s.kernel.Present?
    ensures Managed(s.given.ports, p) <==> exists q :: q in s.given.ports && Reaches(p, s.given.ports[q])
    ensures forall q | q in s.given.ports && Reaches(p, s.given.ports[q]) ::
              Managed(s.given.ports, p) && Entry(s.given.ports, p) == q && s.given.ports[q].id == q
    ensures Managed(s.given.ports, p) ==>
              Entry(s.given.ports, p) in s.given.ports && Reaches(p, s.given.ports[Entry(s.given.ports, p)])
  {
    forall q | q in s.given.ports && Reaches(p, s.given.ports[q])
      ensures Managed(s.given.ports, p) && Entry(s.given.ports, p) == q && s.given.ports[q].id == q
    {
      assert At(s.given.ports, p, q);
      EntryUnique(s.given, p, q);
    }
    if Managed(s.given.ports, p) { assert At(s.given.ports, p, Entry(s.given.ports, p)); }
  }

  // ---------------------------------------------------------------- step by step

  /** The rebuild at this step, if it is one, carries the account's limit and usage over. */
  ghost predicate CarriesOn(s: State, st: Step, id: int)
    requires Enabled(s, st)
  {
    (st.ApplyOk? || st.StartOk?) ==>
      && s.kernel.Present? && id in s.kernel.table.quotas
      && id in Next(s, st).kernel.table.quotas && Next(s, st).kernel.table.quotas[id].limit == s.kernel.table.quotas[id].limit
      && (st.ApplyOk? ==> !TargetsUsage(s.proc.lock.op, id))
  }

  lemma CounterStep(s: State, m: Meter, st: Step, k: Key)
    requires Good(s) && Metered(s, m) && s.kernel.Present? && Enabled(s, st)
    ensures var n, w := Next(s, st), MeterNext(s, m, st);
            && Get(w.accepted, k) == Get(m.accepted, k) + CounterBytes(s, st, k)
            && LostOn(n, w, k) <= LostOn(s, m, k) + if InWindow(s) then CounterBytes(s, st, k) else 0
  {
    hide Good, Metered, Enabled, Next, MeterNext, MeterPacket, CounterBytes, AccountBytes, InWindow, Get;
    GoodParts(s);
    if st.Traffic? {
      TrafficStep(s, m, st.p);
      PacketMetered(s, m, st.p, k);
    } else {
      NoBytes(s, st, k);
      if st.ApplyOk? || st.StartOk? {
        RebuiltWindow(s, m, st, k);
      } else {
        WindowStep(s, st);
        MeterIdles(s, m, st);
      }
    }
  }

  lemma NoBytes(s: State, st: Step, k: Key)
    requires !st.Traffic?
    ensures CounterBytes(s, st, k) == 0 && forall id :: AccountBytes(s, st, id) == 0
  {
  }

  lemma TrafficStep(s: State, m: Meter, p: Packet)
    ensures MeterNext(s, m, Traffic(p)) == MeterPacket(s, m, p) && (InWindow(Next(s, Traffic(p))) <==> InWindow(s))
  {
    hide MeterPacket, Process;
  }

  /** Between packets and rebuilds the meter only clears its windows. */
  lemma MeterIdles(s: State, m: Meter, st: Step)
    requires Enabled(s, st) && !st.Traffic? && !st.ApplyOk? && !st.StartOk?
    ensures MeterNext(s, m, st) == if st.Begin? || st.Start? then m.(window := map[], spendWindow := map[]) else m
    ensures forall k :: Get<Key>(map[], k) == 0
    ensures forall id :: Get<int>(map[], id) == 0
  {
    hide Next, Enabled;
  }

  /** A window opens only at a sample. */
  lemma WindowStep(s: State, st: Step)
    requires Enabled(s, st) && !st.Traffic? && !st.ApplyOk? && !st.StartOk?
    ensures InWindow(Next(s, st)) ==> InWindow(s) || st.Begin? || st.Start?
  {
    hide Mutate, Persist, Adopt, Renewed, Rendered, SampleOf, Tree.Valid, Fresh, ArgsOk;
  }

  lemma RebuiltWindow(s: State, m: Meter, st: Step, k: Key)
    requires Metered(s, m) && s.kernel.Present? && Enabled(s, st) && (st.ApplyOk? || st.StartOk?)
    ensures InWindow(s) && !InWindow(Next(s, st))
    ensures var w := MeterNext(s, m, st);
            w.accepted == m.accepted && Get(w.lost, k) == Get(m.lost, k) + Get(m.window, k)
  {
    hide Conserved, Bounded, LockMeter, StartMeter, Rendered, Tree.Valid, Tree.ExpiredSet;
    SumGet(m.lost, m.window);
    hide Sum;
  }

  lemma AccountStep(s: State, m: Meter, st: Step, id: int)
    requires Good(s) && Metered(s, m) && s.kernel.Present? && id in s.kernel.table.quotas && Enabled(s, st) && CarriesOn(s, st, id)
    ensures var n, w := Next(s, st), MeterNext(s, m, st);
            && Get(w.base, id) == Get(m.base, id)
            && Get(w.spent, id) == Get(m.spent, id) + AccountBytes(s, st, id)
            && LostFor(n, w, id) <= LostFor(s, m, id) + if InWindow(s) then AccountBytes(s, st, id) else 0
  {
    hide Good, Metered, Enabled, Next, MeterNext, MeterPacket, CounterBytes, AccountBytes, InWindow, Get, CarriesOn;
    GoodParts(s);
    if st.Traffic? {
      TrafficStep(s, m, st.p);
      PacketSpent(s, m, st.p, id);
      PacketMetered(s, m, st.p, Key(0, In));
    } else {
      NoBytes(s, st, Key(0, In));
      if st.ApplyOk? || st.StartOk? {
        RebuiltSpend(s, m, st, id);
      } else {
        WindowStep(s, st);
        MeterIdles(s, m, st);
      }
    }
  }

  lemma RebuiltSpend(s: State, m: Meter, st: Step, id: int)
    requires Metered(s, m) && Enabled(s, st) && (st.ApplyOk? || st.StartOk?) && CarriesOn(s, st, id)
    ensures InWindow(s) && !InWindow(Next(s, st))
    ensures var w := MeterNext(s, m, st);
            Get(w.base, id) == Get(m.base, id) && Get(w.spent, id) == Get(m.spent, id)
            && Get(w.lostSpend, id) == Get(m.lostSpend, id) + Get(m.spendWindow, id)
  {
    hide Conserved, Bounded, LockMeter, StartMeter, Rendered, Tree.Valid, Tree.ExpiredSet, Sum;
  }

  // ---------------------------------------------------------------- over runs

  /** The kernel has the counter in every state of the run. */
  ghost predicate KeepsCounter(s: State, steps: seq<Step>, k: Key)
    requires Legal(s, steps)
    decreases |steps|
  {
    s.kernel.Present? && k in s.kernel.table.counters && (steps != [] ==> KeepsCounter(Next(s, steps[0]), steps[1..], k))
  }

  /** The account keeps its quota and its limit over the run, and no rebuild sets its usage. */
  ghost predicate KeepsSpending(s: State, steps: seq<Step>, id: int)
    requires Legal(s, steps)
    decreases |steps|
  {
    && s.kernel.Present? && id in s.kernel.table.quotas
    && (steps != [] ==> CarriesOn(s, steps[0], id) && KeepsSpending(Next(s, steps[0]), steps[1..], id))
  }

  lemma {:induction false} CounterRun(s: State, m: Meter, steps: seq<Step>, k: Key)
    requires Good(s) && Metered(s, m) && Legal(s, steps) && NeverStraddles(s, steps) && KeepsCounter(s, steps, k)
    ensures var n, w := After(s, steps), MeterAfter(s, m, steps);
            && n.kernel.Present? && k in n.kernel.table.counters
            && Get(w.accepted, k) == Get(m.accepted, k) + CounterSum(s, steps, k, false)
            && LostOn(n, w, k) <= LostOn(s, m, k) + CounterSum(s, steps, k, true)
    decreases |steps|
  {
    hide Good, Metered, Enabled, Next, Straddles, MeterNext, LostOn, CounterBytes, InWindow;
    if steps != [] {
      StepKeeps(s, steps[0]);
      MeterStep(s, m, steps[0]);
      CounterStep(s, m, steps[0], k);
      CounterRun(Next(s, steps[0]), MeterNext(s, m, steps[0]), steps[1..], k);
    }
  }

  lemma {:induction false} AccountRun(s: State, m: Meter, steps: seq<Step>, id: int)
    requires Good(s) && Metered(s, m) && Legal(s, steps) && NeverStraddles(s, steps) && KeepsSpending(s, steps, id)
    ensures var n, w := After(s, steps), MeterAfter(s, m, steps);
            && n.kernel.Present? && id in n.kernel.table.quotas && Get(w.base, id) == Get(m.base, id)
            && Get(w.spent, id) == Get(m.spent, id) + AccountSum(s, steps, id, false)
            && LostFor(n, w, id) <= LostFor(s, m, id) + AccountSum(s, steps, id, true)
    decreases |steps|
  {
    hide Good, Metered, Enabled, Next, Straddles, MeterNext, LostFor, AccountBytes, InWindow, CarriesOn;
    if steps != [] {
      StepKeeps(s, steps[0]);
      MeterStep(s, m, steps[0]);
      AccountStep(s, m, steps[0], id);
      AccountRun(Next(s, steps[0]), MeterNext(s, m, steps[0]), steps[1..], id);
    }
  }

  lemma {:induction false} LimitStays(s: State, steps: seq<Step>, id: int)
    requires Good(s) && Legal(s, steps) && KeepsSpending(s, steps, id)
    ensures var n := After(s, steps);
            s.kernel.Present? && id in s.kernel.table.quotas && n.kernel.Present? && id in n.kernel.table.quotas
            && n.kernel.table.quotas[id].limit == s.kernel.table.quotas[id].limit
    decreases |steps|
  {
    hide Good, Enabled, Next, CarriesOn;
    if steps != [] {
      var n := Next(s, steps[0]);
      StepKeeps(s, steps[0]);
      LimitStays(n, steps[1..], id);
      LimitStep(s, steps[0], id);
    }
  }

  lemma LimitStep(s: State, st: Step, id: int)
    requires Enabled(s, st) && CarriesOn(s, st, id) && s.kernel.Present? && id in s.kernel.table.quotas
    requires Next(s, st).kernel.Present? && id in Next(s, st).kernel.table.quotas
    ensures Next(s, st).kernel.table.quotas[id].limit == s.kernel.table.quotas[id].limit
  {
    hide RunningNext, Walk, Enabled, Rendered;
    if st.Traffic? {
      WalkKeepsShape(s.kernel.table.Chain(st.p.hook), st.p, s.kernel.table);
    } else if !st.ApplyOk? && !st.StartOk? && !st.Reboot? {
      KernelStays(s, st);
    }
  }

  /** Conservation, packet by packet. Over any straddle-free stretch in which the kernel keeps a port's counter,
      the counter grows by exactly the bytes let through on that port in that direction, less what was let
      through between a rebuild's sample and its apply, and never by more. */
  lemma CounterGrowsByTraffic(s: State, steps: seq<Step>, k: Key)
    requires Stretch(s, steps) && KeepsCounter(s, steps, k)
    ensures s.kernel.Present? && k in s.kernel.table.counters
    ensures After(s, steps).kernel.Present? && k in After(s, steps).kernel.table.counters
    ensures var before, now := s.kernel.table.counters[k].bytes, After(s, steps).kernel.table.counters[k].bytes;
            now <= before + CounterSum(s, steps, k, false) <= now + CounterSum(s, steps, k, true)
  {
    hide Good, Metered, Reachable, Ledger, Next, Straddles, MeterNext, Enabled;
    ReachableGood(s);
    ReachableLedger(s);
    OpenedMetered(s);
    CounterRun(s, Opened(s.kernel), steps, k);
    NothingIsLost(s, steps);
    StartsAt(s, k);
  }

  lemma StartsAt(s: State, k: Key)
    requires Resting(s) && s.kernel.Present? && k in s.kernel.table.counters
    ensures Get(Opened(s.kernel).accepted, k) == s.kernel.table.counters[k].bytes && LostOn(s, Opened(s.kernel), k) == 0
  {
  }

  /** The circuit breaker, packet by packet. Over any straddle-free stretch in which an account keeps its quota
      and limit and no rebuild sets its usage, the bytes let through over all its ports and both directions
      are at most the limit minus what its quota listed at the start, plus what was let through between a
      rebuild's sample and its apply. */
  lemma BreakerHoldsDirectly(s: State, steps: seq<Step>, id: int)
    requires Stretch(s, steps) && KeepsSpending(s, steps, id)
    ensures s.kernel.Present? && id in s.kernel.table.quotas
    ensures var q := s.kernel.table.quotas[id];
            (if q.charged <= q.limit then q.charged else q.limit) + AccountSum(s, steps, id, false)
              <= q.limit + AccountSum(s, steps, id, true)
  {
    hide Good, Metered, Reachable, Ledger, Next, Straddles, MeterNext, Enabled, CarriesOn;
    ReachableGood(s);
    ReachableLedger(s);
    OpenedMetered(s);
    AccountRun(s, Opened(s.kernel), steps, id);
    LimitStays(s, steps, id);
    BreakerHolds(s, steps, id);
    StartsAtListing(s, id);
  }

  lemma StartsAtListing(s: State, id: int)
    requires Resting(s) && s.kernel.Present? && id in s.kernel.table.quotas
    ensures var m, q := Opened(s.kernel), s.kernel.table.quotas[id];
            Get(m.spent, id) == 0 && LostFor(s, m, id) == 0
            && Get(m.base, id) == if q.charged <= q.limit then q.charged else q.limit
  {
  }
}
