/** Views over runs: what they show never exceeds what the kernel has metered. */
module Truthfulness {
  import opened Model
  import opened Ruleset
  import opened Tables
  import opened Engine
  import opened Structure
  import opened Invariant
  import opened Mutations
  import opened Metering
  import opened MeteringProof
  import opened Stretches
  import opened Guarantees
  import opened Views

  ghost predicate LineBelow(l: PortView, t: Table) {
    && Key(l.port, In) in t.counters && Key(l.port, Out) in t.counters
    && l.inBytes <= t.counters[Key(l.port, In)].bytes && l.outBytes <= t.counters[Key(l.port, Out)].bytes
  }

  /** Every packet to one of the account's ports is dropped, and moves nothing. */
  ghost predicate Blocks(t: Table, tree: Tree, id: int) {
    forall p: Packet | Managed(tree.ports, p) && tree.ports[Entry(tree.ports, p)].account == id ::
      Process(t, p) == Ruleset.Outcome(false, t)
  }

  lemma KernelMatches(s: State)
    requires Good(s) && s.proc.Running? && s.proc.lock.Free? && !s.proc.mem.unsynced
    ensures s.kernel.Present?
    ensures forall k :: k in s.kernel.table.counters <==> k.port in s.proc.mem.snap.ports
    ensures forall id :: id in s.kernel.table.quotas <==> HasQuota(s.proc.mem.snap.accounts, id)
    ensures forall id | id in s.kernel.table.quotas ::
              id in s.proc.mem.snap.accounts && s.kernel.table.quotas[id].limit == s.proc.mem.snap.accounts[id].LimitBytes()
  {
    hide DbOk, KernelOk, Chains;
    var t, snap, tree := s.kernel.table, s.proc.mem.snap, s.db.tree;
    assert ShapeOf(t).counters == KeysOf(tree.ports) && ShapeOf(t).limits == Limits(tree.accounts);
    forall id ensures id in t.quotas <==> id in ShapeOf(t).limits {
    }
    forall id | id in snap.accounts
      ensures HasQuota(snap.accounts, id) == HasQuota(tree.accounts, id)
      ensures snap.accounts[id].LimitBytes() == tree.accounts[id].LimitBytes()
    {
      DesignOf(snap, tree, id);
    }
    forall id | id in t.quotas ensures t.quotas[id].limit == ShapeOf(t).limits[id] == tree.accounts[id].LimitBytes() {
    }
  }

  lemma ExpiredBlocks(s: State, id: int)
    requires Reachable(s) && s.proc.Running? && s.proc.lock.Free? && !s.proc.mem.unsynced && id in s.proc.mem.expired
    ensures s.kernel.Present? && Blocks(s.kernel.table, s.db.tree, id)
  {
    hide Process, ShapeOf, ShapeFor, Reachable;
    ReachableGood(s);
    forall p: Packet | Managed(s.db.tree.ports, p) && s.db.tree.ports[Entry(s.db.tree.ports, p)].account == id
      ensures Process(s.kernel.table, p) == Ruleset.Outcome(false, s.kernel.table)
    {
      FlagIsHonest(s, p);
    }
  }

  // ---------------------------------------------------------------- what a view shows

  /** No counter the sample mentions reads more than the table's. */
  ghost predicate CountersBelow(live: Sample, t: Table) {
    forall k | k in live.counters && k in t.counters :: live.counters[k].bytes <= t.counters[k].bytes
  }

  /** The usage a view shows for a quota account. */
  function UsageShown(accounts: map<int, Account>, live: Sample, id: int): nat
    requires id in accounts
  {
    if id in live.used then live.used[id] else accounts[id].used
  }

  lemma LinesShown(v: AccountView, a: Account, ports: seq<Port>, m: map<int, Port>, live: Sample, expired: set<int>,
                   t: Table)
    requires Faithful(v, a, ports, live, expired) && CountersBelow(live, t) && ListsPorts(ports, m)
    requires forall k :: k in t.counters <==> k.port in m
    ensures forall i | 0 <= i < |v.ports| :: LineBelow(v.ports[i], t)
  {
    forall i | 0 <= i < |v.ports| ensures LineBelow(v.ports[i], t) {
      var p := OwnedIn(ports, a.id)[i];
      OwnedMembers(ports, a.id, p);
      assert p.id in m && Key(p.id, In) in t.counters && Key(p.id, Out) in t.counters;
    }
  }

  lemma ViewShows(mem: Mem, ports: seq<Port>, id: int, v: AccountView)
    requires ViewOf(mem, ports, id, v)
    ensures id in mem.snap.accounts && v.account == mem.snap.accounts[id] && v.account.id == id
    ensures ListsPorts(ports, mem.snap.ports) && Faithful(v, v.account, ports, mem.live, mem.expired)
    ensures v.account.tier.HasQuota() ==> v.used == UsageShown(mem.snap.accounts, mem.live, id)
    ensures v.expired <==> id in mem.expired
  {
  }

  /** What both theorems below say of a view read at s: a quota account has a kernel quota under its own
      limit, every line shows no more than the kernel's counters, and the ports of an account shown as
      expired pass nothing. */
  ghost predicate Truthful(s: State, v: AccountView) {
    && s.kernel.Present?
    && (v.account.tier.HasQuota() ==>
          v.account.id in s.kernel.table.quotas && s.kernel.table.quotas[v.account.id].limit == v.account.LimitBytes())
    && (forall i | 0 <= i < |v.ports| :: LineBelow(v.ports[i], s.kernel.table))
    && (v.expired ==> Blocks(s.kernel.table, s.db.tree, v.account.id))
  }

  lemma ViewTruthful(s: State, ports: seq<Port>, id: int, v: AccountView)
    requires Reachable(s) && s.proc.Running? && s.proc.lock.Free? && !s.proc.mem.unsynced && s.kernel.Present?
    requires CountersBelow(s.proc.mem.live, s.kernel.table) && ViewOf(s.proc.mem, ports, id, v)
    ensures Truthful(s, v)
  {
    hide Good, Faithful, CountersBelow, Blocks, ViewOf, Reachable;
    ReachableGood(s);
    KernelMatches(s);
    var mem, t := s.proc.mem, s.kernel.table;
    ViewShows(mem, ports, id, v);
    LinesShown(v, v.account, ports, mem.snap.ports, mem.live, mem.expired, t);
    if v.expired { ExpiredBlocks(s, id); }
  }

  // ---------------------------------------------------------------- after an accepted sample

  /** No rebuild and no new process on the run. */
  predicate SameTable(steps: seq<Step>) { forall i | 0 <= i < |steps| :: !steps[i].ApplyOk? && !steps[i].Crash? && !steps[i].Reboot? }

  /** Memory's sample reads nothing above the kernel, unless a usage change is half way or has failed. */
  ghost predicate Current(s: State) {
    && s.proc.Running? && s.kernel.Present? && !s.proc.lock.Applied?
    && (s.proc.mem.unsynced
        || ((s.proc.lock.Mutated? || s.proc.lock.Loaded?) && (s.proc.lock.op.SetUsage? || s.proc.lock.op.ResetAccount?))
        || Below(s.proc.mem.live, s.kernel.table))
  }

  lemma CurrentTraffic(s: State, p: Packet)
    requires Current(s)
    ensures Current(Next(s, Traffic(p)))
  {
    hide Below, Process;
    WalkBelow(s.proc.mem.live, s.kernel.table, p);
  }

  lemma WalkBelow(live: Sample, t: Table, p: Packet)
    ensures Below(live, t) ==> Below(live, Process(t, p).table)
  {
    hide Walk;
    WalkKeepsShape(t.Chain(p.hook), p, t);
  }

  lemma CurrentChange(s: State, token: string)
    requires Good(s) && Current(s) && Enabled(s, Change(token))
    ensures Current(Next(s, Change(token)))
  {
    hide Below, Good, Mutate;
    var mem, op := s.proc.mem, s.proc.lock.op;
    LiveStays(op, token, s.now, s.db, mem.snap, mem.live);
  }

  lemma LiveStays(op: Op, token: string, now: Time, db: Db, snap: Tree, live: Sample)
    ensures !op.SetUsage? && !op.ResetAccount? && Mutate(op, token, now, db, snap, live).Some? ==>
              Mutate(op, token, now, db, snap, live).value.1 == live
  {
  }

  lemma CurrentOther(s: State, st: Step)
    requires Good(s) && Current(s) && Enabled(s, st) && !st.ApplyOk? && !st.Crash? && !st.Reboot? && !st.Traffic?
    requires !st.Change?
    ensures Current(Next(s, st))
  {
    hide DbOk, KernelOk, LockOk, OpOk, Below, Persist, Adopt, Renewed, Fresh, ArgsOk;
    if st.Begin? { SampledBelow(s.kernel.table); }
    if st.Reload? { KeepReload(s); }
  }

  lemma {:induction false} CurrentRun(s: State, steps: seq<Step>)
    requires Good(s) && Current(s) && Legal(s, steps) && SameTable(steps)
    ensures Current(After(s, steps))
    decreases |steps|
  {
    hide Good, Current, Enabled, Next;
    if steps != [] {
      var st := steps[0];
      StepKeeps(s, st);
      match st {
        case Traffic(p) => CurrentTraffic(s, p);
        case Change(token) => CurrentChange(s, token);
        case _ => CurrentOther(s, st);
      }
      assert forall i | 0 <= i < |steps[1..]| :: steps[1..][i] == steps[i + 1];
      CurrentRun(Next(s, st), steps[1..]);
    }
  }

  /** Once a periodic sample has passed the generation check no view overstates, then or later, until the
      next rebuild: read in any state with the lock free and memory in sync, a view is truthful and its
      usage is at most what the kernel's quota lists. */
  lemma ViewIsCurrent(s: State, steps: seq<Step>, ports: seq<Port>, id: int, v: AccountView)
    requires Reachable(s) && Enabled(s, SampleCommit) && s.proc.sampler.gen == s.proc.mem.gen
    requires Legal(Next(s, SampleCommit), steps) && SameTable(steps)
    requires var n := After(Next(s, SampleCommit), steps);
             n.proc.Running? && n.proc.lock.Free? && !n.proc.mem.unsynced && ViewOf(n.proc.mem, ports, id, v)
    ensures var n := After(Next(s, SampleCommit), steps);
            Truthful(n, v) && (v.account.tier.HasQuota() ==> v.used <= n.kernel.table.quotas[id].Listed())
  {
    hide Good, Reachable, Legal, After, Next, SameTable, Truthful, ViewOf;
    ReachableGood(s);
    CommitCurrent(s);
    StepKeeps(s, SampleCommit);
    CurrentRun(Next(s, SampleCommit), steps);
    var n := After(Next(s, SampleCommit), steps);
    ReachableNext(s, SampleCommit);
    ReachableOn(Next(s, SampleCommit), steps);
    ViewTruthful(n, ports, id, v);
    ViewShows(n.proc.mem, ports, id, v);
    TruthfulQuota(n, v);
  }

  lemma TruthfulQuota(s: State, v: AccountView)
    requires Truthful(s, v)
    ensures s.kernel.Present? && (v.account.tier.HasQuota() ==> v.account.id in s.kernel.table.quotas)
  {
  }

  lemma CommitCurrent(s: State)
    requires Reachable(s) && Enabled(s, SampleCommit) && s.proc.sampler.gen == s.proc.mem.gen
    ensures Current(Next(s, SampleCommit))
  {
    CommitsAreCurrent(s);
    hide Reachable, Below;
  }

  // ---------------------------------------------------------------- through rebuilds

  /** What views of `accounts` and `live` would show is at most what the table has charged and counted. */
  ghost predicate Shown(accounts: map<int, Account>, live: Sample, t: Table) {
    && (forall id | id in t.quotas && id in accounts :: UsageShown(accounts, live, id) <= t.quotas[id].charged)
    && CountersBelow(live, t)
  }

  /** Memory's live view is what the reconcile sampled, and what it asked for. */
  ghost predicate LiveSays(live: Sample, seen: Sample, op: Op) {
    && live.counters == seen.counters
    && (forall id | TargetsUsage(op, id) :: id in live.used && live.used[id] == Requested(op))
  }

  ghost predicate TargetRow(t: Tree, op: Op) {
    forall id | TargetsUsage(op, id) && id in t.accounts :: t.accounts[id].used == Requested(op)
  }

  /** How views and kernel stand to each other at every point of a reconcile. */
  ghost predicate Following(s: State) {
    s.proc.Running? ==> s.kernel.Present? && FollowingIn(s.proc.mem, s.proc.lock, s.db.tree, s.kernel.table)
  }

  ghost predicate FollowingIn(mem: Mem, lock: Lock, stored: Tree, t: Table) {
    match lock
    case Mutated(op, seen) => LiveSays(mem.live, seen, op) && TargetRow(stored, op)
    case Loaded(op, seen, tree) => LiveSays(mem.live, seen, op) && TargetRow(tree, op)
    case Applied(_, _, tree, _) => Shown(tree.accounts, mem.live, t)
    case _ => mem.unsynced || Shown(mem.snap.accounts, mem.live, t)
  }

  lemma ShownGrows(accounts: map<int, Account>, live: Sample, t: Table, p: Packet)
    ensures Shown(accounts, live, t) ==> Shown(accounts, live, Process(t, p).table)
  {
    hide Walk;
    WalkKeepsShape(t.Chain(p.hook), p, t);
  }

  lemma FollowTraffic(s: State, p: Packet)
    requires Following(s)
    ensures Following(Next(s, Traffic(p)))
  {
    hide Shown, Process, LiveSays, TargetRow;
    if s.proc.Running? {
      ShownGrows(s.proc.mem.snap.accounts, s.proc.mem.live, s.kernel.table, p);
      if s.proc.lock.Applied? { ShownGrows(s.proc.lock.tree.accounts, s.proc.mem.live, s.kernel.table, p); }
    }
  }

  lemma BelowShown(accounts: map<int, Account>, live: Sample, t: Table)
    requires Below(live, t)
    ensures Shown(accounts, live, t)
  {
  }

  lemma FollowSample(s: State, st: Step)
    requires Good(s) && Following(s) && Enabled(s, st) && (st.Begin? || st.SampleCommit?)
    ensures Following(Next(s, st))
  {
    hide DbOk, KernelOk, LockOk, OpOk, Shown, Below, ArgsOk;
    if st.Begin? {
      SampledBelow(s.kernel.table);
      BelowShown(s.proc.mem.snap.accounts, SampleOf(s.kernel.table), s.kernel.table);
    } else if s.proc.sampler.gen == s.proc.mem.gen {
      BelowShown(s.proc.mem.snap.accounts, s.proc.sampler.reading, s.kernel.table);
    }
  }

  lemma FollowChange(s: State, m: Meter, token: string)
    requires Good(s) && Metered(s, m) && Following(s) && Enabled(s, Change(token))
    ensures Following(Next(s, Change(token)))
  {
    hide Good, Shown, Mutate, Ledger, Conserved, Bounded, Pending, CarriesCounters, CarriesUsed, Sound, RowsFollow;
    var mem, op := s.proc.mem, s.proc.lock.op;
    if Mutate(op, token, s.now, s.db, mem.snap, mem.live).Some? {
      MutatedDb(s, token);
      MutateRows(op, token, s.now, s.db, mem.snap, mem.live);
      if op.SetUsage? || op.ResetAccount? { UsageIsReplaced(op, token, s.now, s.db, mem.snap, mem.live); }
    }
  }

  lemma FollowApply(s: State, m: Meter)
    requires Good(s) && Metered(s, m) && Following(s) && Enabled(s, ApplyOk)
    ensures Following(Next(s, ApplyOk))
  {
    hide Good, Ledger, Conserved, Bounded, Pending, Rendered, CounterOf, Shown, Tree.Valid;
    var n := Next(s, ApplyOk);
    var Loaded(op, seen, tree) := s.proc.lock;
    LoadedSeeds(s, m);
    RebuiltQuotas(n, tree, n.blocked);
    RebuiltCounters(n, tree, n.blocked);
    SeedsShown(tree, s.proc.mem.live, seen, op, n.kernel.table);
  }

  lemma SeedsShown(tree: Tree, live: Sample, seen: Sample, op: Op, t: Table)
    requires Seeds(tree, seen, op) && LiveFollows(live, seen, op) && LiveSays(live, seen, op) && TargetRow(tree, op)
    requires forall id | id in t.quotas :: id in tree.accounts && t.quotas[id].charged == tree.accounts[id].used
    requires forall k | k in t.counters :: k.port in tree.ports && t.counters[k] == CounterOf(tree, k)
    ensures Shown(tree.accounts, live, t)
  {
    hide CounterOf;
  }

  lemma FollowStartOk(s: State, m: Meter)
    requires Good(s) && Metered(s, m) && Enabled(s, StartOk)
    ensures Following(Next(s, StartOk))
  {
    hide Good, Known, Conserved, Bounded, Pending, Rendered, CounterOf, Shown, Tree.Valid, Tree.ExpiredSet;
    var n := Next(s, StartOk);
    RebuiltQuotas(n, s.proc.snap, n.blocked);
    RebuiltCounters(n, s.proc.snap, n.blocked);
    if s.proc.hot {
      MeteredSeeds(s, m);
      SeedsShown(s.proc.snap, s.proc.live, s.proc.live, Resync, n.kernel.table);
    } else {
      NothingShown(s.proc.snap, n.kernel.table);
    }
  }

  lemma MeteredSeeds(s: State, m: Meter)
    requires Metered(s, m) && s.proc.Starting? && s.proc.hot
    ensures Seeds(s.proc.snap, s.proc.live, Resync)
  {
    hide Ledger, Conserved, Bounded;
    StartSeedsCarry(s, m);
  }

  lemma NothingShown(tree: Tree, t: Table)
    requires forall id | id in t.quotas :: id in tree.accounts && t.quotas[id].charged == tree.accounts[id].used
    ensures Shown(tree.accounts, NO_SAMPLE, t)
  {
  }

  lemma FollowMemory(s: State, st: Step)
    requires Good(s) && Following(s) && Enabled(s, st)
    requires st.PersistCopy? || st.RenewToken? || st.ApplyFail? || st.Publish? || st.Reload?
    ensures Following(Next(s, st))
  {
    hide DbOk, KernelOk, LockOk, OpOk, SamplerOk, Tree.Valid, Fresh, CountersBelow;
    if st.Reload? { KeepReload(s); }
  }

  lemma FollowOther(s: State, st: Step)
    requires Following(s) && Enabled(s, st) && !Straddles(s, st)
    requires !st.Traffic? && !st.Begin? && !st.SampleCommit? && !st.Change? && !st.ApplyOk? && !st.StartOk?
    requires !st.PersistCopy? && !st.RenewToken? && !st.ApplyFail? && !st.Publish? && !st.Reload?
    ensures Following(Next(s, st))
  {
    hide Shown, LiveSays, Persist, Adopt, SampleOf, Fresh, ArgsOk, Tree.Valid;
  }

  lemma FollowStep(s: State, m: Meter, st: Step)
    requires Good(s) && Metered(s, m) && Following(s) && Enabled(s, st) && !Straddles(s, st)
    ensures Following(Next(s, st))
  {
    hide Good, Metered, Following, Enabled, Next, Straddles;
    match st
    case Traffic(p) => FollowTraffic(s, p);
    case Begin(_) => FollowSample(s, st);
    case SampleCommit => FollowSample(s, st);
    case Change(token) => FollowChange(s, m, token);
    case ApplyOk => FollowApply(s, m);
    case StartOk => FollowStartOk(s, m);
    case PersistCopy => FollowMemory(s, st);
    case RenewToken(_, _) => FollowMemory(s, st);
    case ApplyFail => FollowMemory(s, st);
    case Publish => FollowMemory(s, st);
    case Reload => FollowMemory(s, st);
    case _ => FollowOther(s, st);
  }

  lemma {:induction false} FollowRun(s: State, m: Meter, steps: seq<Step>)
    requires Good(s) && Metered(s, m) && Following(s) && Legal(s, steps) && NeverStraddles(s, steps)
    ensures Following(After(s, steps))
    decreases |steps|
  {
    hide Good, Metered, Following, Enabled, Next, Straddles, MeterNext;
    if steps != [] {
      StepKeeps(s, steps[0]);
      MeterStep(s, m, steps[0]);
      FollowStep(s, m, steps[0]);
      FollowRun(Next(s, steps[0]), MeterNext(s, m, steps[0]), steps[1..]);
    }
  }

  /** No process runs yet, or a periodic sample has just been accepted. */
  ghost predicate StartsTruthful(s: State) {
    s.proc.Down? || (s.proc.Running? && s.kernel.Present? && Below(s.proc.mem.live, s.kernel.table))
  }

  /** And through rebuilds: over every stretch without a straddling persist write that begins before a
      process starts, or with a sample accepted, views stay truthful through reconciles of every kind,
      failed applies, crashes, restarts and reboots, and the usage they show is at most what the
      kernel's quota has been charged. */
  lemma ViewStaysTruthful(s: State, steps: seq<Step>, ports: seq<Port>, id: int, v: AccountView)
    requires Stretch(s, steps) && StartsTruthful(s)
    requires var n := After(s, steps);
             n.proc.Running? && n.proc.lock.Free? && !n.proc.mem.unsynced && ViewOf(n.proc.mem, ports, id, v)
    ensures var n := After(s, steps);
            Truthful(n, v) && (v.account.tier.HasQuota() ==> v.used <= n.kernel.table.quotas[id].charged)
  {
    hide Good, Reachable, Legal, After, Truthful, ViewOf, Metered, Opened, NeverStraddles, Below, Ledger, Faithful;
    ReachableGood(s);
    ReachableLedger(s);
    OpenedMetered(s);
    FreshFollows(s);
    FollowRun(s, Opened(s.kernel), steps);
    var n := After(s, steps);
    ReachableOn(s, steps);
    FollowingShown(n);
    ViewTruthful(n, ports, id, v);
    TruthfulQuota(n, v);
    ViewShows(n.proc.mem, ports, id, v);
    assert v.account.id == id;
  }

  lemma FreshFollows(s: State)
    requires StartsTruthful(s) && Resting(s)
    ensures Following(s)
  {
    hide Below, Shown;
    if s.proc.Running? { BelowShown(s.proc.mem.snap.accounts, s.proc.mem.live, s.kernel.table); }
  }

  lemma FollowingShown(s: State)
    requires Following(s) && s.proc.Running? && s.proc.lock.Free? && !s.proc.mem.unsynced
    ensures s.kernel.Present? && Shown(s.proc.mem.snap.accounts, s.proc.mem.live, s.kernel.table)
  {
    hide Shown;
  }

  // ---------------------------------------------------------------- exactly

  /** Nothing on the run replaces memory's sample. */
  predicate SameSample(steps: seq<Step>) {
    forall i | 0 <= i < |steps| ::
      !steps[i].Begin? && !steps[i].SampleCommit? && !steps[i].Change? && !steps[i].Crash? && !steps[i].Reboot?
  }

  lemma {:induction false} SampleStays(s: State, steps: seq<Step>)
    requires s.proc.Running? && Legal(s, steps) && SameSample(steps)
    ensures After(s, steps).proc.Running? && After(s, steps).proc.mem.live == s.proc.mem.live
    decreases |steps|
  {
    hide Enabled, Next;
    if steps != [] {
      SampleStep(s, steps[0]);
      assert forall i | 0 <= i < |steps[1..]| :: steps[1..][i] == steps[i + 1];
      SampleStays(Next(s, steps[0]), steps[1..]);
    }
  }

  lemma SampleStep(s: State, st: Step)
    requires s.proc.Running? && Enabled(s, st)
    requires !st.Begin? && !st.SampleCommit? && !st.Change? && !st.Crash? && !st.Reboot?
    ensures Next(s, st).proc.Running? && Next(s, st).proc.mem.live == s.proc.mem.live
  {
    hide Persist, Adopt, Renewed, Process, Rendered, SampleOf, Tree.Valid, Fresh;
  }

  /** Until memory's sample is replaced, every view shows exactly the reading last accepted: on each line the
      bytes of that port's two counters, for a quota account the figure of its quota, for an unlimited one the
      sum over its lines; and it shows an account as expired exactly if the kernel shuts it off. */
  lemma ViewIsExact(s: State, steps: seq<Step>, ports: seq<Port>, id: int, v: AccountView, both: seq<nat>)
    requires Reachable(s) && Enabled(s, SampleCommit) && s.proc.sampler.gen == s.proc.mem.gen
    requires Legal(Next(s, SampleCommit), steps) && SameSample(steps)
    requires var n := After(Next(s, SampleCommit), steps); n.proc.Running? && ViewOf(n.proc.mem, ports, id, v)
    requires |both| == |v.ports| && forall i | 0 <= i < |both| :: both[i] == v.ports[i].inBytes + v.ports[i].outBytes
    ensures |v.ports| == |OwnedIn(ports, id)| && forall p :: p in OwnedIn(ports, id) <==> p in ports && p.account == id
    ensures forall i | 0 <= i < |v.ports| :: Spells(v.ports[i], OwnedIn(ports, id)[i], s.proc.sampler.reading)
    ensures v.account.tier == Monthly || v.account.tier == OneShot ==>
              id in s.proc.sampler.reading.used ==> v.used == s.proc.sampler.reading.used[id]
    ensures v.account.tier == Unlimited ==> v.used == Total(both)
    ensures var n := After(Next(s, SampleCommit), steps);
            n.proc.lock.Free? && !n.proc.mem.unsynced ==> (v.expired <==> id in n.blocked)
  {
    hide Reachable, Good, Legal, After, Next, SameSample, ViewOf, Faithful, Spells, OwnedIn, Below;
    CommitsAreCurrent(s);
    CommitRuns(s);
    SampleStays(Next(s, SampleCommit), steps);
    var n := After(Next(s, SampleCommit), steps);
    ReachableNext(s, SampleCommit);
    ReachableOn(Next(s, SampleCommit), steps);
    ViewShows(n.proc.mem, ports, id, v);
    LinesSpelled(v, v.account, ports, n.proc.mem.live, n.proc.mem.expired);
    OwnedSpelled(ports, id);
    if v.account.tier == Unlimited { UnlimitedSpelled(v, v.account, ports, n.proc.mem.live, n.proc.mem.expired, both); }
    if n.proc.lock.Free? && !n.proc.mem.unsynced {
      ReachableSettled(n);
      SettledBlocks(n);
    }
  }

  lemma CommitRuns(s: State)
    requires Enabled(s, SampleCommit)
    ensures Next(s, SampleCommit).proc.Running?
  {
  }

  lemma SettledBlocks(s: State)
    requires s.proc.Running? && Settled(s, s.proc.mem) && !s.proc.mem.unsynced
    ensures s.blocked == s.proc.mem.expired
  {
  }

  /** A reading taken is the kernel's counters and listings as they are, and stays so until a packet or a
      rebuild comes: views then show the kernel's own figures. */
  lemma ReadingIsKernel(s: State, steps: seq<Step>)
    requires Enabled(s, SampleRead) && Legal(Next(s, SampleRead), steps)
    requires forall i | 0 <= i < |steps| :: !steps[i].Traffic? && !steps[i].ApplyOk? && !steps[i].StartOk? && !steps[i].Reboot?
    ensures var n, r := After(Next(s, SampleRead), steps), Next(s, SampleRead).proc.sampler.reading;
            && n.kernel == s.kernel && s.kernel.Present? && r.counters == s.kernel.table.counters
            && (forall id :: id in r.used <==> id in s.kernel.table.quotas)
            && (forall id | id in r.used :: r.used[id] ==
                  if s.kernel.table.quotas[id].charged <= s.kernel.table.quotas[id].limit
                  then s.kernel.table.quotas[id].charged else s.kernel.table.quotas[id].limit)
  {
    KernelUntouched(Next(s, SampleRead), steps);
    hide Legal, After;
  }

  lemma {:induction false} KernelUntouched(s: State, steps: seq<Step>)
    requires Legal(s, steps)
    requires forall i | 0 <= i < |steps| :: !steps[i].Traffic? && !steps[i].ApplyOk? && !steps[i].StartOk? && !steps[i].Reboot?
    ensures After(s, steps).kernel == s.kernel
    decreases |steps|
  {
    hide Enabled, Next;
    if steps != [] {
      KernelStays(s, steps[0]);
      assert forall i | 0 <= i < |steps[1..]| :: steps[1..][i] == steps[i + 1];
      KernelUntouched(Next(s, steps[0]), steps[1..]);
    }
  }
}
