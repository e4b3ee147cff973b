/** What the control plane promises, on every run of the machine from boot. */
module Guarantees {
  import opened Model
  import opened Ruleset
  import opened Tables
  import opened Engine
  import opened Structure
  import opened Invariant
  import opened Metering
  import opened MeteringProof
  import opened Stretches

  // ---------------------------------------------------------------- metering

  /** For every counter: what was accepted is what it shows and what was lost. */
  ghost predicate AllConserved(t: Table, m: Meter) {
    forall k | k in t.counters :: Get(m.accepted, k) == t.counters[k].bytes + Get(m.lost, k)
  }

  /** Conservation: over any stretch, every byte a port was let through since its counter came to be is
      in the kernel counter, or passed between the sample and the apply of some successful rebuild.
      What the counters show when the stretch begins, and what a cold start seeds them with from the
      database, counts as let through before. */
  lemma NothingIsLost(s0: State, steps: seq<Step>)
    requires Stretch(s0, steps) && After(s0, steps).kernel.Present?
    ensures AllConserved(After(s0, steps).kernel.table, Measured(s0, steps))
  {
    StretchMetered(s0, steps);
    hide Good, Stretch, Measured;
  }

  /** Breaker bound: over any stretch, since an account's limit or usage was last set (or the stretch
      began), the bytes it was let through over all its ports and both directions are at most its limit
      minus the usage it started from, plus what passed inside rebuild windows. */
  lemma BreakerHolds(s0: State, steps: seq<Step>, id: int)
    requires Stretch(s0, steps) && After(s0, steps).kernel.Present? && id in After(s0, steps).kernel.table.quotas
    ensures var m, q := Measured(s0, steps), After(s0, steps).kernel.table.quotas[id];
            Get(m.base, id) <= q.limit && Get(m.spent, id) <= q.limit - Get(m.base, id) + Get(m.lostSpend, id)
  {
    StretchMetered(s0, steps);
    hide Good, Stretch, Measured;
    var m, q := Measured(s0, steps), After(s0, steps).kernel.table.quotas[id];
    assert Get(m.base, id) <= q.limit && Get(m.spent, id) + Get(m.base, id) <= q.Listed() + Get(m.lostSpend, id);
  }

  /** What the sample says of a counter; a port the kernel does not have yet starts at zero. */
  function CounterSeen(seen: Sample, k: Key): Counter { if k in seen.counters then seen.counters[k] else ZERO }

  /** Every sampled quota is charged what it listed, a usage mutation's target what was requested, and
      every counter shows what was sampled. */
  ghost predicate SeededRight(t: Table, op: Op, seen: Sample) {
    && (forall id | id in t.quotas && id in seen.used :: t.quotas[id].charged == Expected(op, seen, id))
    && (forall k | k in t.counters :: t.counters[k] == CounterSeen(seen, k))
  }

  /** The seed of a rebuild is the sample it began with, whatever late writes left in the database and
      whatever befell earlier reconciles, as long as no write straddles this one: every counter that
      survives, and every quota but a usage mutation's target, which is seeded with exactly the requested
      value. */
  lemma SeedIsFresh(s: State)
    requires Unstraddled(s) && Enabled(s, ApplyOk)
    ensures SeededRight(Next(s, ApplyOk).kernel.table, s.proc.lock.op, s.proc.lock.seen)
  {
    hide Good, Metered, Rendered, CounterOf, Unstraddled, Reachable;
    var m := UnstraddledMetered(s);
    LoadedSeeds(s, m);
    var n := Next(s, ApplyOk);
    RebuiltCounters(n, s.proc.lock.tree, n.blocked);
    RebuiltQuotas(n, s.proc.lock.tree, n.blocked);
  }

  lemma LoadedSeeds(s: State, m: Meter)
    requires Metered(s, m) && s.proc.Running? && s.proc.lock.Loaded?
    ensures Seeds(s.proc.lock.tree, s.proc.lock.seen, s.proc.lock.op)
  {
    hide Ledger, Conserved, Bounded, Pending, CarriesCounters, CarriesUsed, LiveFollows, Seeds;
    CarriesSeeds(s.proc.lock.tree, s.proc.lock.seen, s.proc.lock.op);
  }

  /** Rebuild transparency: a rebuild that sampled the table it replaces, and whose mutation changed
      neither structure nor usage, cannot be told from no rebuild at all by any later stream of
      non-empty packets: same verdicts, same counters and usage at the end, although the listing it
      was seeded from cuts usage off at the limit. (ReseedVerdictExact is the exception, exactly.) */
  lemma {:induction false} RebuildTransparent(s: State, ps: seq<Packet>)
    requires Unstraddled(s) && Enabled(s, ApplyOk) && s.kernel.Present?
    requires !s.proc.lock.op.SetUsage? && !s.proc.lock.op.ResetAccount?
    requires s.proc.lock.seen == SampleOf(s.kernel.table)
    requires ShapeOf(s.kernel.table) == ShapeFor(s.proc.lock.tree, s.proc.lock.tree.ExpiredSet(s.now))
    requires forall i | 0 <= i < |ps| :: ps[i].bytes > 0
    ensures var u := Next(s, ApplyOk).kernel.table;
            && u == Reseeded(s.kernel.table)
            && Stream(u, ps).0 == Stream(s.kernel.table, ps).0
            && SampleOf(Stream(u, ps).1) == SampleOf(Stream(s.kernel.table, ps).1)
  {
    hide Good, Metered, Rendered, Stream, CounterOf, Unstraddled, Reachable, ShapeOf, ShapeFor, Seeds;
    var m := UnstraddledMetered(s);
    LoadedSeeds(s, m);
    var Loaded(op, seen, tree) := s.proc.lock;
    SeedsReseed(s.kernel.table, tree, tree.ExpiredSet(s.now), op);
    ReseedTransparent(s.kernel.table, ps);
  }

  lemma SeedsReseed(t: Table, tree: Tree, blocked: set<int>, op: Op)
    requires Seeds(tree, SampleOf(t), op) && !op.SetUsage? && !op.ResetAccount?
    requires ShapeOf(t) == ShapeFor(tree, blocked)
    ensures Rendered(tree, blocked) == Reseeded(t)
  {
    hide Account.LimitBytes, Chains;
    var r, seen := Rendered(tree, blocked), SampleOf(t);
    assert ShapeOf(t).limits == Limits(tree.accounts) && ShapeOf(t).counters == KeysOf(tree.ports) && r.chains == t.chains;
    forall id ensures id in r.quotas <==> id in t.quotas {
      assert id in ShapeOf(t).limits <==> id in Limits(tree.accounts);
    }
    forall id | id in t.quotas ensures r.quotas[id] == Reseeded(t).quotas[id] {
      assert ShapeOf(t).limits[id] == Limits(tree.accounts)[id];
      assert id in seen.used && tree.accounts[id].used == Expected(op, seen, id);
    }
    MapExt(r.quotas, Reseeded(t).quotas);
    forall k ensures k in r.counters <==> k in t.counters {
    }
    KeyMapExt(r.counters, t.counters);
  }

  // ---------------------------------------------------------------- the sampler

  /** Generation guard: in every interleaving a periodic sample that is committed was read from the
      table as last rebuilt, so it shows nothing above the kernel's present state and cannot lift a
      usage a completed reset lowered; any other reading is dropped. */
  lemma CommitsAreCurrent(s: State)
    requires Reachable(s) && Enabled(s, SampleCommit)
    ensures var n := Next(s, SampleCommit);
            if s.proc.sampler.gen == s.proc.mem.gen
            then n.proc.mem.live == s.proc.sampler.reading && n.kernel.Present? && Below(n.proc.mem.live, n.kernel.table)
            else n.proc.mem == s.proc.mem
  {
    hide Reachable, DbOk, KernelOk, LockOk, OpOk, Below;
    ReachableGood(s);
  }

  // ---------------------------------------------------------------- the sync flag

  /** Honest flag: whenever the lock is free and memory does not say "unsynced", the kernel's quotas,
      limits, counters and rules are those of the database, shutting off exactly the accounts memory
      shows as expired, and every packet is treated as the direct policy of the database says. */
  lemma FlagIsHonest(s: State, p: Packet)
    requires Reachable(s) && s.proc.Running? && s.proc.lock.Free? && !s.proc.mem.unsynced
    ensures s.kernel.Present? && ShapeOf(s.kernel.table) == ShapeFor(s.db.tree, s.proc.mem.expired)
    ensures Process(s.kernel.table, p) == Policy(s.db.tree, s.proc.mem.expired, p, s.kernel.table)
  {
    ReachableGood(s);
    hide Process, Policy;
    assert s.kernel.table.chains == ShapeOf(s.kernel.table).chains;
    WalkIsPolicy(s.kernel.table, s.db.tree, s.proc.mem.expired, p);
  }

  /** However many applies failed before, a reconcile that gets through puts the kernel back in step;
      a failed one owns up to it. */
  lemma PublishRestores(s: State)
    requires Reachable(s) && Enabled(s, Publish)
    ensures !Next(s, Publish).proc.mem.unsynced && InSync(Next(s, Publish), Next(s, Publish).proc.mem)
  {
    hide Good, InSync;
    ReachableGood(s);
    StepKeeps(s, Publish);
    FreeInSync(Next(s, Publish));
  }

  lemma FreeInSync(s: State)
    requires Good(s) && s.proc.Running? && s.proc.lock.Free? && !s.proc.mem.unsynced
    ensures InSync(s, s.proc.mem)
  {
  }

  // ---------------------------------------------------------------- expiry

  /** syncKernel's test, on memory alone. */
  ghost predicate NeedsSync(mem: Mem, now: Time) {
    mem.unsynced || exists id :: id in mem.snap.accounts && (mem.snap.accounts[id].ExpiredAt(now) != (id in mem.expired))
  }

  lemma NoSyncNeeded(s: State, mem: Mem, now: Time)
    requires SameDesign(mem.snap, s.db.tree) && !mem.unsynced
    requires forall id | id in mem.expired :: id in s.db.tree.accounts
    ensures NeedsSync(mem, now) <==> mem.expired != s.db.tree.ExpiredSet(now)
  {
    SameDesignKeeps(mem.snap, s.db.tree);
    assert mem.snap.ExpiredSet(now) == s.db.tree.ExpiredSet(now);
    if !NeedsSync(mem, now) {
      SetExt(mem.expired, s.db.tree.ExpiredSet(now));
    }
    if NeedsSync(mem, now) {
      var id :| id in mem.snap.accounts && (mem.snap.accounts[id].ExpiredAt(now) != (id in mem.expired));
      assert id in mem.snap.ExpiredSet(now) <==> mem.snap.accounts[id].ExpiredAt(now);
    }
  }

  /** The cheap check refines a full rebuild: when it finds nothing to do, the kernel already has the
      structure a rebuild at this instant would give it. */
  lemma CheapCheckRefines(s: State, now: Time)
    requires Reachable(s) && s.proc.Running? && s.proc.lock.Free? && !NeedsSync(s.proc.mem, now)
    ensures s.kernel.Present?
    ensures ShapeOf(s.kernel.table) == ShapeOf(Rendered(s.db.tree, s.db.tree.ExpiredSet(now)))
  {
    ReachableGood(s);
    hide DbOk, KernelOk, SameDesign, ShapeFor, Rendered, ShapeOf, NeedsSync;
    assert !s.proc.mem.unsynced by { NotNeeded(s.proc.mem, now); }
    NoSyncNeeded(s, s.proc.mem, now);
    RenderedShape(s.db.tree, s.proc.mem.expired);
  }

  lemma NotNeeded(mem: Mem, now: Time)
    requires !NeedsSync(mem, now)
    ensures !mem.unsynced
  {
  }

  /** After a successful resync a second check at the same instant finds nothing to do. */
  lemma ResyncSettles(s: State)
    requires Reachable(s) && Enabled(s, ApplyOk)
    ensures !NeedsSync(Next(Next(s, ApplyOk), Publish).proc.mem, s.now)
  {
    var n := Next(Next(s, ApplyOk), Publish);
    assert n.proc.mem.expired == n.proc.mem.snap.ExpiredSet(s.now);
  }

  /** When a check at `now` finds nothing to do, an account expired at `now` is let no packet through.
      (ExpiryStaysEnforced in Enforcement goes on from here, over runs.) */
  lemma ExpiryEnforced(s: State, now: Time, p: Packet)
    requires Reachable(s) && s.proc.Running? && s.proc.lock.Free? && !NeedsSync(s.proc.mem, now)
    requires Managed(s.db.tree.ports, p)
    requires s.db.tree.ports[Entry(s.db.tree.ports, p)].account in s.db.tree.ExpiredSet(now)
    ensures s.kernel.Present? && Process(s.kernel.table, p) == Outcome(false, s.kernel.table)
  {
    hide NeedsSync, SameDesign, Good, Process;
    NotNeeded(s.proc.mem, now);
    FlagIsHonest(s, p);
    ReachableSettled(s);
    NoSyncNeeded(s, s.proc.mem, now);
  }

  lemma ReachableSettled(s: State)
    requires Reachable(s) && s.proc.Running? && s.proc.lock.Free?
    ensures Settled(s, s.proc.mem)
  {
    ReachableGood(s);
  }

  // ---------------------------------------------------------------- crashes

  /** Packets alone, while no process is running or it is busy elsewhere. */
  ghost function Streamed(s: State, ps: seq<Packet>): State
    decreases |ps|
  {
    if ps == [] then s else Streamed(Next(s, Traffic(ps[0])), ps[1..])
  }

  lemma {:induction false} StreamedKeeps(s: State, ps: seq<Packet>)
    requires Good(s)
    ensures Good(Streamed(s, ps))
    ensures Streamed(s, ps).(kernel := s.kernel) == s && (Streamed(s, ps).kernel.Present? <==> s.kernel.Present?)
    decreases |ps|
  {
    hide Good, Process;
    if ps != [] {
      StepKeeps(s, Traffic(ps[0]));
      StreamedKeeps(Next(s, Traffic(ps[0])), ps[1..]);
    }
  }

  /** The machine after a crash at s and a restart with the table present, with `ps` and `qs` passing
      between the restart's sample, its write and its apply. */
  ghost function Restarted(s: State, ps: seq<Packet>, qs: seq<Packet>): State
    requires Good(s) && s.kernel.Present?
  {
    hide Good, RunningNext, Process, Adopt, Persist, Rendered;
    StoredReady(s, ps, qs);
    Next(Streamed(Stored(s, ps), qs), StartOk)
  }

  /** A new process, started in place of whatever ran at s. */
  ghost function Relaunched(s: State): State { Next(s.(proc := Down), Start) }

  lemma CrashIsDown(s: State)
    ensures Next(s, Crash) == s.(proc := Down) && Next(s, Reboot) == s.(proc := Down, kernel := Absent)
  {
  }

  /** .. up to its write. */
  ghost function Stored(s: State, ps: seq<Packet>): State
    requires Good(s) && s.kernel.Present?
  {
    hide Good, RunningNext, Process, Adopt, Persist, Rendered;
    CrashGood(s);
    var s1 := Relaunched(s);
    StreamedKeeps(s1, ps);
    Next(Streamed(s1, ps), Adopted)
  }

  lemma StoredReady(s: State, ps: seq<Packet>, qs: seq<Packet>)
    requires Good(s) && s.kernel.Present?
    ensures Good(Streamed(Stored(s, ps), qs)) && Enabled(Streamed(Stored(s, ps), qs), StartOk)
    ensures Streamed(Stored(s, ps), qs).db == WithTree(s.db, Persist(s.db.tree, SampleOf(s.kernel.table)))
    ensures Streamed(Stored(s, ps), qs).proc == Starting(Adopt(s.db.tree, SampleOf(s.kernel.table)), SampleOf(s.kernel.table), true, true)
  {
    hide Good, SameDesign, RunningNext, Process, Adopt, Persist, Rendered;
    CrashGood(s);
    var s1 := Relaunched(s);
    StreamedKeeps(s1, ps);
    StepKeeps(Streamed(s1, ps), Adopted);
    StreamedKeeps(Stored(s, ps), qs);
    StartingValid(Streamed(Stored(s, ps), qs));
  }

  lemma CrashGood(s: State)
    requires Good(s)
    ensures Next(s, Crash) == s.(proc := Down) && Good(Relaunched(s))
  {
    hide Good, Next;
    StepKeeps(s, Crash);
    CrashIsDown(s);
    StepKeeps(s.(proc := Down), Start);
  }

  lemma StartingValid(s: State)
    requires Good(s) && s.proc.Starting?
    ensures s.proc.snap.Valid()
  {
    SameDesignKeeps(s.proc.snap, s.db.tree);
  }

  /** Crash safety: a crash at any micro-step followed by a restart over the live table leaves the
      kernel rendering exactly the database's accounts and ports, keeps every surviving counter and
      every existing quota's usage as sampled at the restart, and makes the database agree for every
      row it holds. */
  lemma CrashRecovery(s: State, ps: seq<Packet>, qs: seq<Packet>)
    requires Good(s) && s.kernel.Present?
    ensures var n, seen := Restarted(s, ps, qs), SampleOf(s.kernel.table);
            && SameDesign(n.db.tree, s.db.tree) && n.kernel.Present?
            && ShapeOf(n.kernel.table) == ShapeFor(n.db.tree, n.db.tree.ExpiredSet(n.now))
            && (forall k | k in seen.counters && k in n.kernel.table.counters :: n.kernel.table.counters[k] == seen.counters[k])
            && (forall k | k in seen.counters && k in n.db.tree.counters :: n.db.tree.counters[k] == seen.counters[k])
            && (forall id | id in seen.used && id in n.kernel.table.quotas :: n.kernel.table.quotas[id].charged == seen.used[id])
            && (forall id | id in seen.used && id in n.db.tree.accounts :: n.db.tree.accounts[id].used == seen.used[id])
  {
    hide Good, SameDesign, Process, Persist, Adopt, ShapeOf, ShapeFor, Rendered;
    var seen, s3, n := SampleOf(s.kernel.table), Streamed(Stored(s, ps), qs), Restarted(s, ps, qs);
    StoredReady(s, ps, qs);
    StartedShape(s3, n);
    PersistKeeps(s.db.tree, seen);
    PersistRows(s.db.tree, seen);
    RestartSeeds(s.db.tree, seen, n);
  }

  lemma StartedShape(s: State, n: State)
    requires Good(s) && s.proc.Starting? && s.proc.stored && s.proc.snap.Valid() && n == Next(s, StartOk)
    ensures n.kernel.Present? && ShapeOf(n.kernel.table) == ShapeFor(n.db.tree, n.db.tree.ExpiredSet(n.now))
  {
    hide ShapeOf, ShapeFor, Rendered, DbOk, KernelOk;
    SameDesignKeeps(s.proc.snap, s.db.tree);
    RenderedShape(s.proc.snap, n.blocked);
    ShapeSameDesign(s.proc.snap, s.db.tree, n.blocked);
  }

  lemma RestartSeeds(t: Tree, seen: Sample, n: State)
    requires n.kernel == Present(Rendered(Adopt(t, seen), n.blocked))
    ensures forall k | k in seen.counters && k in n.kernel.table.counters :: n.kernel.table.counters[k] == seen.counters[k]
    ensures forall id | id in seen.used && id in n.kernel.table.quotas :: n.kernel.table.quotas[id].charged == seen.used[id]
  {
    hide Rendered;
    RebuiltCounters(n, Adopt(t, seen), n.blocked);
    RebuiltQuotas(n, Adopt(t, seen), n.blocked);
  }

  /** After a reboot the kernel is seeded exactly from the database. */
  lemma ColdStart(s: State)
    requires Good(s)
    ensures var s1 := Relaunched(Next(s, Reboot));
            Enabled(s1, StartOk) && Next(s1, StartOk).db == s.db
            && Next(s1, StartOk).kernel == Present(Rendered(s.db.tree, s.db.tree.ExpiredSet(s.now)))
  {
    hide RunningNext, Rendered, Adopt, SampleOf;
    AdoptNothing(s.db.tree);
    GoodValid(s);
  }

  lemma GoodValid(s: State)
    requires Good(s)
    ensures s.db.tree.Valid()
  {
  }

  lemma AdoptNothing(t: Tree)
    ensures Adopt(t, NO_SAMPLE) == t
  {
    MapExt(FoldUsed(t.accounts, map[]), t.accounts);
    assert t.counters + map[] == t.counters;
  }

  /** Sampling a freshly applied table gives back the seeds: both counters of every port, and the usage
      of every quota account, cut off at its limit; and nothing else. */
  lemma FreshSampleIsSeed(t: Tree, blocked: set<int>)
    ensures var seen := SampleOf(Rendered(t, blocked));
            && (forall k :: k in seen.counters <==> k.port in t.ports)
            && (forall k | k in seen.counters :: seen.counters[k] == CounterOf(t, k))
            && (forall id :: id in seen.used <==> HasQuota(t.accounts, id))
            && (forall id | id in seen.used ::
                  seen.used[id] == if t.accounts[id].used <= t.accounts[id].LimitBytes() then t.accounts[id].used else t.accounts[id].LimitBytes())
  {
    hide Chains;
  }

  // ---------------------------------------------------------------- persisting and interleaving

  /** A persist tick stores what memory holds: copied and written, every row the live sample mentions has its
      figure, in the database and in the snapshot, and every other row is as it was. */
  lemma PersistStores(s: State)
    requires Enabled(s, PersistCopy)
    ensures var c := Next(s, PersistCopy);
            Enabled(c, PersistWrite(|s.proc.batches|)) &&
            var n, live := Next(c, PersistWrite(|s.proc.batches|)), s.proc.mem.live;
            && Carried(s.db.tree, n.db.tree, live) && Carried(s.proc.mem.snap, n.proc.mem.snap, live)
            && n.proc.batches == s.proc.batches && n.kernel == s.kernel
  {
    hide Carried, SampleOf;
    PersistCarries(s.db.tree, s.proc.mem.live);
    assert (s.proc.batches + [s.proc.mem.live])[..|s.proc.batches|] == s.proc.batches;
    assert (s.proc.batches + [s.proc.mem.live])[|s.proc.batches| + 1..] == [];
    AdoptCarries(s.proc.mem.snap, s.proc.mem.live);
  }

  /** u is t with the sample's figures in the rows it mentions. */
  ghost predicate Carried(t: Tree, u: Tree, live: Sample) {
    && u.ports == t.ports && (forall id :: id in u.accounts <==> id in t.accounts)
    && (forall id | id in t.accounts ::
          u.accounts[id] == if id in live.used then t.accounts[id].(used := live.used[id]) else t.accounts[id])
    && (forall k | k in t.counters :: k in u.counters
          && u.counters[k] == if k in live.counters then live.counters[k] else t.counters[k])
  }

  lemma PersistCarries(t: Tree, live: Sample)
    ensures Carried(t, Persist(t, live), live)
  {
  }

  lemma AdoptCarries(t: Tree, live: Sample)
    ensures Carried(t, Adopt(t, live), live)
  {
  }

  /** What may interleave with a reconcile, and what the lock keeps out. */
  lemma LockExcludes(s: State, p: Packet, t: Time, i: nat, op: Op, id: int, token: string)
    requires s.proc.Running?
    ensures Enabled(s, Traffic(p)) && Enabled(s, Tick(t)) && Enabled(s, Crash) && Enabled(s, Reboot)
    ensures i < |s.proc.batches| ==> Enabled(s, PersistWrite(i))
    ensures s.proc.sampler.Noted? && s.kernel.Present? ==> Enabled(s, SampleRead)
    ensures s.proc.lock.Free? ==>
              Enabled(s, PersistCopy) && (s.proc.sampler.Idle? ==> Enabled(s, SampleNote))
              && (s.proc.sampler.Holding? ==> Enabled(s, SampleCommit)) && (ArgsOk(op) ==> Enabled(s, Begin(op)))
    ensures !s.proc.lock.Free? ==>
              !Enabled(s, PersistCopy) && !Enabled(s, SampleNote) && !Enabled(s, SampleCommit) && !Enabled(s, Begin(op))
              && !Enabled(s, RenewToken(id, token)) && !Enabled(s, RenewMaster(token))
  {
    hide ArgsOk, Fresh, Tree.Valid;
  }
}
