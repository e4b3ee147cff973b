/** Persist writes that land between a reconcile's fold and its reload: exactly which do harm, and when
    there can be none. */
module Straddling {
  import opened Model
  import opened Ruleset
  import opened Tables
  import opened Engine
  import opened Structure
  import opened Invariant
  import opened Metering
  import opened MeteringProof
  import opened Stretches
  import opened Guarantees

  // ---------------------------------------------------------------- inside one reconcile

  /** A reconcile is under way and has not applied yet. */
  ghost predicate Inside(s: State) {
    s.proc.Running? && (s.proc.lock.Sampled? || s.proc.lock.Folded? || s.proc.lock.Mutated? || s.proc.lock.Loaded?)
  }

  /** The run stays inside one reconcile, up to and including its last state; whatever may interleave, may. */
  ghost predicate StaysInside(s: State, steps: seq<Step>)
    requires Legal(s, steps)
    decreases |steps|
  {
    Inside(s) && (steps != [] ==> StaysInside(Next(s, steps[0]), steps[1..]))
  }

  lemma InsideSteps(s: State, st: Step)
    requires Inside(s) && Enabled(s, st) && Inside(Next(s, st))
    ensures st.Traffic? || st.Tick? || st.SampleRead? || st.SampleFail? || st.PersistWrite? || st.Fold? || st.Change? || st.Reload?
  {
    hide Mutate, Persist, Adopt, Rendered, Process, ArgsOk, Fresh, Renewed, Tree.Valid, Tree.ExpiredSet;
  }

  /** The reconcile's sample and operation stay what they are; nothing is added to what is in flight. */
  lemma InsideKeeps(s: State, st: Step)
    requires Inside(s) && Enabled(s, st) && Inside(Next(s, st))
    ensures Next(s, st).proc.lock.op == s.proc.lock.op && Next(s, st).proc.lock.seen == s.proc.lock.seen
    ensures s.proc.batches == [] ==> Next(s, st).proc.batches == []
  {
    InsideSteps(s, st);
    hide Mutate, Persist, Adopt, Rendered, Process, ArgsOk, Fresh, Renewed, Tree.Valid, Tree.ExpiredSet;
  }

  lemma {:induction false} InsideRun(s: State, steps: seq<Step>)
    requires Legal(s, steps) && StaysInside(s, steps)
    ensures Inside(After(s, steps))
    ensures After(s, steps).proc.lock.op == s.proc.lock.op && After(s, steps).proc.lock.seen == s.proc.lock.seen
    ensures s.proc.batches == [] ==> After(s, steps).proc.batches == []
    decreases |steps|
  {
    hide Enabled, Next, Inside;
    if steps != [] {
      var n := Next(s, steps[0]);
      assert Inside(s) && StaysInside(n, steps[1..]) && Inside(n);
      InsideKeeps(s, steps[0]);
      InsideRun(n, steps[1..]);
    } else {
      assert Inside(s);
    }
  }

  /** With no batch in flight when a reconcile begins, no write can straddle it. */
  lemma {:induction false} NoBatchNoStraddle(s: State, steps: seq<Step>)
    requires Legal(s, steps) && StaysInside(s, steps) && s.proc.batches == []
    ensures NeverStraddles(s, steps)
    decreases |steps|
  {
    hide Enabled, Next, Inside;
    if steps != [] {
      var n := Next(s, steps[0]);
      assert Inside(s) && StaysInside(n, steps[1..]) && Inside(n);
      NothingToWrite(s, steps[0]);
      InsideKeeps(s, steps[0]);
      NoBatchNoStraddle(n, steps[1..]);
    }
  }

  lemma NothingToWrite(s: State, st: Step)
    requires Inside(s) && Enabled(s, st) && s.proc.batches == []
    ensures !st.PersistWrite?
  {
  }

  /** A reconcile entered from a reachable state and followed so far without a straddling write. */
  lemma EnteredUnstraddled(s: State, op: Op, steps: seq<Step>)
    requires Reachable(s) && Enabled(s, Begin(op)) && Legal(Next(s, Begin(op)), steps)
    requires NeverStraddles(Next(s, Begin(op)), steps)
    ensures Unstraddled(After(Next(s, Begin(op)), steps))
  {
    hide Reachable, Next;
    BeginsFree(s, op);
    First(s, Begin(op), steps);
    var all := [Begin(op)] + steps;
    assert all[1..] == steps;
    assert Stretch(s, all);
  }

  lemma BeginsFree(s: State, op: Op)
    requires Enabled(s, Begin(op))
    ensures Resting(s) && !Straddles(s, Begin(op))
  {
  }

  /** The reconcile begun at b goes on by `work` to its apply, whatever interleaves with it. */
  ghost predicate Completes(b: State, op: Op, work: seq<Step>) {
    && Enabled(b, Begin(op)) && Legal(Next(b, Begin(op)), work) && StaysInside(Next(b, Begin(op)), work)
    && Enabled(After(Next(b, Begin(op)), work), ApplyOk)
  }

  /** The state about to apply. */
  ghost function Reached(b: State, op: Op, work: seq<Step>): (t: State)
    requires Completes(b, op, work)
    ensures t.proc.Running? && t.proc.lock.Loaded? && Enabled(t, ApplyOk)
  {
    After(Next(b, Begin(op)), work)
  }

  /** So a reconcile that begins with no batch in flight seeds right. */
  lemma QuietSeedIsFresh(b: State, op: Op, work: seq<Step>)
    requires Reachable(b) && Completes(b, op, work) && b.proc.batches == []
    ensures b.kernel.Present?
    ensures SeededRight(Next(Reached(b, op, work), ApplyOk).kernel.table, op, SampleOf(b.kernel.table))
  {
    hide Reachable, StaysInside, Next, NeverStraddles, Unstraddled, SeededRight, Legal, After, Enabled, Good;
    var c := Next(b, Begin(op));
    ReachableGood(b);
    BeginsWith(b, op);
    NoBatchNoStraddle(c, work);
    EnteredUnstraddled(b, op, work);
    InsideRun(c, work);
    SeedIsFresh(After(c, work));
  }

  lemma BeginsWith(s: State, op: Op)
    requires Good(s) && Enabled(s, Begin(op))
    ensures s.kernel.Present? && Next(s, Begin(op)).proc.Running? && Next(s, Begin(op)).proc.batches == s.proc.batches
    ensures Next(s, Begin(op)).proc.lock == Sampled(op, SampleOf(s.kernel.table))
    ensures Next(s, Begin(op)).kernel == s.kernel
    ensures Next(s, Begin(op)).given == s.given && Next(s, Begin(op)).blocked == s.blocked && Inside(Next(s, Begin(op)))
  {
    GoodParts(s);
    hide Good, SampleOf, ArgsOk;
  }

  // ---------------------------------------------------------------- what late writes leave

  /** A, then B over it. */
  function Overlaid(a: Sample, b: Sample): Sample { Sample(a.used + b.used, a.counters + b.counters) }

  /** What the mutation leaves of a batch written before it: not its own target's figure. */
  function Surviving(b: Sample, lock: Lock): Sample {
    if lock.Folded? then Sample(map id | id in b.used && !TargetsUsage(lock.op, id) :: b.used[id], b.counters) else b
  }

  /** What all writes that straddle the reconcile together leave: for every row the last that mentions it. */
  ghost function Late(s: State, steps: seq<Step>): Sample
    requires Legal(s, steps)
    decreases |steps|
  {
    if steps == [] then NO_SAMPLE
    else if Straddles(s, steps[0])
    then Overlaid(Surviving(s.proc.batches[steps[0].i], s.proc.lock), Late(Next(s, steps[0]), steps[1..]))
    else Late(Next(s, steps[0]), steps[1..])
  }

  lemma MapsAssociate<K, V>(a: map<K, V>, b: map<K, V>, c: map<K, V>)
    ensures a + b + c == a + (b + c)
    ensures map[] + a == a && a + map[] == a
  {
  }

  lemma OverlaidAssociates(a: Sample, b: Sample, c: Sample)
    ensures Overlaid(Overlaid(a, b), c) == Overlaid(a, Overlaid(b, c))
    ensures Overlaid(NO_SAMPLE, a) == a && Overlaid(a, NO_SAMPLE) == a
  {
    MapsAssociate(a.used, b.used, c.used);
    MapsAssociate(a.counters, b.counters, c.counters);
  }

  lemma SurvivingOverlaid(a: Sample, b: Sample, lock: Lock)
    ensures Surviving(Overlaid(a, b), lock) == Overlaid(Surviving(a, lock), Surviving(b, lock))
    ensures Surviving(NO_SAMPLE, lock) == NO_SAMPLE
  {
    MapExt(Surviving(Overlaid(a, b), lock).used, Overlaid(Surviving(a, lock), Surviving(b, lock)).used);
    MapExt(Surviving(NO_SAMPLE, lock).used, NO_SAMPLE.used);
  }

  lemma FoldTwice(m: map<int, Account>, a: map<int, nat>, b: map<int, nat>)
    ensures FoldUsed(FoldUsed(m, a), b) == FoldUsed(m, a + b) && FoldUsed(m, map[]) == m
  {
    MapExt(FoldUsed(FoldUsed(m, a), b), FoldUsed(m, a + b));
    MapExt(FoldUsed(m, map[]), m);
  }

  lemma PersistTwice(t: Tree, a: Sample, b: Sample)
    ensures Persist(Persist(t, a), b) == Persist(t, Overlaid(a, b)) && Persist(t, NO_SAMPLE) == t
  {
    FoldTwice(t.accounts, a.used, b.used);
    hide FoldUsed;
    KeyMapExt(Persist(Persist(t, a), b).counters, Persist(t, Overlaid(a, b)).counters);
    KeyMapExt(Persist(t, NO_SAMPLE).counters, t.counters);
  }

  // ---------------------------------------------------------------- what a reconcile reloads

  lemma {:induction false} LoadedHolds(s: State, steps: seq<Step>)
    requires Legal(s, steps) && StaysInside(s, steps) && s.proc.lock.Loaded?
    ensures After(s, steps).proc.Running? && After(s, steps).proc.lock == s.proc.lock
    ensures s.proc.batches == [] ==> After(s, steps).db == s.db
    decreases |steps|
  {
    hide Enabled, Next, Inside;
    if steps != [] {
      var n := Next(s, steps[0]);
      assert Inside(s) && StaysInside(n, steps[1..]) && Inside(n);
      LoadedStep(s, steps[0]);
      LoadedHolds(n, steps[1..]);
    } else {
      IsRunning(s);
    }
  }

  lemma IsRunning(s: State)
    requires Inside(s)
    ensures s.proc.Running?
  {
  }

  lemma LoadedStep(s: State, st: Step)
    requires Inside(s) && Enabled(s, st) && Inside(Next(s, st)) && s.proc.lock.Loaded?
    ensures Next(s, st).proc.lock == s.proc.lock
    ensures s.proc.batches == [] ==> Next(s, st).db == s.db && Next(s, st).proc.batches == []
  {
    InsideSteps(s, st);
    hide Process, Persist, SampleOf;
  }

  lemma {:induction false} LoadedLate(s: State, steps: seq<Step>)
    requires Legal(s, steps) && StaysInside(s, steps) && s.proc.lock.Loaded?
    ensures Late(s, steps) == NO_SAMPLE
    decreases |steps|
  {
    hide Enabled, Next, Inside;
    if steps != [] {
      var n := Next(s, steps[0]);
      assert Inside(s) && StaysInside(n, steps[1..]) && Inside(n);
      LoadedStep(s, steps[0]);
      IsRunning(n);
      LoadedLate(n, steps[1..]);
    }
  }

  /** After its mutation the database changes only by persist writes, and what is reloaded is held until
      the apply. */
  lemma {:induction false} MutatedReloads(s: State, steps: seq<Step>)
    requires Legal(s, steps) && StaysInside(s, steps)
    requires s.proc.lock.Mutated? && After(s, steps).proc.Running? && After(s, steps).proc.lock.Loaded?
    ensures After(s, steps).proc.lock.tree == Persist(s.db.tree, Late(s, steps))
    decreases |steps|
  {
    hide Enabled, Next, Inside, Persist, Overlaid;
    assert steps != [];
    var n := Next(s, steps[0]);
    assert Inside(s) && StaysInside(n, steps[1..]) && Inside(n);
    IsRunning(n);
    MutatedStep(s, steps[0]);
    PersistTwice(s.db.tree, NO_SAMPLE, NO_SAMPLE);
    if n.proc.lock.Mutated? {
      MutatedReloads(n, steps[1..]);
      if Straddles(s, steps[0]) { PersistTwice(s.db.tree, s.proc.batches[steps[0].i], Late(n, steps[1..])); }
    } else {
      LoadedHolds(n, steps[1..]);
      LoadedLate(n, steps[1..]);
    }
  }

  lemma MutatedStep(s: State, st: Step)
    requires Inside(s) && Enabled(s, st) && Inside(Next(s, st)) && s.proc.lock.Mutated?
    ensures st.PersistWrite? ==> st.i < |s.proc.batches|
    ensures Straddles(s, st) <==> st.PersistWrite?
    ensures Next(s, st).db == if st.PersistWrite? then WithTree(s.db, Persist(s.db.tree, s.proc.batches[st.i])) else s.db
    ensures Next(s, st).proc.lock == s.proc.lock
         || (!st.PersistWrite? && Next(s, st).proc.lock == Lock.Loaded(s.proc.lock.op, s.proc.lock.seen, s.db.tree))
  {
    InsideSteps(s, st);
    hide Process, Tree.Valid, SampleOf, Persist;
  }

  ghost predicate PortsBelow(r: Sample, bound: int) { forall k | k in r.counters :: k.port < bound }

  ghost predicate InFlightBelow(s: State, bound: int)
    requires s.proc.Running?
  {
    forall i | 0 <= i < |s.proc.batches| :: PortsBelow(s.proc.batches[i], bound)
  }

  /** Nothing is put in flight inside a reconcile. */
  lemma InFlightStep(s: State, st: Step, bound: int)
    requires Inside(s) && Enabled(s, st) && Inside(Next(s, st)) && InFlightBelow(s, bound)
    ensures InFlightBelow(Next(s, st), bound)
  {
    InsideSteps(s, st);
    hide PortsBelow, Persist, Process, Mutate, Tree.Valid, SampleOf;
  }

  lemma {:induction false} LateBelow(s: State, steps: seq<Step>, bound: int)
    requires Legal(s, steps) && StaysInside(s, steps) && s.proc.Running? && InFlightBelow(s, bound)
    ensures PortsBelow(Late(s, steps), bound)
    decreases |steps|
  {
    hide Enabled, Next, Inside;
    if steps != [] {
      var n := Next(s, steps[0]);
      assert Inside(s) && StaysInside(n, steps[1..]) && Inside(n);
      IsRunning(n);
      InFlightStep(s, steps[0], bound);
      LateBelow(n, steps[1..], bound);
      if Straddles(s, steps[0]) { WritesInFlight(s, steps[0]); }
    }
  }

  lemma WritesInFlight(s: State, st: Step)
    requires Enabled(s, st) && Straddles(s, st)
    ensures st.i < |s.proc.batches|
  {
  }

  /** Between fold and mutation writes go under the mutation, after it over it. */
  lemma {:induction false} FoldedReloads(s: State, steps: seq<Step>) returns (early: Sample, u: Db, late: Sample)
    requires Good(s) && Legal(s, steps) && StaysInside(s, steps)
    requires s.proc.lock.Folded? && After(s, steps).proc.Running? && After(s, steps).proc.lock.Loaded?
    ensures RowsFollow(s.proc.lock.op, WithTree(s.db, Persist(s.db.tree, early)), u) && Sound(u)
    ensures After(s, steps).proc.lock.tree == Persist(u.tree, late)
    ensures Late(s, steps) == Overlaid(Surviving(early, s.proc.lock), late)
    decreases |steps|
  {
    hide Enabled, Next, Inside, Good, RowsFollow, Sound, Persist, Overlaid, Surviving;
    assert steps != [] && Inside(s);
    IsRunning(s);
    var n, lock := Next(s, steps[0]), s.proc.lock;
    assert StaysInside(n, steps[1..]) && Inside(n);
    IsRunning(n);
    FoldedStep(s, steps[0]);
    StepKeeps(s, steps[0]);
    PersistTwice(s.db.tree, NO_SAMPLE, NO_SAMPLE);
    if n.proc.lock.Folded? {
      early, u, late := FoldedReloads(n, steps[1..]);
      if Straddles(s, steps[0]) {
        var b := s.proc.batches[steps[0].i];
        PersistTwice(s.db.tree, b, early);
        SurvivingOverlaid(b, early, lock);
        OverlaidAssociates(Surviving(b, lock), Surviving(early, lock), late);
        early := Overlaid(b, early);
      }
    } else {
      MutatedReloads(n, steps[1..]);
      early, u, late := NO_SAMPLE, n.db, Late(n, steps[1..]);
      SurvivingOverlaid(early, early, lock);
      OverlaidAssociates(late, late, late);
    }
  }

  lemma FoldedStep(s: State, st: Step)
    requires Good(s) && Inside(s) && Enabled(s, st) && Inside(Next(s, st)) && s.proc.lock.Folded?
    ensures st.PersistWrite? ==> st.i < |s.proc.batches|
    ensures Straddles(s, st) <==> st.PersistWrite?
    ensures (Next(s, st).proc.lock == s.proc.lock
             && Next(s, st).db == if st.PersistWrite? then WithTree(s.db, Persist(s.db.tree, s.proc.batches[st.i])) else s.db)
         || (!st.PersistWrite? && Next(s, st).proc.lock == Lock.Mutated(s.proc.lock.op, s.proc.lock.seen)
             && RowsFollow(s.proc.lock.op, s.db, Next(s, st).db) && Sound(Next(s, st).db))
  {
    hide Good, Mutate, RowsFollow, Sound, Process, SampleOf, Persist;
    InsideSteps(s, st);
    var mem, op := s.proc.mem, s.proc.lock.op;
    if st.Change? && Mutate(op, st.token, s.now, s.db, mem.snap, mem.live).Some? {
      MutatedDb(s, st.token);
      MutateRows(op, st.token, s.now, s.db, mem.snap, mem.live);
    }
  }

  // ---------------------------------------------------------------- which writes do harm

  /** The late writes together leave the right figure for every sampled account that has a quota and for
      every port the rebuild will seed. */
  ghost predicate Harmless(late: Sample, op: Op, seen: Sample, tree: Tree) {
    && (forall id | HasQuota(tree.accounts, id) && id in seen.used && id in late.used :: late.used[id] == Expected(op, seen, id))
    && (forall k: Key | k.port in tree.ports && k in late.counters :: late.counters[k] == CounterSeen(seen, k))
  }

  /** What the rows a rebuild seeds from hold after late writes. */
  ghost predicate SeedRows(tree: Tree, late: Sample, op: Op, seen: Sample) {
    && (forall id | id in tree.accounts && id in seen.used ::
          tree.accounts[id].used == if id in late.used then late.used[id] else Expected(op, seen, id))
    && (forall k: Key | k.port in tree.ports ::
          CounterOf(tree, k) == if k in late.counters then late.counters[k] else CounterSeen(seen, k))
  }

  lemma RowsDecide(n: State, tree: Tree, late: Sample, op: Op, seen: Sample, blocked: set<int>)
    requires SeedRows(tree, late, op, seen) && n.kernel == Present(Rendered(tree, blocked))
    ensures SeededRight(n.kernel.table, op, seen) <==> Harmless(late, op, seen, tree)
  {
    hide Rendered, CounterOf;
    RebuiltQuotas(n, tree, blocked);
    RebuiltCounters(n, tree, blocked);
    var t := n.kernel.table;
    if SeededRight(t, op, seen) {
      forall id | HasQuota(tree.accounts, id) && id in seen.used && id in late.used ensures late.used[id] == Expected(op, seen, id) {
        assert id in t.quotas && t.quotas[id].charged == tree.accounts[id].used;
      }
      forall k: Key | k.port in tree.ports && k in late.counters ensures late.counters[k] == CounterSeen(seen, k) {
        assert k in t.counters && t.counters[k] == CounterOf(tree, k);
      }
    }
    if Harmless(late, op, seen, tree) {
      forall id | id in t.quotas && id in seen.used ensures t.quotas[id].charged == Expected(op, seen, id) {
        assert HasQuota(tree.accounts, id) && t.quotas[id].charged == tree.accounts[id].used;
      }
      forall k | k in t.counters ensures t.counters[k] == CounterSeen(seen, k) {
        assert k.port in tree.ports && t.counters[k] == CounterOf(tree, k);
      }
    }
  }

  lemma MutatedRows(t: Tree, late: Sample, op: Op, seen: Sample)
    requires CarriesCounters(t, seen) && CarriesUsed(t, seen, op)
    ensures SeedRows(Persist(t, late), late, op, seen)
  {
    PersistRows(t, late);
    hide Persist;
    forall k: Key | k.port in t.ports ensures k in t.counters {
      assert k in KeysOf(t.ports);
    }
  }

  lemma FoldedRows(db: Db, early: Sample, u: Db, late: Sample, lock: Lock)
    requires lock.Folded? && CarriesCounters(db.tree, lock.seen) && CarriesUsed(db.tree, lock.seen, Resync)
    requires RowsFollow(lock.op, WithTree(db, Persist(db.tree, early)), u)
    requires u.tree.counters.Keys == KeysOf(u.tree.ports)
    requires forall id | id in lock.seen.used :: id < db.nextAccount
    requires PortsBelow(lock.seen, db.nextPort) && PortsBelow(Overlaid(Surviving(early, lock), late), db.nextPort)
    ensures SeedRows(Persist(u.tree, late), Overlaid(Surviving(early, lock), late), lock.op, lock.seen)
  {
    PersistRows(db.tree, early);
    PersistRows(u.tree, late);
    hide Persist;
    var all, t := Overlaid(Surviving(early, lock), late), Persist(u.tree, late);
    forall k: Key | k.port in t.ports
      ensures CounterOf(t, k) == if k in all.counters then all.counters[k] else CounterSeen(lock.seen, k)
    {
      assert k in KeysOf(u.tree.ports);
    }
  }

  lemma AppliesLoaded(s: State)
    requires Enabled(s, ApplyOk)
    ensures s.proc.Running? && s.proc.lock.Loaded?
  {
  }

  lemma SoundCounters(u: Db)
    requires Sound(u)
    ensures u.tree.counters.Keys == KeysOf(u.tree.ports)
  {
  }

  /** What a clean state inside a reconcile knows. */
  lemma {:induction false} InsideMeter(s: State, m: Meter)
    requires Good(s) && Metered(s, m) && s.proc.Running? && (s.proc.lock.Folded? || s.proc.lock.Mutated?)
    ensures CarriesCounters(s.db.tree, s.proc.lock.seen)
    ensures CarriesUsed(s.db.tree, s.proc.lock.seen, if s.proc.lock.Folded? then Resync else s.proc.lock.op)
    ensures forall id | id in s.proc.lock.seen.used :: id < s.db.nextAccount
    ensures PortsBelow(s.proc.lock.seen, s.db.nextPort) && InFlightBelow(s, s.db.nextPort)
  {
    hide Conserved, Bounded, CarriesCounters, CarriesUsed, Chains;
    GoodParts(s);
    KernelKeys(s);
    forall id | id in s.proc.lock.seen.used ensures id < s.db.nextAccount {
      assert id in s.kernel.table.quotas && id in ShapeOf(s.kernel.table).limits && id in Limits(s.given.accounts);
    }
    forall i | 0 <= i < |s.proc.batches| ensures PortsBelow(s.proc.batches[i], s.db.nextPort) {
      assert Known(s.proc.batches[i], s);
    }
  }

  /** The rows a reconcile seeds from, with all its late writes, from any clean point of it. */
  lemma {:induction false} LateRows(s: State, m: Meter, steps: seq<Step>)
    requires Good(s) && Metered(s, m) && Legal(s, steps) && StaysInside(s, steps)
    requires s.proc.Running? && !s.proc.lock.Loaded? && After(s, steps).proc.Running?
    requires After(s, steps).proc.lock.Loaded?
    ensures Inside(s) && SeedRows(After(s, steps).proc.lock.tree, Late(s, steps), s.proc.lock.op, s.proc.lock.seen)
    decreases |steps|
  {
    hide Good, Metered, Enabled, Next, SeedRows, Persist, MeterNext, CarriesCounters, CarriesUsed, RowsFollow, Sound,
         InFlightBelow, PortsBelow,
         Overlaid, Surviving;
    assert steps != [];
    var n := Next(s, steps[0]);
    assert Inside(s) && StaysInside(n, steps[1..]) && Inside(n);
    if s.proc.lock.Sampled? {
      StepKeeps(s, steps[0]);
      MeterStep(s, m, steps[0]);
      InsideKeeps(s, steps[0]);
      SampledNext(s, steps[0]);
      LateRows(n, MeterNext(s, m, steps[0]), steps[1..]);
    } else {
      InsideMeter(s, m);
      LateBelow(s, steps, s.db.nextPort);
      if s.proc.lock.Mutated? {
        MutatedReloads(s, steps);
        MutatedRows(s.db.tree, Late(s, steps), s.proc.lock.op, s.proc.lock.seen);
      } else {
        var early, u, late := FoldedReloads(s, steps);
        SoundCounters(u);
        FoldedRows(s.db, early, u, late, s.proc.lock);
      }
    }
  }

  lemma SampledNext(s: State, st: Step)
    requires Inside(s) && Enabled(s, st) && Inside(Next(s, st)) && s.proc.lock.Sampled?
    ensures Next(s, st).proc.Running? && !Next(s, st).proc.lock.Loaded?
  {
    InsideSteps(s, st);
    hide Process, Persist, SampleOf;
  }

  /** The hypothesis of the seed is exact. Let any reconcile run from its begin to its apply, with any
      number of persist writes landing anywhere, and packets, clock and sampler interleaving as they
      please. The rebuild seeds every sampled quota and every counter right if and only if the writes that
      straddled it together leave the right figure: the last to mention a row decides it, one for a usage
      mutation's target counts only after the mutation, and rows of accounts without a quota and of ports
      that are gone do not matter. */
  lemma StraddleExact(b: State, op: Op, work: seq<Step>)
    requires Reachable(b) && Completes(b, op, work)
    ensures b.kernel.Present? && Legal(Next(b, Begin(op)), work)
    ensures SeededRight(Next(Reached(b, op, work), ApplyOk).kernel.table, op, SampleOf(b.kernel.table)) <==>
            Harmless(Late(Next(b, Begin(op)), work), op, SampleOf(b.kernel.table), Reached(b, op, work).proc.lock.tree)
  {
    hide Good, Reachable, Metered, StaysInside, SeedRows, Harmless, SeededRight, Legal, After, Rendered, Late, Opened,
         MeterNext;
    ReachableGood(b);
    BeginsWith(b, op);
    var c, t := Next(b, Begin(op)), Reached(b, op, work);
    var m := BegunMeter(b, op);
    AppliesLoaded(t);
    LateRows(c, m, work);
    var n := Next(t, ApplyOk);
    RowsDecide(n, t.proc.lock.tree, Late(c, work), op, SampleOf(b.kernel.table), n.blocked);
  }

  lemma BegunMeter(b: State, op: Op) returns (m: Meter)
    requires Reachable(b) && Enabled(b, Begin(op))
    ensures Good(Next(b, Begin(op))) && Metered(Next(b, Begin(op)), m)
  {
    hide Good, Reachable, Metered, Ledger, Opened, MeterNext, Next;
    ReachableGood(b);
    ReachableLedger(b);
    BeginsFree(b, op);
    OpenedMetered(b);
    StepKeeps(b, Begin(op));
    MeterStep(b, Opened(b.kernel), Begin(op));
    m := MeterNext(b, Opened(b.kernel), Begin(op));
  }

  // ---------------------------------------------------------------- conservation

  /** What straddling writes leave intact: kernel and meter still agree on what has passed. */
  ghost predicate Balanced(s: State, m: Meter, seen: Sample) { Conserved(s, m) && Bounded(s, m) && Pending(s, m, seen) }

  lemma BalancedStep(s: State, m: Meter, st: Step, seen: Sample)
    requires Good(s) && Balanced(s, m, seen) && Inside(s) && Enabled(s, st) && Inside(Next(s, st))
    ensures Balanced(Next(s, st), MeterNext(s, m, st), seen)
  {
    hide Good, Conserved, Bounded, Pending, Enabled, Next, MeterPacket, InStep, Inside;
    InsideSteps(s, st);
    var n := Next(s, st);
    GoodParts(s);
    if st.Traffic? {
      InsidePresent(s, st.p);
      PacketEffect(s, m, st.p);
      ConservedInStep(s, n, m, MeterNext(s, m, st));
      PendingInStep(s, n, m, MeterNext(s, m, st), seen);
    } else {
      assert MeterNext(s, m, st) == m;
      if st.Change? {
        ChangeBalances(s, m, st.token);
      } else {
        InsideFrame(s, st);
        FramedConserved(s, n, m);
      }
      KernelStays(s, st);
      PendingFrame(s, n, m, seen);
    }
  }

  lemma InsidePresent(s: State, p: Packet)
    requires Good(s) && Inside(s)
    ensures s.kernel.Present? && Next(s, Traffic(p)) == s.(kernel := Present(Process(s.kernel.table, p).table))
  {
    GoodParts(s);
    hide Process, Good;
  }

  lemma ChangeBalances(s: State, m: Meter, token: string)
    requires Good(s) && Conserved(s, m) && Bounded(s, m) && Enabled(s, Change(token))
    ensures Conserved(Next(s, Change(token)), m) && Bounded(Next(s, Change(token)), m)
  {
    hide Good, Conserved, Bounded, Mutate, RowsFollow, Sound;
    var mem, op, n := s.proc.mem, s.proc.lock.op, Next(s, Change(token));
    if Mutate(op, token, s.now, s.db, mem.snap, mem.live).Some? {
      MutatedDb(s, token);
      MutateRows(op, token, s.now, s.db, mem.snap, mem.live);
      ChangeConserved(s, n, m, op);
    } else {
      FramedConserved(s, n, m);
    }
  }

  lemma InsideFrame(s: State, st: Step)
    requires Inside(s) && Enabled(s, st) && Inside(Next(s, st)) && !st.Change? && !st.Traffic?
    ensures Next(s, st).kernel == s.kernel && Next(s, st).db.nextPort == s.db.nextPort
    ensures Next(s, st).db.tree.ports == s.db.tree.ports
  {
    InsideSteps(s, st);
    hide Persist, Tree.Valid, SampleOf;
    if st.PersistWrite? { PersistPorts(s.db.tree, s.proc.batches[st.i]); }
    if st.Fold? { PersistPorts(s.db.tree, s.proc.mem.live); }
  }

  lemma {:induction false} BalancedRun(s: State, m: Meter, steps: seq<Step>, seen: Sample)
    requires Good(s) && Balanced(s, m, seen) && Legal(s, steps) && StaysInside(s, steps)
    ensures Balanced(After(s, steps), MeterAfter(s, m, steps), seen) && Good(After(s, steps))
    decreases |steps|
  {
    hide Good, Enabled, Next, Inside, Balanced, MeterNext;
    if steps != [] {
      var n := Next(s, steps[0]);
      assert Inside(s) && StaysInside(n, steps[1..]) && Inside(n);
      StepKeeps(s, steps[0]);
      BalancedStep(s, m, steps[0], seen);
      BalancedRun(n, MeterNext(s, m, steps[0]), steps[1..], seen);
    }
  }

  /** What a rebuild must seed a counter with to keep the balance. */
  lemma RebuildBalance(s: State, m: Meter, tree: Tree, seen: Sample, op: Op, n: State, blocked: set<int>)
    requires Balanced(s, m, seen) && tree.ports == s.db.tree.ports && n.kernel == Present(Rendered(tree, blocked))
    ensures var w := MeterRebuild(m, s.kernel.table.quotas, n.kernel.table.quotas, op);
            forall k | k in n.kernel.table.counters :: Get(w.accepted, k) == CounterSeen(seen, k).bytes + Get(w.lost, k)
  {
    hide Rendered, MeterRebuild, Sum, Bounded;
    SumGet(m.lost, m.window);
    RebuiltCounters(n, tree, blocked);
    RebuildLost(m, s.kernel.table.quotas, n.kernel.table.quotas, op);
  }

  /** The meter after the apply. */
  ghost function MeterRebuilt(b: State, m: Meter, op: Op, work: seq<Step>): Meter
    requires Completes(b, op, work)
  {
    MeterNext(Reached(b, op, work), MeterAfter(Next(b, Begin(op)), MeterNext(b, m, Begin(op)), work), ApplyOk)
  }

  /** Conservation, too, survives any number of straddling writes if and only if they together leave
      exactly the sampled bytes for every surviving port they mention. */
  lemma StraddleConserves(s0: State, steps: seq<Step>, op: Op, work: seq<Step>)
    requires Stretch(s0, steps) && Completes(After(s0, steps), op, work)
    ensures After(s0, steps).kernel.Present? && Legal(Next(After(s0, steps), Begin(op)), work)
    ensures var b := After(s0, steps);
            AllConserved(Next(Reached(b, op, work), ApplyOk).kernel.table, MeterRebuilt(b, Measured(s0, steps), op, work)) <==>
            BytesAgree(Late(Next(b, Begin(op)), work), SampleOf(b.kernel.table), Reached(b, op, work).proc.lock.tree)
  {
    hide SeedRows, Legal, After, Rendered, Reachable, Good, Metered, Balanced, StaysInside,
         Measured, MeterRebuild, BytesAgree, AllConserved, NeverStraddles, Late, MeterAfter;
    var b, m0 := After(s0, steps), Measured(s0, steps);
    StretchMetered(s0, steps);
    BeginsWith(b, op);
    var c, t, seen := Next(b, Begin(op)), Reached(b, op, work), SampleOf(b.kernel.table);
    StepKeeps(b, Begin(op));
    BeginsFree(b, op);
    MeterStep(b, m0, Begin(op));
    var m := MeterNext(b, m0, Begin(op));
    AppliesLoaded(t);
    LateRows(c, m, work);
    SampledBalance(c, m, seen);
    BalancedRun(c, m, work, seen);
    LoadedPorts(t);
    var n, w := Next(t, ApplyOk), MeterAfter(c, m, work);
    RebuildBalance(t, w, t.proc.lock.tree, seen, t.proc.lock.op, n, n.blocked);
    RebuiltCounters(n, t.proc.lock.tree, n.blocked);
    BytesDecide(n, MeterNext(t, w, ApplyOk), t.proc.lock.tree, Late(c, work), op, seen);
  }

  lemma SampledBalance(s: State, m: Meter, seen: Sample)
    requires Metered(s, m) && s.proc.Running? && s.proc.lock.Sampled? && s.proc.lock.seen == seen
    ensures Balanced(s, m, seen)
  {
    hide Ledger, Conserved, Bounded, Pending;
  }

  ghost predicate BytesAgree(b: Sample, seen: Sample, tree: Tree) {
    forall k: Key | k.port in tree.ports && k in b.counters :: b.counters[k].bytes == CounterSeen(seen, k).bytes
  }

  lemma BytesDecide(n: State, w: Meter, tree: Tree, late: Sample, op: Op, seen: Sample)
    requires SeedRows(tree, late, op, seen) && n.kernel.Present?
    requires forall k :: k in n.kernel.table.counters <==> k.port in tree.ports
    requires forall k | k in n.kernel.table.counters :: n.kernel.table.counters[k] == CounterOf(tree, k)
    requires forall k | k in n.kernel.table.counters :: Get(w.accepted, k) == CounterSeen(seen, k).bytes + Get(w.lost, k)
    ensures AllConserved(n.kernel.table, w) <==> BytesAgree(late, seen, tree)
  {
    hide CounterOf;
    forall k: Key | k.port in tree.ports && k in late.counters ensures n.kernel.table.counters[k] == late.counters[k] {
    }
  }

  lemma LoadedPorts(s: State)
    requires Good(s) && s.proc.Running? && s.proc.lock.Loaded?
    ensures s.proc.lock.tree.ports == s.db.tree.ports && s.kernel.Present?
  {
    GoodParts(s);
    hide DbOk, KernelOk;
  }
}
