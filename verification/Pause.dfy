/** Pausing an account, by tier or by expiry, keeps its usage to the byte. */
module Pause {
  import opened Model
  import opened Ruleset
  import opened Tables
  import opened Engine
  import opened Structure
  import opened Invariant
  import opened Metering
  import opened MeteringProof
  import opened Stretches
  import opened Guarantees

  /** The step runs a mutation that sets the account's usage or removes the account. */
  ghost predicate Touches(s: State, st: Step, id: int) {
    st.Change? && s.proc.Running? && s.proc.lock.Folded?
    && (TargetsUsage(s.proc.lock.op, id) || (s.proc.lock.op.DropAccount? && s.proc.lock.op.account == id))
  }

  predicate Agrees(r: Sample, id: int, u: nat) { id in r.used ==> r.used[id] == u }

  /** The account's usage rests at u in the database, no figure still on its way there differs,
      and the kernel has no quota for it. */
  ghost predicate Held(s: State, id: int, u: nat) {
    && id in s.db.tree.accounts && s.db.tree.accounts[id].used == u
    && (s.kernel.Present? ==> id !in s.kernel.table.quotas)
    && match s.proc
       case Down => true
       case Starting(snap, live, _, _) => id in snap.accounts && snap.accounts[id].used == u && Agrees(live, id, u)
       case Running(mem, sampler, batches, lock) =>
         && Agrees(mem.live, id, u)
         && (forall i | 0 <= i < |batches| :: Agrees(batches[i], id, u))
         && (sampler.Holding? && sampler.gen == mem.gen && !lock.Applied? ==> Agrees(sampler.reading, id, u))
         && (lock.Loaded? ==> id in lock.tree.accounts && lock.tree.accounts[id].used == u)
  }

  ghost predicate Resumed(s: State, id: int, u: nat) {
    s.kernel.Present? && id in s.kernel.table.quotas && s.kernel.table.quotas[id].charged == u
  }

  lemma PersistAgrees(t: Tree, r: Sample, id: int, u: nat)
    requires id in t.accounts && t.accounts[id].used == u && Agrees(r, id, u)
    ensures id in Persist(t, r).accounts && Persist(t, r).accounts[id].used == u
    ensures id in Adopt(t, r).accounts && Adopt(t, r).accounts[id].used == u
  {
  }

  lemma MutateAgrees(op: Op, token: string, now: Time, db: Db, snap: Tree, live: Sample, id: int, u: nat)
    requires Sound(db) && Mutate(op, token, now, db, snap, live).Some?
    requires id in db.tree.accounts && db.tree.accounts[id].used == u && Agrees(live, id, u)
    requires !TargetsUsage(op, id) && !(op.DropAccount? && op.account == id)
    ensures var (v, l) := Mutate(op, token, now, db, snap, live).value;
            id in v.tree.accounts && v.tree.accounts[id].used == u && Agrees(l, id, u)
  {
    match op
    case AddAccount(_, _, _, _) =>
    case DropAccount(_, _) =>
    case _ =>
  }

  lemma HeldTraffic(s: State, p: Packet, id: int, u: nat)
    requires Held(s, id, u)
    ensures Held(Next(s, Traffic(p)), id, u)
  {
    if s.kernel.Present? {
      WalkKeepsShape(s.kernel.table.Chain(p.hook), p, s.kernel.table);
      hide Walk;
    }
  }

  lemma HeldWrite(s: State, st: Step, id: int, u: nat)
    requires Held(s, id, u) && Enabled(s, st) && (st.PersistWrite? || st.Fold? || st.Adopted? || st.PersistCopy? || st.Start?)
    ensures Held(Next(s, st), id, u)
  {
    hide Persist, Adopt;
    if st.PersistWrite? { PersistAgrees(s.db.tree, s.proc.batches[st.i], id, u); }
    if st.Fold? { PersistAgrees(s.db.tree, s.proc.mem.live, id, u); }
    if st.Adopted? { PersistAgrees(s.db.tree, s.proc.live, id, u); }
    if st.Start? { PersistAgrees(s.db.tree, Reading(s.kernel, NO_SAMPLE), id, u); }
  }

  lemma HeldChange(s: State, token: string, id: int, u: nat)
    requires Good(s) && Held(s, id, u) && Enabled(s, Change(token)) && !Touches(s, Change(token), id)
    ensures Held(Next(s, Change(token)), id, u)
  {
    hide Mutate, Good, Sound;
    var mem, op := s.proc.mem, s.proc.lock.op;
    if Mutate(op, token, s.now, s.db, mem.snap, mem.live).Some? {
      MutatedDb(s, token);
      MutateAgrees(op, token, s.now, s.db, mem.snap, mem.live, id, u);
    }
  }

  lemma HeldRebuild(s: State, st: Step, id: int, u: nat)
    requires Good(s) && Held(s, id, u) && Enabled(s, st) && (st.ApplyOk? || st.StartOk?)
    ensures Held(Next(s, st), id, u) || Resumed(Next(s, st), id, u)
  {
    hide Good, Rendered, Reachable;
    var n := Next(s, st);
    RebuiltQuotas(n, if st.ApplyOk? then s.proc.lock.tree else s.proc.snap, n.blocked);
  }

  lemma HeldOther(s: State, st: Step, id: int, u: nat)
    requires Good(s) && Held(s, id, u) && Enabled(s, st)
    requires st.Tick? || st.SampleNote? || st.SampleRead? || st.SampleCommit? || st.SampleFail? || st.Begin? || st.Reload?
          || st.Abandon? || st.ApplyFail? || st.Publish? || st.RenewToken? || st.RenewMaster? || st.Crash? || st.Reboot? || st.StartFail?
    ensures Held(Next(s, st), id, u)
  {
    hide DbOk, KernelOk, LockOk, OpOk, Below, Adopt;
  }

  /** One step of a pause: the figure stays put until a rebuild gives the account a quota again, and
      that rebuild seeds it with exactly this figure. */
  lemma HeldStep(s: State, st: Step, id: int, u: nat)
    requires Good(s) && Held(s, id, u) && Enabled(s, st) && !Touches(s, st, id)
    ensures Held(Next(s, st), id, u) || Resumed(Next(s, st), id, u)
  {
    hide Good, Held, Enabled, Next, Touches, Resumed;
    match st
    case Traffic(p) => HeldTraffic(s, p, id, u);
    case PersistWrite(_) => HeldWrite(s, st, id, u);
    case PersistCopy => HeldWrite(s, st, id, u);
    case Fold => HeldWrite(s, st, id, u);
    case Adopted => HeldWrite(s, st, id, u);
    case Start => HeldWrite(s, st, id, u);
    case Change(token) => HeldChange(s, token, id, u);
    case ApplyOk => HeldRebuild(s, st, id, u);
    case StartOk => HeldRebuild(s, st, id, u);
    case _ => HeldOther(s, st, id, u);
  }

  /** No step of the run touches the account, and the kernel has no quota for it before the last state. */
  ghost predicate Paused(s: State, steps: seq<Step>, id: int)
    requires Legal(s, steps)
    decreases |steps|
  {
    steps != [] ==>
      && !Touches(s, steps[0], id) && (s.kernel.Present? ==> id !in s.kernel.table.quotas)
      && Paused(Next(s, steps[0]), steps[1..], id)
  }

  /** Pause and resume by tier: over any run of traffic, samples, persists, reconciles, failed applies,
      crashes, restarts and reboots, an account switched to the unlimited tier comes back to a quota
      tier with exactly the usage it left with. */
  lemma {:induction false} PauseKeepsUsage(s: State, steps: seq<Step>, id: int, u: nat)
    requires Good(s) && Held(s, id, u) && Legal(s, steps) && Paused(s, steps, id)
    ensures Held(After(s, steps), id, u) || Resumed(After(s, steps), id, u)
    decreases |steps|
  {
    hide Good, Held, Enabled, Next, Touches, Resumed;
    if steps != [] {
      var n := Next(s, steps[0]);
      StepKeeps(s, steps[0]);
      HeldStep(s, steps[0], id, u);
      if Held(n, id, u) {
        PauseKeepsUsage(n, steps[1..], id, u);
      } else {
        NotPaused(n, steps[1..], id, u);
      }
    }
  }

  lemma NotPaused(s: State, steps: seq<Step>, id: int, u: nat)
    requires Resumed(s, id, u) && Legal(s, steps) && Paused(s, steps, id)
    ensures steps == []
  {
  }

  /** The rebuild about to happen takes the account's quota away: it was sampled with one and has been
      reloaded without, and no persist batch with another figure is in flight or has just been written. */
  ghost predicate Switches(s: State, id: int)
    requires Enabled(s, ApplyOk)
  {
    var Loaded(op, seen, tree) := s.proc.lock;
    && id in seen.used && id in tree.accounts && !tree.accounts[id].tier.HasQuota() && !TargetsUsage(op, id)
    && id in s.db.tree.accounts && s.db.tree.accounts[id].used == tree.accounts[id].used
    && forall i | 0 <= i < |s.proc.batches| :: Agrees(s.proc.batches[i], id, seen.used[id])
  }

  /** The switch itself enters the pause with the usage its reconcile sampled, provided no persist
      batch is in flight across it with an older figure. */
  lemma SwitchHolds(s: State, id: int)
    requires Unstraddled(s) && Enabled(s, ApplyOk)
    requires Switches(s, id)
    ensures Held(Next(s, ApplyOk), id, s.proc.lock.seen.used[id])
  {
    hide Good, Metered, Rendered, Unstraddled, Reachable;
    var m := UnstraddledMetered(s);
    LoadedUsed(s, m, id);
    var n := Next(s, ApplyOk);
    RebuiltQuotas(n, s.proc.lock.tree, n.blocked);
  }

  lemma LoadedUsed(s: State, m: Meter, id: int)
    requires Metered(s, m) && s.proc.Running? && s.proc.lock.Loaded?
    requires id in s.proc.lock.seen.used && id in s.proc.lock.tree.accounts && !TargetsUsage(s.proc.lock.op, id)
    ensures s.proc.lock.tree.accounts[id].used == s.proc.lock.seen.used[id]
    ensures Agrees(s.proc.mem.live, id, s.proc.lock.seen.used[id])
  {
    hide Ledger, Conserved, Bounded, Pending, CarriesCounters;
  }

  /** End to end: from the rebuild that takes the account's quota away to the one that gives it back, over
      any run in between that does not touch it, the figure seeded is the figure sampled at the switch. */
  lemma PauseRestoresUsage(s: State, steps: seq<Step>, id: int)
    requires Unstraddled(s) && Enabled(s, ApplyOk) && Switches(s, id)
    requires Legal(Next(s, ApplyOk), steps) && Paused(Next(s, ApplyOk), steps, id)
    requires After(Next(s, ApplyOk), steps).kernel.Present? && id in After(Next(s, ApplyOk), steps).kernel.table.quotas
    ensures After(Next(s, ApplyOk), steps).kernel.table.quotas[id].charged == s.proc.lock.seen.used[id]
  {
    hide Good, Held, Paused, Unstraddled, Legal, After, Reachable, Metered;
    var m := UnstraddledMetered(s);
    StepKeeps(s, ApplyOk);
    SwitchHolds(s, id);
    PauseKeepsUsage(Next(s, ApplyOk), steps, id, s.proc.lock.seen.used[id]);
    NotHeld(After(Next(s, ApplyOk), steps), id, s.proc.lock.seen.used[id]);
  }

  lemma NotHeld(s: State, id: int, u: nat)
    requires s.kernel.Present? && id in s.kernel.table.quotas
    ensures !Held(s, id, u)
  {
  }

  // ---------------------------------------------------------------- expiry

  /** The account is shut off by the kernel's present rules, its quota object lists u, and a rebuild
      under way has sampled that. */
  ghost predicate Frozen(s: State, id: int, u: nat) {
    && s.kernel.Present? && id in s.blocked && id in s.kernel.table.quotas
    && s.kernel.table.quotas[id].Listed() == u
    && (s.proc.Starting? ==> s.proc.hot && id in s.proc.live.used && s.proc.live.used[id] == u)
    && (s.proc.Running? && !s.proc.lock.Free? && !s.proc.lock.Applied? ==>
          id in s.proc.lock.seen.used && s.proc.lock.seen.used[id] == u)
  }

  /** A packet leaves a blocked account's quota and its ports' counters exactly as they were. */
  lemma BlockedUntouched(s: State, p: Packet, id: int)
    requires KernelOk(s) && s.kernel.Present? && id in s.blocked
    ensures var t, u := s.kernel.table, Process(s.kernel.table, p).table;
            && (id in t.quotas ==> id in u.quotas && u.quotas[id] == t.quotas[id])
            && (forall k: Key | k in t.counters && k.port in s.given.ports && s.given.ports[k.port].account == id ::
                  k in u.counters && u.counters[k] == t.counters[k])
  {
    WalkIsPolicy(s.kernel.table, s.given, s.blocked, p);
    hide Process, ShapeOf, ShapeFor;
  }

  /** A rebuild after which the account keeps its quota and its limit, or a step that is no rebuild. */
  ghost predicate KeepsLimit(s: State, st: Step, id: int)
    requires Enabled(s, st)
  {
    (st.ApplyOk? || st.StartOk?) && s.kernel.Present? && id in s.kernel.table.quotas ==>
      id in Next(s, st).kernel.table.quotas && Next(s, st).kernel.table.quotas[id].limit == s.kernel.table.quotas[id].limit
  }

  lemma FrozenRebuild(s: State, m: Meter, st: Step, id: int, u: nat)
    requires Good(s) && Metered(s, m) && Frozen(s, id, u) && Enabled(s, st) && (st.ApplyOk? || st.StartOk?)
    requires KeepsLimit(s, st, id) && (st.ApplyOk? ==> !TargetsUsage(s.proc.lock.op, id))
    ensures Resumed(Next(s, st), id, u) && Next(s, st).kernel.table.quotas[id].Listed() == u
  {
    hide Good, Metered, Rendered, CounterOf;
    var n := Next(s, st);
    if st.ApplyOk? {
      LoadedSeeds(s, m);
      RebuiltQuotas(n, s.proc.lock.tree, n.blocked);
    } else {
      MeteredStart(s, m);
      RebuiltQuotas(n, s.proc.snap, n.blocked);
    }
  }

  lemma MeteredStart(s: State, m: Meter)
    requires Metered(s, m) && s.proc.Starting? && s.proc.hot
    ensures Seeds(s.proc.snap, s.proc.live, Resync)
  {
    hide Ledger, Conserved, Bounded, Pending, CarriesUsed, CounterOf;
  }

  lemma FrozenOther(s: State, st: Step, id: int, u: nat)
    requires Good(s) && Frozen(s, id, u) && Enabled(s, st)
    requires !st.ApplyOk? && !st.StartOk? && !st.Reboot? && !st.Traffic?
    ensures Frozen(Next(s, st), id, u)
  {
    hide DbOk, KernelOk, LockOk, SamplerOk, OpOk, Persist, Adopt, Mutate, Renewed;
  }

  /** One step of an expired account's life: its listed usage stays put, and a rebuild that readmits
      it seeds it with exactly that usage. */
  lemma FrozenStep(s: State, m: Meter, st: Step, id: int, u: nat)
    requires Good(s) && Metered(s, m) && Frozen(s, id, u) && Enabled(s, st) && !st.Reboot? && KeepsLimit(s, st, id)
    requires st.ApplyOk? ==> !TargetsUsage(s.proc.lock.op, id)
    ensures var n := Next(s, st);
            n.kernel.Present? && id in n.kernel.table.quotas && n.kernel.table.quotas[id].Listed() == u
            && (id in n.blocked ==> Frozen(n, id, u))
  {
    hide Good, Metered, KeepsLimit;
    if st.Traffic? {
      GoodParts(s);
      BlockedUntouched(s, st.p, id);
    } else if st.ApplyOk? || st.StartOk? {
      hide Rendered;
      FrozenRebuild(s, m, st, id, u);
    } else {
      FrozenOther(s, st, id, u);
    }
  }

  /** The account stays blocked in every state of the run, which neither sets its usage or limit nor
      loses the kernel. */
  ghost predicate StaysExpired(s: State, steps: seq<Step>, id: int)
    requires Legal(s, steps)
    decreases |steps|
  {
    steps != [] ==>
      && id in s.blocked && !steps[0].Reboot? && KeepsLimit(s, steps[0], id) && !Straddles(s, steps[0])
      && (steps[0].ApplyOk? ==> !TargetsUsage(s.proc.lock.op, id))
      && StaysExpired(Next(s, steps[0]), steps[1..], id)
  }

  lemma {:induction false} FrozenRun(s: State, m: Meter, steps: seq<Step>, id: int, u: nat)
    requires Good(s) && Metered(s, m) && (id in s.blocked ==> Frozen(s, id, u))
    requires s.kernel.Present? && id in s.kernel.table.quotas && s.kernel.table.quotas[id].Listed() == u
    requires Legal(s, steps) && StaysExpired(s, steps, id)
    ensures var n := After(s, steps);
            n.kernel.Present? && id in n.kernel.table.quotas && n.kernel.table.quotas[id].Listed() == u
    decreases |steps|
  {
    hide Good, Metered, Frozen, Enabled, Next, MeterNext, KeepsLimit, Straddles;
    if steps != [] {
      StepKeeps(s, steps[0]);
      MeterStep(s, m, steps[0]);
      FrozenStep(s, m, steps[0], id, u);
      FrozenRun(Next(s, steps[0]), MeterNext(s, m, steps[0]), steps[1..], id, u);
    }
  }

  /** Expire and renew: over any such run, however many rebuilds, crashes and restarts it holds, the
      quota lists the usage it had when the account expired, up to and including the state that
      readmits it. */
  lemma ExpiryKeepsUsage(s: State, steps: seq<Step>, id: int, u: nat)
    requires Unstraddled(s) && (id in s.blocked ==> Frozen(s, id, u))
    requires s.kernel.Present? && id in s.kernel.table.quotas && s.kernel.table.quotas[id].Listed() == u
    requires Legal(s, steps) && StaysExpired(s, steps, id)
    ensures var n := After(s, steps);
            n.kernel.Present? && id in n.kernel.table.quotas && n.kernel.table.quotas[id].Listed() == u
  {
    hide Good, Metered, Frozen, Unstraddled, Reachable;
    var m := UnstraddledMetered(s);
    FrozenRun(s, m, steps, id, u);
  }
}
