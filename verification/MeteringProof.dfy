/** The meter's invariant is kept by every step but a straddling persist write. */
module MeteringProof {
  import opened Model
  import opened Ruleset
  import opened Tables
  import opened Engine
  import opened Mutations
  import opened Structure
  import opened Invariant
  import opened Metering

  lemma PendingInStep(s: State, n: State, m: Meter, w: Meter, seen: Sample)
    requires s.kernel.Present? && n.kernel.Present? && InStep(s.kernel.table, n.kernel.table, m, w)
    requires Pending(s, m, seen)
    ensures Pending(n, w, seen)
  {
  }

  lemma MeterTraffic(s: State, m: Meter, p: Packet)
    requires Good(s) && Metered(s, m)
    ensures Metered(Next(s, Traffic(p)), MeterNext(s, m, Traffic(p)))
  {
    if s.kernel.Present? {
      PacketEffect(s, m, p);
      var n, w := Next(s, Traffic(p)), MeterNext(s, m, Traffic(p));
      hide Good, Process, MeterPacket;
      TrafficInStep(s, n, m, w);
    }
  }

  lemma TrafficInStep(s: State, n: State, m: Meter, w: Meter)
    requires Metered(s, m) && s.kernel.Present? && n.kernel.Present?
    requires n == s.(kernel := n.kernel) && InStep(s.kernel.table, n.kernel.table, m, w)
    ensures Metered(n, w)
  {
    LedgerInStep(s, n);
    ConservedInStep(s, n, m, w);
    hide Ledger, Conserved, Bounded, InStep, CarriesCounters, CarriesUsed, Pending;
    if s.proc.Starting? && s.proc.hot {
      PendingInStep(s, n, m, w, s.proc.live);
    } else if s.proc.Running? && !s.proc.lock.Free? && !s.proc.lock.Applied? {
      PendingInStep(s, n, m, w, s.proc.lock.seen);
    }
  }

  lemma LedgerInStep(s: State, n: State)
    requires Ledger(s) && s.kernel.Present? && n.kernel.Present? && n == s.(kernel := n.kernel)
    requires forall k :: k in s.kernel.table.counters <==> k in n.kernel.table.counters
    ensures Ledger(n)
  {
  }

  lemma ConservedInStep(s: State, n: State, m: Meter, w: Meter)
    requires Conserved(s, m) && Bounded(s, m) && s.kernel.Present? && n.kernel.Present?
    requires n == s.(kernel := n.kernel) && InStep(s.kernel.table, n.kernel.table, m, w)
    ensures Conserved(n, w) && Bounded(n, w)
  {
  }

  /** Steps that move no value: the clock, the sampler, copies, tokens, crashes. */
  predicate Quiet(st: Step) {
    st.Tick? || st.SampleNote? || st.SampleRead? || st.SampleCommit? || st.SampleFail? || st.PersistCopy?
    || st.Abandon? || st.ApplyFail? || st.Publish? || st.RenewToken? || st.RenewMaster? || st.Crash? || st.Reboot? || st.StartFail?
  }

  lemma RenewedCarries(t: Tree, id: int, token: string)
    ensures Renewed(t, id, token).counters == t.counters && Renewed(t, id, token).ports == t.ports
    ensures Renewed(t, id, token).accounts.Keys == t.accounts.Keys
  {
    SetExt(Renewed(t, id, token).accounts.Keys, t.accounts.Keys);
  }

  /** n's rows and kernel are s's, and its samples come from s's or from the kernel. */
  ghost predicate Framed(s: State, n: State) {
    && n.kernel == s.kernel && n.db.nextPort == s.db.nextPort
    && n.db.tree.ports == s.db.tree.ports && n.db.tree.counters == s.db.tree.counters
    && (n.proc.Running? ==> s.proc.Running?)
    && (n.proc.Running? ==>
          && (n.proc.mem.live == s.proc.mem.live || (s.proc.sampler.Holding? && n.proc.mem.live == s.proc.sampler.reading))
          && (n.proc.sampler.Holding? ==>
                n.proc.sampler == s.proc.sampler || (s.kernel.Present? && n.proc.sampler.reading == SampleOf(s.kernel.table)))
          && (n.proc.batches == s.proc.batches || n.proc.batches == s.proc.batches + [s.proc.mem.live]))
    && !n.proc.Starting?
  }

  lemma FramedKnown(s: State, n: State, r: Sample)
    requires Framed(s, n) && Known(r, s)
    ensures Known(r, n)
  {
  }

  lemma KernelKnown(s: State)
    requires KernelOk(s) && s.kernel.Present?
    ensures Known(SampleOf(s.kernel.table), s)
  {
    assert ShapeOf(s.kernel.table).counters == KeysOf(s.given.ports);
  }

  lemma FramedLedger(s: State, n: State)
    requires KernelOk(s) && Ledger(s) && Framed(s, n)
    ensures Ledger(n)
  {
    if n.proc.Running? {
      var live, sampler, batches := s.proc.mem.live, s.proc.sampler, s.proc.batches;
      KernelKnown(s);
      FramedKnown(s, n, SampleOf(s.kernel.table));
      FramedKnown(s, n, live);
      if sampler.Holding? { FramedKnown(s, n, sampler.reading); }
      forall i | 0 <= i < |n.proc.batches| ensures Known(n.proc.batches[i], n) {
        if i < |batches| { FramedKnown(s, n, batches[i]); }
      }
    }
    hide Known;
  }

  lemma QuietFramed(s: State, st: Step)
    requires Enabled(s, st) && Quiet(st) && !st.Reboot? && !(s.proc.Starting? && st.Tick?)
    ensures Framed(s, Next(s, st))
  {
    hide Adopt;
    if st.RenewToken? { RenewedCarries(s.db.tree, st.account, st.token); }
    hide Renewed;
  }

  lemma FramedConserved(s: State, n: State, m: Meter)
    requires Conserved(s, m) && Bounded(s, m)
    requires n.kernel == s.kernel && n.db.nextPort == s.db.nextPort && n.db.tree.ports == s.db.tree.ports
    ensures Conserved(n, m) && Bounded(n, m)
  {
  }

  lemma QuietLock(s: State, m: Meter, st: Step)
    requires s.proc.Running? && LockMeter(s, m, s.proc.mem, s.proc.lock)
    requires Enabled(s, st) && Quiet(st) && Next(s, st).proc.Running?
    ensures LockMeter(Next(s, st), m, Next(s, st).proc.mem, Next(s, st).proc.lock)
  {
    hide Enabled, Next, LockMeter, Quiet;
    QuietHolds(s, st);
    var n := Next(s, st);
    if n.proc.lock.Free? || n.proc.lock.Applied? {
      UnlockedMeter(n, m);
    } else {
      LockFrame(s, n, m);
    }
  }

  lemma QuietHolds(s: State, st: Step)
    requires s.proc.Running? && Enabled(s, st) && Quiet(st) && Next(s, st).proc.Running?
    ensures var n := Next(s, st);
            n.proc.lock.Free? || n.proc.lock.Applied?
            || (n.kernel == s.kernel && n.db == s.db && n.proc.lock == s.proc.lock && n.proc.mem == s.proc.mem)
  {
    hide Renewed, Adopt, Fresh, Tree.Valid, SampleOf;
  }

  lemma UnlockedMeter(s: State, m: Meter)
    requires s.proc.Running? && (s.proc.lock.Free? || s.proc.lock.Applied?)
    ensures LockMeter(s, m, s.proc.mem, s.proc.lock)
  {
  }

  lemma LockFrame(s: State, n: State, m: Meter)
    requires s.proc.Running? && n.proc.Running? && LockMeter(s, m, s.proc.mem, s.proc.lock)
    requires n.kernel == s.kernel && n.db == s.db && n.proc.lock == s.proc.lock && n.proc.mem == s.proc.mem
    ensures LockMeter(n, m, n.proc.mem, n.proc.lock)
  {
    hide CarriesCounters, CarriesUsed, LiveFollows;
  }

  lemma MeterQuiet(s: State, m: Meter, st: Step)
    requires Good(s) && Metered(s, m) && Enabled(s, st) && Quiet(st)
    ensures Metered(Next(s, st), MeterNext(s, m, st))
  {
    hide Good, Enabled, Ledger, Conserved, Bounded, LockMeter, StartMeter, Framed, MeterRebuild, RunningNext;
    assert MeterNext(s, m, st) == m;
    var n := Next(s, st);
    if st.Reboot? {
      RebootMetered(n, m);
    } else if s.proc.Starting? && st.Tick? {
      TickMetered(s, n, m);
    } else {
      QuietFramed(s, st);
      GoodParts(s);
      FramedLedger(s, n);
      FramedParts(s, n);
      FramedConserved(s, n, m);
      if n.proc.Running? { QuietLock(s, m, st); }
    }
  }

  lemma GoodParts(s: State)
    requires Good(s)
    ensures DbOk(s.db) && KernelOk(s) && ProcOk(s) && OpOk(s) && (s.proc.Running? ==> s.kernel.Present?)
  {
  }

  lemma FramedParts(s: State, n: State)
    requires Framed(s, n)
    ensures n.kernel == s.kernel && n.db.nextPort == s.db.nextPort && n.db.tree.ports == s.db.tree.ports
    ensures !n.proc.Starting? && (n.proc.Running? ==> s.proc.Running?)
  {
  }

  lemma RebootMetered(n: State, m: Meter)
    requires n.kernel.Absent? && n.proc.Down?
    ensures Metered(n, m)
  {
  }

  lemma TickMetered(s: State, n: State, m: Meter)
    requires Metered(s, m) && s.proc.Starting? && n == s.(now := n.now)
    ensures Metered(n, m)
  {
    hide Ledger, Conserved, Bounded, StartMeter;
    LedgerTick(s, n);
    FramedConserved(s, n, m);
    if s.proc.hot { StartMeterFrame(s, n, m); }
  }

  lemma LedgerTick(s: State, n: State)
    requires Ledger(s) && n == s.(now := n.now)
    ensures Ledger(n)
  {
  }

  // ---------------------------------------------------------------- writes

  lemma PersistRows(t: Tree, r: Sample)
    ensures Persist(t, r).ports == t.ports
    ensures forall k :: k in Persist(t, r).counters <==> k in t.counters
    ensures forall k | k in t.counters :: Persist(t, r).counters[k] == if k in r.counters then r.counters[k] else t.counters[k]
    ensures forall id :: id in Persist(t, r).accounts <==> id in t.accounts
    ensures forall id | id in t.accounts :: Persist(t, r).accounts[id].used == if id in r.used then r.used[id] else t.accounts[id].used
  {
  }

  /** Writing a batch leaves rows of ports unknown to the kernel at zero. */
  lemma WriteLedger(s: State, n: State, r: Sample)
    requires Ledger(s) && s.kernel.Present? && Known(r, s) && Sound(s.db)
    requires n.kernel == s.kernel && n.db == WithTree(s.db, Persist(s.db.tree, r))
    requires (s.proc.Starting? && n.proc == s.proc.(stored := true))
          || (s.proc.Running? && n.proc.Running? && n.proc.mem == s.proc.mem && n.proc.sampler == s.proc.sampler
              && forall i | 0 <= i < |n.proc.batches| :: n.proc.batches[i] in s.proc.batches)
    ensures Ledger(n)
  {
    PersistRows(s.db.tree, r);
    hide Persist;
    forall k | k in n.db.tree.counters && k !in n.kernel.table.counters ensures n.db.tree.counters[k] == ZERO {
      assert k in KeysOf(s.db.tree.ports);
    }
    assert forall q: Sample | Known(q, s) :: Known(q, n);
    hide Known, Sound;
  }

  lemma WriteLock(s: State, m: Meter, i: nat)
    requires Good(s) && Metered(s, m) && Enabled(s, PersistWrite(i)) && !Straddles(s, PersistWrite(i))
    ensures LockMeter(Next(s, PersistWrite(i)), m, s.proc.mem, s.proc.lock)
  {
    hide Good, Persist, CarriesCounters, CarriesUsed, Conserved, Bounded, Ledger, KernelOk;
  }

  lemma {:induction false} WriteKnown(s: State, i: nat)
    requires Good(s) && Ledger(s) && Enabled(s, PersistWrite(i))
    ensures Ledger(Next(s, PersistWrite(i)))
  {
    hide Persist, Known, KernelOk, ProcOk, Sound;
    GoodParts(s);
    assert DbOk(s.db) ==> Sound(s.db);
    WriteLedger(s, Next(s, PersistWrite(i)), s.proc.batches[i]);
  }

  lemma MeterWrite(s: State, m: Meter, i: nat)
    requires Good(s) && Metered(s, m) && Enabled(s, PersistWrite(i)) && !Straddles(s, PersistWrite(i))
    ensures Metered(Next(s, PersistWrite(i)), m)
  {
    hide Good, Ledger, Conserved, Bounded, LockMeter, Straddles;
    WriteKnown(s, i);
    FramedConserved(s, Next(s, PersistWrite(i)), m);
    WriteLock(s, m, i);
  }

  lemma MeterAdopted(s: State, m: Meter)
    requires Good(s) && Metered(s, m) && Enabled(s, Adopted)
    ensures Metered(Next(s, Adopted), m)
  {
    hide KernelOk, ProcOk, OpOk, Sound, Conserved, Bounded, StartMeter, LockMeter, Persist, Known;
    var n := Next(s, Adopted);
    assert DbOk(s.db);
    PersistPorts(s.db.tree, s.proc.live);
    if s.proc.hot {
      HotKnown(s);
      WriteLedger(s, n, s.proc.live);
      StartMeterFrame(s, n, m);
    } else {
      PersistNothing(s.db.tree);
    }
    FramedConserved(s, n, m);
  }

  lemma HotKnown(s: State)
    requires Ledger(s) && s.proc.Starting? && s.proc.hot
    ensures Known(s.proc.live, s) && s.kernel.Present?
  {
  }

  lemma PersistPorts(t: Tree, r: Sample)
    ensures Persist(t, r).ports == t.ports
  {
  }

  lemma PersistNothing(t: Tree)
    ensures Persist(t, NO_SAMPLE).ports == t.ports && Persist(t, NO_SAMPLE).counters == t.counters
  {
    KeyMapExt(Persist(t, NO_SAMPLE).counters, t.counters);
  }

  lemma StartMeterFrame(s: State, n: State, m: Meter)
    requires s.proc.Starting? && StartMeter(s, m, s.proc.snap, s.proc.live) && n.kernel == s.kernel
    ensures StartMeter(n, m, s.proc.snap, s.proc.live)
  {
  }

  lemma MeterFold(s: State, m: Meter)
    requires Good(s) && Metered(s, m) && Enabled(s, Fold)
    ensures Metered(Next(s, Fold), m)
  {
    hide KernelOk, ProcOk, OpOk, Sound, Conserved, Bounded, StartMeter, Persist, Known, Pending, CarriesCounters,
         CarriesUsed;
    var n, seen := Next(s, Fold), s.proc.mem.live;
    GoodParts(s);
    assert DbOk(s.db) && Known(seen, s);
    PersistPorts(s.db.tree, seen);
    WriteLedger(s, n, seen);
    FramedConserved(s, n, m);
    FoldCarries(s, n, m, seen);
    PendingFrame(s, n, m, seen);
  }

  lemma PendingFrame(s: State, n: State, m: Meter, seen: Sample)
    requires Pending(s, m, seen) && n.kernel == s.kernel
    ensures Pending(n, m, seen)
  {
  }

  lemma FoldCarries(s: State, n: State, m: Meter, seen: Sample)
    requires Sound(s.db) && Ledger(s) && Pending(s, m, seen)
    requires n.db == WithTree(s.db, Persist(s.db.tree, seen))
    ensures CarriesCounters(n.db.tree, seen) && CarriesUsed(n.db.tree, seen, Resync)
  {
    PersistRows(s.db.tree, seen);
    hide Persist;
    var t := n.db.tree;
    if t.counters.Keys != KeysOf(t.ports) { var k := SetDiff(t.counters.Keys, KeysOf(t.ports)); }
  }

  // ---------------------------------------------------------------- sampling

  lemma SamplePending(s: State, m: Meter)
    requires s.kernel.Present? && Bounded(s, m) && m.window == map[] && m.spendWindow == map[]
    ensures Pending(s, m, SampleOf(s.kernel.table))
  {
    var seen := SampleOf(s.kernel.table);
    forall id | id in seen.used ensures Get(m.spent, id) + Get(m.base, id) <= seen.used[id] + Get(m.lostSpend, id) {
      assert id in s.kernel.table.quotas;
    }
  }

  lemma WindowCleared(s: State, n: State, m: Meter)
    requires Conserved(s, m) && Bounded(s, m)
    requires n.kernel == s.kernel && n.db == s.db
    ensures Conserved(n, m.(window := map[], spendWindow := map[]))
    ensures Bounded(n, m.(window := map[], spendWindow := map[]))
  {
  }

  lemma KnownFrame(s: State, n: State, r: Sample)
    requires Known(r, s) && n.kernel == s.kernel && n.db == s.db
    ensures Known(r, n)
  {
  }

  lemma BeginLedger(s: State, op: Op)
    requires KernelOk(s) && Ledger(s) && Enabled(s, Begin(op)) && s.kernel.Present?
    ensures Ledger(Next(s, Begin(op)))
  {
    hide KernelOk, Known;
    var n := Next(s, Begin(op));
    KernelKnown(s);
    KnownFrame(s, n, SampleOf(s.kernel.table));
    if s.proc.sampler.Holding? { KnownFrame(s, n, s.proc.sampler.reading); }
    forall i | 0 <= i < |s.proc.batches| ensures Known(s.proc.batches[i], n) {
      KnownFrame(s, n, s.proc.batches[i]);
    }
  }

  lemma MeterBegin(s: State, m: Meter, op: Op)
    requires Good(s) && Metered(s, m) && Enabled(s, Begin(op))
    ensures Metered(Next(s, Begin(op)), MeterNext(s, m, Begin(op)))
  {
    hide Good, Ledger, Conserved, Bounded, StartMeter, Pending;
    var n, w := Next(s, Begin(op)), MeterNext(s, m, Begin(op));
    GoodParts(s);
    WindowCleared(s, n, m);
    BeginLedger(s, op);
    SamplePending(n, w);
  }

  lemma AdoptRows(t: Tree, r: Sample)
    requires t.counters.Keys == KeysOf(t.ports)
    ensures Adopt(t, r).ports == t.ports
    ensures forall k: Key | k.port in t.ports :: CounterOf(Adopt(t, r), k) == if k in r.counters then r.counters[k] else t.counters[k]
    ensures CarriesUsed(Adopt(t, r), r, Resync)
  {
    forall k: Key | k.port in t.ports
      ensures CounterOf(Adopt(t, r), k) == if k in r.counters then r.counters[k] else t.counters[k]
    {
      assert k in KeysOf(t.ports);
    }
  }

  lemma StartSeeds(s: State, n: State, m: Meter)
    requires Sound(s.db) && KernelOk(s) && Ledger(s) && s.kernel.Present? && n.kernel == s.kernel
    requires Pending(n, m, SampleOf(s.kernel.table))
    ensures StartMeter(n, m, Adopt(s.db.tree, SampleOf(s.kernel.table)), SampleOf(s.kernel.table))
  {
    hide Adopt, CarriesUsed, Pending;
    var live := SampleOf(s.kernel.table);
    AdoptRows(s.db.tree, live);
    forall k: Key | k.port in s.db.tree.ports && k !in live.counters ensures s.db.tree.counters[k] == ZERO {
      assert k in KeysOf(s.db.tree.ports);
    }
  }

  lemma MeterStart(s: State, m: Meter)
    requires Good(s) && Metered(s, m) && Enabled(s, Start)
    ensures Metered(Next(s, Start), MeterNext(s, m, Start))
  {
    hide Good, KernelOk, ProcOk, Sound, Conserved, Bounded, StartMeter, Pending, Adopt, Known;
    var n, w := Next(s, Start), MeterNext(s, m, Start);
    GoodParts(s);
    WindowCleared(s, n, m);
    if s.kernel.Present? {
      SamplePending(n, w);
      KernelKnown(s);
      KnownFrame(s, n, SampleOf(s.kernel.table));
      StartSeeds(s, n, w);
    }
  }

  // ---------------------------------------------------------------- the mutation

  /** What a mutation does to the rows a rebuild will seed from. */
  ghost predicate RowsFollow(op: Op, db: Db, u: Db) {
    && u.nextPort >= db.nextPort
    && (forall p | p in u.tree.ports && p < db.nextPort :: p in db.tree.ports)
    && (forall k | k in u.tree.counters ::
          if k in db.tree.counters then u.tree.counters[k] == db.tree.counters[k]
          else k.port >= db.nextPort && u.tree.counters[k] == ZERO)
    && (forall id | id in u.tree.accounts && id < db.nextAccount ::
          && id in db.tree.accounts
          && u.tree.accounts[id].used
             == if TargetsUsage(op, id) then Requested(op) else db.tree.accounts[id].used)
  }

  lemma InsertRows(op: Op, token: string, now: Time, db: Db, snap: Tree, live: Sample)
    requires Sound(db) && Mutate(op, token, now, db, snap, live).Some? && (op.AddAccount? || op.AddPort?)
    ensures RowsFollow(op, db, Mutate(op, token, now, db, snap, live).value.0)
    ensures Mutate(op, token, now, db, snap, live).value.1.counters == live.counters
  {
    InsertsAreNew(op, token, now, db, snap, live);
    hide Mutate, Sound;
  }

  lemma DropRows(op: Op, token: string, now: Time, db: Db, snap: Tree, live: Sample)
    requires Sound(db) && Mutate(op, token, now, db, snap, live).Some? && (op.DropAccount? || op.DropPort?)
    ensures RowsFollow(op, db, Mutate(op, token, now, db, snap, live).value.0)
    ensures Mutate(op, token, now, db, snap, live).value.1.counters == live.counters
  {
  }

  lemma RowRows(op: Op, token: string, now: Time, db: Db, snap: Tree, live: Sample)
    requires Sound(db) && Mutate(op, token, now, db, snap, live).Some? && (op.SetTier? || op.SetExpiry?)
    ensures RowsFollow(op, db, Mutate(op, token, now, db, snap, live).value.0)
    ensures Mutate(op, token, now, db, snap, live).value.1.counters == live.counters
  {
    TierAndExpiryKeepUsage(op, token, now, db, snap, live);
    hide Mutate, Sound;
  }

  lemma UsageRows(op: Op, token: string, now: Time, db: Db, snap: Tree, live: Sample)
    requires Sound(db) && Mutate(op, token, now, db, snap, live).Some? && (op.SetUsage? || op.ResetAccount?)
    ensures RowsFollow(op, db, Mutate(op, token, now, db, snap, live).value.0)
    ensures Mutate(op, token, now, db, snap, live).value.1.counters == live.counters
  {
    UsageIsReplaced(op, token, now, db, snap, live);
    hide Mutate, Sound;
  }

  lemma PortRows(op: Op, token: string, now: Time, db: Db, snap: Tree, live: Sample)
    requires Sound(db) && Mutate(op, token, now, db, snap, live).Some? && (op.EditPort? || op.MovePort?)
    ensures RowsFollow(op, db, Mutate(op, token, now, db, snap, live).value.0)
    ensures Mutate(op, token, now, db, snap, live).value.1.counters == live.counters
  {
    PortChangesKeepMetering(op, token, now, db, snap, live);
    hide Mutate, Sound;
  }

  lemma ResyncRows(token: string, now: Time, db: Db, snap: Tree, live: Sample)
    requires Sound(db)
    ensures Mutate(Resync, token, now, db, snap, live) == Some((db, live)) && RowsFollow(Resync, db, db)
  {
  }

  lemma MutateRows(op: Op, token: string, now: Time, db: Db, snap: Tree, live: Sample)
    requires Sound(db) && Mutate(op, token, now, db, snap, live).Some?
    ensures RowsFollow(op, db, Mutate(op, token, now, db, snap, live).value.0)
    ensures Mutate(op, token, now, db, snap, live).value.1.counters == live.counters
  {
    hide Mutate, Sound, RowsFollow;
    match op
    case AddAccount(_, _, _, _) => InsertRows(op, token, now, db, snap, live);
    case DropAccount(_, _) => DropRows(op, token, now, db, snap, live);
    case DropPort(_) => DropRows(op, token, now, db, snap, live);
    case SetTier(_, _, _, _) => RowRows(op, token, now, db, snap, live);
    case SetExpiry(_, _) => RowRows(op, token, now, db, snap, live);
    case SetUsage(_, _) => UsageRows(op, token, now, db, snap, live);
    case ResetAccount(_) => UsageRows(op, token, now, db, snap, live);
    case AddPort(_, _, _) => InsertRows(op, token, now, db, snap, live);
    case Resync => ResyncRows(token, now, db, snap, live);
    case _ => PortRows(op, token, now, db, snap, live);
  }

  lemma ChangeCarries(s: State, u: Db, op: Op, seen: Sample)
    requires Sound(s.db) && Sound(u) && RowsFollow(op, s.db, u)
    requires KernelOk(s) && s.kernel.Present? && Known(seen, s)
    requires forall id :: id in seen.used <==> id in s.kernel.table.quotas
    requires CarriesCounters(s.db.tree, seen) && CarriesUsed(s.db.tree, seen, Resync)
    ensures CarriesCounters(u.tree, seen) && CarriesUsed(u.tree, seen, op)
  {
    forall id | id in seen.used ensures id < s.db.nextAccount {
      assert id in ShapeOf(s.kernel.table).limits && id in Limits(s.given.accounts);
    }
  }

  lemma ChangeLedger(s: State, n: State, op: Op, lock: Lock)
    requires Sound(s.db) && Ledger(s) && s.proc.Running? && s.kernel.Present? && RowsFollow(op, s.db, n.db)
    requires n.proc.Running? && n == s.(db := n.db, proc := s.proc.(mem := n.proc.mem, lock := lock))
    requires n.proc.mem.live.counters == s.proc.mem.live.counters
    ensures Ledger(n)
  {
    forall q: Sample | Known(q, s) ensures Known(q, n) {
    }
    hide Sound;
  }

  lemma ChangeConserved(s: State, n: State, m: Meter, op: Op)
    requires Conserved(s, m) && Bounded(s, m) && RowsFollow(op, s.db, n.db) && n.kernel == s.kernel
    ensures Conserved(n, m) && Bounded(n, m)
  {
  }

  lemma MutatedDb(s: State, token: string)
    requires Good(s) && Enabled(s, Change(token))
    requires Mutate(s.proc.lock.op, token, s.now, s.db, s.proc.mem.snap, s.proc.mem.live).Some?
    ensures Sound(s.db) && Sound(Mutate(s.proc.lock.op, token, s.now, s.db, s.proc.mem.snap, s.proc.mem.live).value.0)
  {
    hide Mutate, SameDesign, ArgsOk;
    var mem, op := s.proc.mem, s.proc.lock.op;
    FreshSameDesign(token, mem.snap, s.db.tree, s.db.master);
    MutateKeepsDb(op, token, s.now, s.db, mem.snap, mem.live);
  }

  lemma MeterChange(s: State, m: Meter, token: string)
    requires Good(s) && Metered(s, m) && Enabled(s, Change(token))
    ensures Metered(Next(s, Change(token)), m)
  {
    hide Good, KernelOk, ProcOk, Sound, Conserved, Bounded, StartMeter, Known, Pending, CarriesCounters, CarriesUsed,
         Mutate, RowsFollow, Ledger;
    var mem, op, n := s.proc.mem, s.proc.lock.op, Next(s, Change(token));
    GoodParts(s);
    var r := Mutate(op, token, s.now, s.db, mem.snap, mem.live);
    if r.Some? {
      MutatedDb(s, token);
      MutateRows(op, token, s.now, s.db, mem.snap, mem.live);
      ChangeLedger(s, n, op, n.proc.lock);
      ChangeConserved(s, n, m, op);
      LiveKnown(s);
      PendingKeys(s, m, s.proc.lock.seen);
      ChangeCarries(s, n.db, op, s.proc.lock.seen);
      PendingFrame(s, n, m, s.proc.lock.seen);
      MutateLive(op, token, s.now, s.db, mem.snap, mem.live);
    } else {
      FramedConserved(s, n, m);
      UnlockLedger(s, n);
    }
  }

  lemma MutateLive(op: Op, token: string, now: Time, db: Db, snap: Tree, live: Sample)
    requires Mutate(op, token, now, db, snap, live).Some?
    ensures LiveFollows(Mutate(op, token, now, db, snap, live).value.1, live, op)
  {
    hide InsertAccount, InsertPort, DeleteAccount, Tables.DeletePort, Tables.EditPort, Tables.MovePort, UpdateAccount;
  }

  lemma UnlockLedger(s: State, n: State)
    requires Ledger(s) && s.proc.Running? && n.proc.Running?
    requires n == s.(proc := s.proc.(mem := n.proc.mem, lock := n.proc.lock))
    requires n.proc.mem.live == s.proc.mem.live
    ensures Ledger(n)
  {
  }

  lemma LiveKnown(s: State)
    requires Ledger(s) && s.proc.Running?
    ensures Known(s.proc.mem.live, s)
  {
  }

  lemma PendingKeys(s: State, m: Meter, seen: Sample)
    requires Pending(s, m, seen)
    ensures s.kernel.Present? && forall id :: id in seen.used <==> id in s.kernel.table.quotas
    ensures forall k :: k in seen.counters <==> k in s.kernel.table.counters
  {
  }

  lemma MeterReload(s: State, m: Meter)
    requires Good(s) && Metered(s, m) && Enabled(s, Reload)
    ensures Metered(Next(s, Reload), m)
  {
    hide KernelOk, ProcOk, OpOk, Sound, Conserved, Bounded, StartMeter, Pending, CarriesCounters, CarriesUsed, Ledger;
    var n := Next(s, Reload);
    FramedConserved(s, n, m);
    UnlockLedger(s, n);
    if n.proc.lock.Loaded? { PendingFrame(s, n, m, s.proc.lock.seen); }
  }

  // ---------------------------------------------------------------- the rebuild

  /** What a rebuild seeds, whether from a reload or at start-up. */
  ghost predicate Seeds(tree: Tree, seen: Sample, op: Op) {
    && CarriesUsed(tree, seen, op)
    && (forall k: Key | k.port in tree.ports :: CounterOf(tree, k) == if k in seen.counters then seen.counters[k] else ZERO)
  }

  lemma CarriesSeeds(tree: Tree, seen: Sample, op: Op)
    requires CarriesCounters(tree, seen) && CarriesUsed(tree, seen, op)
    ensures Seeds(tree, seen, op)
  {
    forall k: Key | k.port in tree.ports ensures k in tree.counters {
      assert k in KeysOf(tree.ports);
    }
  }

  lemma SumGet<K>(a: map<K, nat>, b: map<K, nat>)
    ensures forall k :: Get(Sum(a, b), k) == Get(a, k) + Get(b, k)
  {
  }

  lemma KernelKeys(s: State)
    requires KernelOk(s) && s.kernel.Present?
    ensures forall k | k in s.kernel.table.counters :: k.port < s.db.nextPort
  {
    assert ShapeOf(s.kernel.table).counters == KeysOf(s.given.ports);
  }

  lemma RebuildConserves(s: State, n: State, m: Meter, tree: Tree, seen: Sample, op: Op, blocked: set<int>)
    requires KernelOk(s) && Conserved(s, m) && Pending(s, m, seen) && Seeds(tree, seen, op)
    requires tree.ports == s.db.tree.ports && n.db == s.db && n.kernel == Present(Rendered(tree, blocked))
    ensures Conserved(n, MeterRebuild(m, s.kernel.table.quotas, n.kernel.table.quotas, op))
  {
    hide Rendered, MeterRebuild, KernelOk, CounterOf, Sum, CarriesUsed;
    var w := MeterRebuild(m, s.kernel.table.quotas, n.kernel.table.quotas, op);
    KernelKeys(s);
    SumGet(m.lost, m.window);
    RebuiltCounters(n, tree, blocked);
    RebuildLost(m, s.kernel.table.quotas, n.kernel.table.quotas, op);
    forall k | k in n.kernel.table.counters
      ensures Get(w.accepted, k) == n.kernel.table.counters[k].bytes + Get(w.lost, k)
    {
      assert n.kernel.table.counters[k] == CounterOf(tree, k);
    }
  }

  lemma RebuiltCounters(n: State, tree: Tree, blocked: set<int>)
    requires n.kernel == Present(Rendered(tree, blocked))
    ensures forall k :: k in n.kernel.table.counters <==> k.port in tree.ports
    ensures forall k | k in n.kernel.table.counters :: n.kernel.table.counters[k] == CounterOf(tree, k)
  {
  }

  lemma RebuiltQuotas(n: State, tree: Tree, blocked: set<int>)
    requires n.kernel == Present(Rendered(tree, blocked))
    ensures forall id :: id in n.kernel.table.quotas <==> HasQuota(tree.accounts, id)
    ensures forall id | id in n.kernel.table.quotas ::
              n.kernel.table.quotas[id] == Quota(tree.accounts[id].LimitBytes(), tree.accounts[id].used)
  {
  }

  lemma RebuildLost(m: Meter, was: map<int, Quota>, quotas: map<int, Quota>, op: Op)
    ensures var w := MeterRebuild(m, was, quotas, op);
            w.accepted == m.accepted && w.lost == Sum(m.lost, m.window) && w.window == map[]
  {
  }

  lemma RebuildBounds(s: State, n: State, m: Meter, tree: Tree, seen: Sample, op: Op, blocked: set<int>)
    requires KernelOk(s) && Bounded(s, m) && Pending(s, m, seen) && Seeds(tree, seen, op) && s.kernel.Present?
    requires n.kernel == Present(Rendered(tree, blocked))
    ensures Bounded(n, MeterRebuild(m, s.kernel.table.quotas, n.kernel.table.quotas, op))
  {
    hide Rendered, KernelOk, CounterOf, Sum;
    RebuiltQuotas(n, tree, blocked);
    var was, quotas := s.kernel.table.quotas, n.kernel.table.quotas;
    var w := MeterRebuild(m, was, quotas, op);
    forall id | id in quotas
      ensures Get(w.base, id) <= quotas[id].limit
      ensures Get(w.spent, id) + Get(w.base, id) <= quotas[id].Listed() + Get(w.lostSpend, id)
    {
      if Continues(was, quotas, op, id) {
        assert id in seen.used && tree.accounts[id].used == seen.used[id];
      }
    }
  }

  lemma MeterApply(s: State, m: Meter)
    requires Good(s) && Metered(s, m) && Enabled(s, ApplyOk)
    ensures Metered(Next(s, ApplyOk), MeterNext(s, m, ApplyOk))
  {
    hide DbOk, KernelOk, OpOk, Conserved, Bounded, StartMeter, Pending, CarriesCounters, CarriesUsed, Ledger, Rendered,
         MeterRebuild, Seeds;
    var n := Next(s, ApplyOk);
    var Loaded(op, seen, tree) := s.proc.lock;
    GoodParts(s);
    CarriesSeeds(tree, seen, op);
    RebuildConserves(s, n, m, tree, seen, op, n.blocked);
    RebuildBounds(s, n, m, tree, seen, op, n.blocked);
    RebuildLedger(s, n, tree);
  }

  lemma RebuildLedger(s: State, n: State, tree: Tree)
    requires DbOk(s.db) && Ledger(s) && SameDesign(tree, s.db.tree) && n.db == s.db
    requires n.kernel == Present(Rendered(tree, n.blocked))
    requires s.proc.Running? && n.proc.Running? && n.proc.mem == s.proc.mem && n.proc.sampler == s.proc.sampler
    requires n.proc.batches == s.proc.batches
    ensures Ledger(n)
  {
    RebuiltCounters(n, tree, n.blocked);
    assert forall k | k in s.db.tree.counters :: k in KeysOf(s.db.tree.ports);
    assert forall q: Sample | Known(q, s) :: Known(q, n);
    hide Rendered, Known;
  }

  lemma MeterStartOk(s: State, m: Meter)
    requires Good(s) && Metered(s, m) && Enabled(s, StartOk)
    ensures Metered(Next(s, StartOk), MeterNext(s, m, StartOk))
  {
    hide DbOk, KernelOk, OpOk, Conserved, Bounded, Pending, CarriesUsed, Ledger, Rendered, MeterRebuild, Seeds,
         LockMeter;
    var n := Next(s, StartOk);
    var snap, live := s.proc.snap, s.proc.live;
    GoodParts(s);
    StartLedger(s, n);
    if s.proc.hot {
      StartSeedsCarry(s, m);
      RebuildConserves(s, n, m, snap, live, Resync, n.blocked);
      RebuildBounds(s, n, m, snap, live, Resync, n.blocked);
    } else {
      ColdMeter(n, snap);
    }
    FreeLock(n, MeterNext(s, m, StartOk));
  }

  lemma FreeLock(n: State, w: Meter)
    requires n.proc.Running? && n.proc.lock.Free?
    ensures LockMeter(n, w, n.proc.mem, n.proc.lock)
  {
  }

  lemma StartSeedsCarry(s: State, m: Meter)
    requires s.proc.Starting? && StartMeter(s, m, s.proc.snap, s.proc.live)
    ensures Pending(s, m, s.proc.live) && Seeds(s.proc.snap, s.proc.live, Resync) && s.kernel.Present?
  {
  }

  lemma ColdMeter(n: State, snap: Tree)
    requires n.kernel == Present(Rendered(snap, n.blocked)) && SameDesign(snap, n.db.tree)
    ensures var t := n.kernel.table;
            var w := Meter(map k | k in t.counters :: t.counters[k].bytes, map[], map[], map[], map[], map[], Listings(t.quotas));
            Conserved(n, w) && Bounded(n, w)
  {
  }

  lemma StartLedger(s: State, n: State)
    requires DbOk(s.db) && Ledger(s) && s.proc.Starting? && SameDesign(s.proc.snap, s.db.tree) && n.db == s.db
    requires n.kernel == Present(Rendered(s.proc.snap, n.blocked))
    requires n.proc.Running? && n.proc.mem.live == s.proc.live && n.proc.sampler == Idle && n.proc.batches == []
    ensures Ledger(n)
  {
    RebuiltCounters(n, s.proc.snap, n.blocked);
    assert forall k | k in s.db.tree.counters :: k in KeysOf(s.db.tree.ports);
    assert Known(s.proc.live, n);
    hide Rendered;
  }

  // ---------------------------------------------------------------- every run

  lemma MeterStep(s: State, m: Meter, st: Step)
    requires Good(s) && Metered(s, m) && Enabled(s, st) && !Straddles(s, st)
    ensures Metered(Next(s, st), MeterNext(s, m, st))
  {
    hide Good, Metered, Next, Straddles, Enabled, MeterRebuild, MeterPacket;
    match st
    case Traffic(p) => MeterTraffic(s, m, p);
    case PersistWrite(i) => MeterWrite(s, m, i);
    case Fold => MeterFold(s, m);
    case Adopted => MeterAdopted(s, m);
    case Begin(op) => MeterBegin(s, m, op);
    case Start => MeterStart(s, m);
    case Change(token) => MeterChange(s, m, token);
    case Reload => MeterReload(s, m);
    case ApplyOk => MeterApply(s, m);
    case StartOk => MeterStartOk(s, m);
    case _ => MeterQuiet(s, m, st);
  }

  ghost predicate NeverStraddles(s: State, steps: seq<Step>)
    requires Legal(s, steps)
    decreases |steps|
  {
    steps != [] ==> !Straddles(s, steps[0]) && NeverStraddles(Next(s, steps[0]), steps[1..])
  }

  ghost function MeterAfter(s: State, m: Meter, steps: seq<Step>): Meter
    requires Legal(s, steps)
    decreases |steps|
  {
    if steps == [] then m else MeterAfter(Next(s, steps[0]), MeterNext(s, m, steps[0]), steps[1..])
  }

  lemma {:induction false} MeterRun(s: State, m: Meter, steps: seq<Step>)
    requires Good(s) && Metered(s, m) && Legal(s, steps) && NeverStraddles(s, steps)
    ensures Metered(After(s, steps), MeterAfter(s, m, steps))
    decreases |steps|
  {
    hide Good, Metered, Next, Straddles, Enabled, MeterNext;
    if steps != [] {
      StepKeeps(s, steps[0]);
      MeterStep(s, m, steps[0]);
      MeterRun(Next(s, steps[0]), MeterNext(s, m, steps[0]), steps[1..]);
    }
  }

  const EMPTY_METER := Meter(map[], map[], map[], map[], map[], map[], map[])
}
