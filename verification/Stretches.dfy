/** Stretches of a run in which no persist write straddles a reconcile. What happened before the
    stretch, earlier straddling writes included, does not matter: a new meter can be opened in any
    reachable state that is not inside a reconcile. */
module Stretches {
  import opened Model
  import opened Ruleset
  import opened Tables
  import opened Engine
  import opened Structure
  import opened Invariant
  import opened Metering
  import opened MeteringProof

  // ---------------------------------------------------------------- the ledger needs no hypothesis

  lemma LedgerTraffic(s: State, p: Packet)
    requires Ledger(s)
    ensures Ledger(Next(s, Traffic(p)))
  {
    hide Ledger, Walk, ShapeOf;
    if s.kernel.Present? {
      WalkKeepsShape(s.kernel.table.Chain(p.hook), p, s.kernel.table);
      LedgerInStep(s, Next(s, Traffic(p)));
    }
  }

  lemma LedgerQuiet(s: State, st: Step)
    requires Good(s) && Ledger(s) && Enabled(s, st) && Quiet(st)
    ensures Ledger(Next(s, st))
  {
    hide Good, Enabled, Framed, RunningNext, Known;
    var n := Next(s, st);
    if st.Reboot? {
      assert n.kernel.Absent? && n.proc.Down?;
    } else if s.proc.Starting? && st.Tick? {
      LedgerTick(s, n);
    } else {
      QuietFramed(s, st);
      GoodParts(s);
      FramedLedger(s, n);
    }
  }

  lemma LedgerAdopted(s: State)
    requires Good(s) && Ledger(s) && Enabled(s, Adopted)
    ensures Ledger(Next(s, Adopted))
  {
    hide KernelOk, ProcOk, OpOk, Sound, Persist, Known;
    assert DbOk(s.db);
    if s.proc.hot {
      HotKnown(s);
      WriteLedger(s, Next(s, Adopted), s.proc.live);
    } else {
      PersistNothing(s.db.tree);
    }
  }

  lemma LedgerFold(s: State)
    requires Good(s) && Ledger(s) && Enabled(s, Fold)
    ensures Ledger(Next(s, Fold))
  {
    hide KernelOk, ProcOk, OpOk, Sound, Persist, Known;
    GoodParts(s);
    assert DbOk(s.db) && Known(s.proc.mem.live, s);
    WriteLedger(s, Next(s, Fold), s.proc.mem.live);
  }

  lemma LedgerStart(s: State)
    requires Good(s) && Ledger(s) && Enabled(s, Start)
    ensures Ledger(Next(s, Start))
  {
    hide KernelOk, ProcOk, OpOk, DbOk, Adopt, Known;
    GoodParts(s);
    if s.kernel.Present? {
      KernelKnown(s);
      KnownFrame(s, Next(s, Start), SampleOf(s.kernel.table));
    }
  }

  lemma LedgerChange(s: State, token: string)
    requires Good(s) && Ledger(s) && Enabled(s, Change(token))
    ensures Ledger(Next(s, Change(token)))
  {
    hide Good, KernelOk, ProcOk, Sound, Known, Mutate, RowsFollow, Ledger;
    var mem, op, n := s.proc.mem, s.proc.lock.op, Next(s, Change(token));
    GoodParts(s);
    if Mutate(op, token, s.now, s.db, mem.snap, mem.live).Some? {
      MutatedDb(s, token);
      MutateRows(op, token, s.now, s.db, mem.snap, mem.live);
      ChangeLedger(s, n, op, n.proc.lock);
    } else {
      UnlockLedger(s, n);
    }
  }

  lemma LedgerRebuild(s: State, st: Step)
    requires Good(s) && Ledger(s) && Enabled(s, st) && (st.ApplyOk? || st.StartOk?)
    ensures Ledger(Next(s, st))
  {
    hide DbOk, KernelOk, OpOk, Ledger, Rendered;
    GoodParts(s);
    if st.ApplyOk? {
      RebuildLedger(s, Next(s, st), s.proc.lock.tree);
    } else {
      StartLedger(s, Next(s, st));
    }
  }

  /** Rows the kernel does not know stay zero, and no figure in flight mentions them, whatever
      writes land when. */
  lemma LedgerStep(s: State, st: Step)
    requires Good(s) && Ledger(s) && Enabled(s, st)
    ensures Ledger(Next(s, st))
  {
    hide Good, Ledger, Next, Enabled;
    match st
    case Traffic(p) => LedgerTraffic(s, p);
    case PersistWrite(i) => WriteKnown(s, i);
    case Fold => LedgerFold(s);
    case Adopted => LedgerAdopted(s);
    case Begin(op) => RunningKernel(s, st); BeginLedger(s, op);
    case Start => LedgerStart(s);
    case Change(token) => LedgerChange(s, token);
    case Reload => RunningKernel(s, st); UnlockLedger(s, Next(s, st));
    case ApplyOk => LedgerRebuild(s, st);
    case StartOk => LedgerRebuild(s, st);
    case _ => LedgerQuiet(s, st);
  }

  lemma RunningKernel(s: State, st: Step)
    requires Good(s) && Enabled(s, st) && (st.Begin? || st.Reload?)
    ensures s.proc.Running? && s.kernel.Present? && KernelOk(s)
    ensures st.Reload? ==> Next(s, st).proc.Running? && Next(s, st).proc.mem == s.proc.mem
                           && Next(s, st) == s.(proc := s.proc.(lock := Next(s, st).proc.lock))
  {
    hide KernelOk, DbOk, LockOk, SamplerOk, Known;
  }

  lemma {:induction false} LedgerRun(s: State, steps: seq<Step>)
    requires Good(s) && Ledger(s) && Legal(s, steps)
    ensures Ledger(After(s, steps))
    decreases |steps|
  {
    hide Good, Ledger, Next, Enabled;
    if steps != [] {
      StepKeeps(s, steps[0]);
      LedgerStep(s, steps[0]);
      LedgerRun(Next(s, steps[0]), steps[1..]);
    }
  }

  lemma ReachableLedger(s: State)
    requires Reachable(s)
    ensures Ledger(s)
  {
    hide Good, Ledger, Init, Next, Enabled;
    var s0: State, steps: seq<Step> :| Init(s0) && Legal(s0, steps) && After(s0, steps) == s;
    InitGood(s0);
    InitLedger(s0);
    LedgerRun(s0, steps);
  }

  lemma InitLedger(s: State)
    requires Init(s)
    ensures Ledger(s)
  {
  }

  // ---------------------------------------------------------------- a new meter

  /** No process is starting and none is inside a reconcile. */
  ghost predicate Resting(s: State) { s.proc.Down? || (s.proc.Running? && s.proc.lock.Free?) }

  /** A meter that starts at s: what each counter shows has been accepted, and each quota starts from
      what it lists. At boot there is neither. */
  function Opened(k: Kernel): Meter {
    if k.Absent? then EMPTY_METER
    else Meter(map c | c in k.table.counters :: k.table.counters[c].bytes, map[], map[], map[], map[], map[], Listings(k.table.quotas))
  }

  lemma OpenedMetered(s: State)
    requires Good(s) && Ledger(s) && Resting(s)
    ensures Metered(s, Opened(s.kernel))
  {
    hide DbOk, KernelOk, ProcOk, OpOk, Ledger;
  }

  /** A run from a reachable resting state in which no persist write straddles a reconcile. */
  ghost predicate Stretch(s0: State, steps: seq<Step>) {
    Reachable(s0) && Resting(s0) && Legal(s0, steps) && NeverStraddles(s0, steps)
  }

  /** The reading of a meter opened at the start of a stretch. */
  ghost function Measured(s0: State, steps: seq<Step>): Meter
    requires Legal(s0, steps)
  {
    MeterAfter(s0, Opened(s0.kernel), steps)
  }

  /** No write has straddled the reconcile under way at s, if any. */
  ghost predicate Unstraddled(s: State) {
    exists s0: State, steps: seq<Step> :: Stretch(s0, steps) && After(s0, steps) == s
  }

  lemma StretchMetered(s0: State, steps: seq<Step>)
    requires Stretch(s0, steps)
    ensures Reachable(After(s0, steps)) && Good(After(s0, steps))
    ensures Metered(After(s0, steps), Measured(s0, steps))
  {
    hide Good, Metered, Reachable, Ledger, Next, Straddles, Enabled, MeterNext, Opened;
    ReachableGood(s0);
    ReachableLedger(s0);
    OpenedMetered(s0);
    ReachableOn(s0, steps);
    RunKeeps(s0, steps);
    MeterRun(s0, Opened(s0.kernel), steps);
  }

  lemma UnstraddledMetered(s: State) returns (m: Meter)
    requires Unstraddled(s)
    ensures Reachable(s) && Good(s) && Metered(s, m)
  {
    hide Good, Metered, Reachable, Next, Straddles, Enabled, MeterNext, Opened;
    var s0: State, steps: seq<Step> :| Stretch(s0, steps) && After(s0, steps) == s;
    StretchMetered(s0, steps);
    m := Measured(s0, steps);
  }
}
