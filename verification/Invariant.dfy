/** The structural invariant is kept by every step, hence holds on every run. */
module Invariant {
  import opened Model
  import opened Ruleset
  import opened Tables
  import opened Engine
  import opened Structure

  lemma KeepTraffic(s: State, p: Packet)
    requires Inv(s)
    ensures Inv(Next(s, Traffic(p)))
  {
    hide DbOk, SameDesign, Walk, ShapeOf, ShapeFor;
    if s.kernel.Present? {
      var t := s.kernel.table;
      WalkKeepsShape(t.Chain(p.hook), p, t);
      var u := Process(t, p).table;
      if s.proc.Running? && s.proc.sampler.Holding? && Below(s.proc.sampler.reading, t) {
        BelowGrows(s.proc.sampler.reading, t, u);
      }
    }
  }

  lemma RenderedOk(s: State, tree: Tree, blocked: set<int>)
    requires DbOk(s.db) && SameDesign(tree, s.db.tree)
    requires s.kernel == Present(Rendered(tree, blocked)) && s.given == tree && s.blocked == blocked
    ensures KernelOk(s)
  {
    RenderedShape(tree, blocked);
    SameDesignKeeps(tree, s.db.tree);
  }

  lemma SampledBelow(t: Table)
    ensures Below(SampleOf(t), t)
  {
  }

  lemma KeepSampler(s: State, st: Step)
    requires Inv(s) && Enabled(s, st)
    requires st.SampleNote? || st.SampleRead? || st.SampleCommit? || st.SampleFail?
    ensures Inv(Next(s, st))
  {
    hide DbOk, SameDesign, ShapeOf, ShapeFor;
    if st.SampleRead? { SampledBelow(s.kernel.table); }
  }

  /** Any write of the live values, early or late, only changes recorded usage. */
  lemma KeepWrite(s: State, st: Step)
    requires Inv(s) && Enabled(s, st)
    requires st.PersistWrite? || st.Fold? || st.Adopted?
    ensures Inv(Next(s, st))
  {
    var live := if st.Adopted? then s.proc.live else if st.Fold? then s.proc.mem.live else s.proc.batches[st.i];
    PersistOk(s.db, live);
    var t := Persist(s.db.tree, live);
    var n := Next(s, st);
    hide DbOk, Persist;
    assert n.db == WithTree(s.db, t) && n.kernel == s.kernel;
    FollowWrite(s, n, t);
  }

  lemma FollowWrite(s: State, n: State, t: Tree)
    requires Inv(s) && n.db == WithTree(s.db, t) && DbOk(n.db) && SameDesign(t, s.db.tree)
    requires n.kernel == s.kernel && n.given == s.given && n.blocked == s.blocked
    requires (s.proc.Starting? && n.proc == s.proc.(stored := true))
          || (s.proc.Running? && n.proc.Running? && n.proc.mem == s.proc.mem && n.proc.sampler == s.proc.sampler
              && (n.proc.lock == s.proc.lock || (s.proc.lock.Sampled? && n.proc.lock.Folded?)))
    ensures Inv(n)
  {
    hide DbOk, ShapeOf, ShapeFor, Below;
    ShapeWritten(s, t);
    DesignSymmetric(t, s.db.tree);
    if s.proc.Starting? {
      DesignTransitive(s.proc.snap, s.db.tree, t);
    } else {
      var mem := s.proc.mem;
      if SameDesign(mem.snap, s.db.tree) { DesignTransitive(mem.snap, s.db.tree, t); }
      if s.proc.lock.Loaded? || s.proc.lock.Applied? { DesignTransitive(s.proc.lock.tree, s.db.tree, t); }
    }
  }

  lemma ShapeWritten(s: State, t: Tree)
    requires SameDesign(t, s.db.tree)
    ensures forall b :: ShapeFor(t, b) == ShapeFor(s.db.tree, b)
  {
    forall b ensures ShapeFor(t, b) == ShapeFor(s.db.tree, b) {
      ShapeSameDesign(t, s.db.tree, b);
    }
  }

  lemma DesignSymmetric(a: Tree, b: Tree)
    requires SameDesign(a, b)
    ensures SameDesign(b, a)
  {
    forall id | id in b.accounts ensures b.accounts[id].Design() == a.accounts[id].Design() {
      assert a.accounts[id].Design() == b.accounts[id].Design();
    }
  }

  lemma KeepCopy(s: State)
    requires Inv(s) && Enabled(s, PersistCopy)
    ensures Inv(Next(s, PersistCopy))
  {
    hide DbOk, ShapeOf, ShapeFor, Adopt, SameDesign, Below;
    var mem := s.proc.mem;
    AdoptKeeps(mem.snap, mem.live);
    DesignTransitive(Adopt(mem.snap, mem.live), mem.snap, s.db.tree);
  }

  lemma KeepChange(s: State, token: string)
    requires Inv(s) && Enabled(s, Change(token)) && ArgsOk(s.proc.lock.op)
    ensures Inv(Next(s, Change(token)))
  {
    hide Mutate, DbOk, ShapeOf, ShapeFor, Below, SameDesign, ArgsOk;
    var mem, op := s.proc.mem, s.proc.lock.op;
    FreshSameDesign(token, mem.snap, s.db.tree, s.db.master);
    if Mutate(op, token, s.now, s.db, mem.snap, mem.live).Some? {
      MutateKeepsDb(op, token, s.now, s.db, mem.snap, mem.live);
    }
  }

  lemma KeepReload(s: State)
    requires Inv(s) && Enabled(s, Reload)
    ensures Inv(Next(s, Reload)) && Next(s, Reload).proc.lock.Loaded?
  {
  }

  lemma KeepAbandon(s: State)
    requires Inv(s) && Enabled(s, Abandon)
    ensures Inv(Next(s, Abandon))
  {
    hide DbOk, SameDesign, Below, ShapeOf, ShapeFor;
  }

  lemma KeepApply(s: State, st: Step)
    requires Inv(s) && Enabled(s, st) && (st.ApplyOk? || st.ApplyFail? || st.Publish?)
    ensures Inv(Next(s, st))
  {
    hide Rendered, Below, DbOk, ShapeOf, ShapeFor;
    var n := Next(s, st);
    if st.ApplyOk? {
      RenderedOk(n, s.proc.lock.tree, n.blocked);
    } else if st.Publish? {
      ShapeSameDesign(s.proc.lock.tree, s.db.tree, s.proc.lock.blocked);
    }
  }

  lemma KeepRenew(s: State, st: Step)
    requires Inv(s) && Enabled(s, st) && (st.RenewToken? || st.RenewMaster?)
    ensures Inv(Next(s, st))
  {
    hide Renewed, Below, ShapeOf, ShapeFor, SameDesign, DbOk;
    var mem := s.proc.mem;
    FreshSameDesign(st.token, mem.snap, s.db.tree, s.db.master);
    if st.RenewToken? {
      RenewedOk(s.db, mem.snap, st.account, st.token);
      RenewedShape(s.db.tree, st.account, st.token);
    } else {
      RenewMasterOk(s.db, st.token);
    }
  }

  lemma RenewedShape(t: Tree, id: int, token: string)
    ensures forall b :: ShapeFor(Renewed(t, id, token), b) == ShapeFor(t, b)
    ensures Renewed(t, id, token).accounts.Keys == t.accounts.Keys
  {
    var u := Renewed(t, id, token);
    forall b ensures ShapeFor(u, b) == ShapeFor(t, b) {
      assert forall a :: HasQuota(u.accounts, a) == HasQuota(t.accounts, a);
      RulesSameDesign(In, Ordered(t.ports), u.accounts, t.accounts, b);
      RulesSameDesign(Out, Ordered(t.ports), u.accounts, t.accounts, b);
      MapExt(Limits(u.accounts), Limits(t.accounts));
    }
    SetExt(u.accounts.Keys, t.accounts.Keys);
  }

  lemma RenewMasterOk(db: Db, token: string)
    requires DbOk(db) && Fresh(token, db.tree.accounts, db.master)
    ensures DbOk(db.(master := token))
  {
  }

  lemma KeepStart(s: State, st: Step)
    requires Inv(s) && Enabled(s, st) && (st.Start? || st.StartOk? || st.StartFail? || st.Crash? || st.Reboot? || st.Tick?)
    ensures Inv(Next(s, st))
  {
    hide Rendered, Below, DbOk, ShapeOf, ShapeFor, Adopt;
    var n := Next(s, st);
    if st.Start? {
      AdoptKeeps(s.db.tree, Reading(s.kernel, NO_SAMPLE));
    } else if st.StartOk? {
      RenderedOk(n, s.proc.snap, n.blocked);
      ShapeSameDesign(s.proc.snap, s.db.tree, n.blocked);
    }
  }

  /** Whatever the lock-holder's operation, its arguments were checked when it began. */
  ghost predicate OpOk(s: State) {
    s.proc.Running? ==> (match s.proc.lock case Free => true case Loaded(op, _, _) => ArgsOk(op)
                         case Applied(op, _, _, _) => ArgsOk(op) case Sampled(op, _) => ArgsOk(op)
                         case Folded(op, _) => ArgsOk(op) case Mutated(op, _) => ArgsOk(op))
  }

  ghost predicate Good(s: State) { Inv(s) && OpOk(s) }

  lemma KeepOp(s: State, st: Step)
    requires OpOk(s) && Enabled(s, st)
    ensures OpOk(Next(s, st))
  {
    hide ArgsOk, Mutate, Persist, Adopt, Rendered, Process, SampleOf;
  }

  lemma KeepBegin(s: State, op: Op)
    requires Inv(s) && Enabled(s, Begin(op))
    ensures Inv(Next(s, Begin(op)))
  {
    hide DbOk, SameDesign, Below, ShapeOf, ShapeFor, ArgsOk;
  }

  lemma StepKeeps(s: State, st: Step)
    requires Good(s) && Enabled(s, st)
    ensures Good(Next(s, st))
  {
    hide Inv, OpOk, Next;
    KeepOp(s, st);
    match st
    case Traffic(p) => KeepTraffic(s, p);
    case SampleNote => KeepSampler(s, st);
    case SampleRead => KeepSampler(s, st);
    case SampleCommit => KeepSampler(s, st);
    case SampleFail => KeepSampler(s, st);
    case PersistCopy => KeepCopy(s);
    case PersistWrite(_) => KeepWrite(s, st);
    case Fold => KeepWrite(s, st);
    case Adopted => KeepWrite(s, st);
    case Begin(op) => KeepBegin(s, op);
    case Change(token) => FoldedArgs(s); KeepChange(s, token);
    case Reload => KeepReload(s);
    case Abandon => KeepAbandon(s);
    case ApplyOk => KeepApply(s, st);
    case ApplyFail => KeepApply(s, st);
    case Publish => KeepApply(s, st);
    case RenewToken(_, _) => KeepRenew(s, st);
    case RenewMaster(_) => KeepRenew(s, st);
    case _ => KeepStart(s, st);
  }

  lemma FoldedArgs(s: State)
    requires OpOk(s) && s.proc.Running? && s.proc.lock.Folded?
    ensures ArgsOk(s.proc.lock.op)
  {
  }

  lemma InitGood(s: State)
    requires Init(s)
    ensures Good(s)
  {
  }

  /** On every run: the schema, Validate and the tokens hold; memory follows the database
      whenever the lock is free; and memory's claim to be in sync is true. */
  lemma {:induction false} RunKeeps(s: State, steps: seq<Step>)
    requires Good(s) && Legal(s, steps)
    ensures Good(After(s, steps))
    decreases |steps|
  {
    hide Good, Enabled, Next;
    if steps != [] {
      StepKeeps(s, steps[0]);
      RunKeeps(Next(s, steps[0]), steps[1..]);
    }
  }

  // ---------------------------------------------------------------- runs

  /** s is reached by some run from boot. */
  ghost predicate Reachable(s: State) {
    exists s0: State, steps: seq<Step> :: Init(s0) && Legal(s0, steps) && After(s0, steps) == s
  }

  lemma ReachableGood(s: State)
    requires Reachable(s)
    ensures Good(s)
  {
    hide Good, Init, Next, Enabled;
    var s0: State, steps: seq<Step> :| Init(s0) && Legal(s0, steps) && After(s0, steps) == s;
    InitGood(s0);
    RunKeeps(s0, steps);
  }

  /** What runs on from a reachable state is reachable. */
  lemma ReachableOn(s: State, steps: seq<Step>)
    requires Reachable(s) && Legal(s, steps)
    ensures Reachable(After(s, steps))
  {
    hide Init, Next, Enabled;
    var s0: State, before: seq<Step> :| Init(s0) && Legal(s0, before) && After(s0, before) == s;
    Joined(s0, before, steps);
  }

  lemma ReachableNext(s: State, st: Step)
    requires Reachable(s) && Enabled(s, st)
    ensures Reachable(Next(s, st))
  {
    hide Init, Next, Enabled, Reachable;
    One(s, st);
    ReachableOn(s, [st]);
  }

  lemma One(s: State, st: Step)
    requires Enabled(s, st)
    ensures Legal(s, [st]) && After(s, [st]) == Next(s, st)
  {
    hide Enabled, Next;
    assert [st][1..] == [];
    assert Legal(Next(s, st), []);
  }

  /** A run grows at its front. */
  lemma First(s: State, st: Step, rest: seq<Step>)
    requires Enabled(s, st) && Legal(Next(s, st), rest)
    ensures Legal(s, [st] + rest) && After(s, [st] + rest) == After(Next(s, st), rest)
  {
    hide Enabled, Next;
    assert ([st] + rest)[1..] == rest;
  }

  /** Runs follow one another. */
  lemma {:induction false} Joined(s: State, a: seq<Step>, b: seq<Step>)
    requires Legal(s, a) && Legal(After(s, a), b)
    ensures Legal(s, a + b) && After(s, a + b) == After(After(s, a), b)
    decreases |a|
  {
    hide Enabled, Next;
    if a == [] {
      assert a + b == b;
    } else {
      assert (a + b)[1..] == a[1..] + b;
      Joined(Next(s, a[0]), a[1..], b);
      First(s, a[0], a[1..] + b);
      assert [a[0]] + (a[1..] + b) == a + b;
    }
  }

  /** Only packets, rebuilds and a reboot touch the kernel. */
  lemma KernelStays(s: State, st: Step)
    requires Enabled(s, st) && !st.Traffic? && !st.ApplyOk? && !st.StartOk? && !st.Reboot?
    ensures Next(s, st).kernel == s.kernel && Next(s, st).given == s.given && Next(s, st).blocked == s.blocked
  {
    hide Mutate, Persist, Ruleset.Adopt, Renewed, Rendered, ArgsOk, Fresh, SampleOf, Tree.Valid, Tree.ExpiredSet;
  }

  /** The wall clock never goes back over the run. */
  ghost predicate ClockAscends(s: State, steps: seq<Step>)
    requires Legal(s, steps)
    decreases |steps|
  {
    steps != [] ==> (steps[0].Tick? ==> s.now <= steps[0].t) && ClockAscends(Next(s, steps[0]), steps[1..])
  }
}
