/** A reset or set-usage whose apply fails: the retry samples the kernel's old figure and folds it over
    the saved one. When the change survives all the same, exactly. */
module Retrying {
  import opened Model
  import opened Ruleset
  import opened Tables
  import opened Engine
  import opened Structure
  import opened Invariant
  import opened Mutations
  import opened Metering
  import opened MeteringProof
  import opened Stretches
  import opened Guarantees
  import opened Straddling

  /** No rebuild gets through: failed applies, abandoned mutations and other mutations may happen. */
  predicate Unrebuilt(steps: seq<Step>) {
    forall i | 0 <= i < |steps| :: !steps[i].ApplyOk? && !steps[i].StartOk? && !steps[i].Reboot?
  }

  /** The packet is on a port that the kernel's present rules charge to the account. */
  ghost predicate Charges(given: Tree, blocked: set<int>, p: Packet, id: int) {
    Managed(given.ports, p) && given.ports[Entry(given.ports, p)].account == id && id !in blocked
  }

  /** The bytes the account is charged over the steps, let through or not. */
  ghost function ChargedBytes(given: Tree, blocked: set<int>, steps: seq<Step>, id: int): nat
    decreases |steps|
  {
    if steps == [] then 0
    else (if steps[0].Traffic? && Charges(given, blocked, steps[0].p, id) then steps[0].p.bytes else 0)
         + ChargedBytes(given, blocked, steps[1..], id)
  }

  lemma PacketCharges(s: State, p: Packet, id: int)
    requires KernelOk(s) && s.kernel.Present? && id in s.kernel.table.quotas
    ensures var u := Process(s.kernel.table, p).table;
            id in u.quotas && u.quotas[id].limit == s.kernel.table.quotas[id].limit
            && u.quotas[id].charged == s.kernel.table.quotas[id].charged + if Charges(s.given, s.blocked, p, id) then p.bytes else 0
  {
    WalkIsPolicy(s.kernel.table, s.given, s.blocked, p);
    assert id in ShapeOf(s.kernel.table).limits && id in Limits(s.given.accounts);
    hide Process, ShapeOf, ShapeFor;
  }

  lemma UnrebuiltStep(s: State, st: Step, id: int)
    requires Good(s) && Enabled(s, st) && !st.ApplyOk? && !st.StartOk? && !st.Reboot?
    requires s.kernel.Present? && id in s.kernel.table.quotas
    ensures var n, q := Next(s, st), s.kernel.table.quotas[id];
            && n.given == s.given && n.blocked == s.blocked && n.kernel.Present? && id in n.kernel.table.quotas
            && n.kernel.table.quotas[id] == q.(charged := q.charged + ChargedBytes(s.given, s.blocked, [st], id))
  {
    hide Good, Enabled, Charges, RunningNext, Process;
    GoodParts(s);
    if st.Traffic? {
      PacketCharges(s, st.p, id);
    } else {
      KernelStays(s, st);
    }
    assert ChargedBytes(s.given, s.blocked, [st][1..], id) == 0;
  }

  /** Until a rebuild gets through, the account's quota grows by what it is charged and nothing else. */
  lemma {:induction false} UnrebuiltRun(s: State, steps: seq<Step>, id: int)
    requires Good(s) && Legal(s, steps) && Unrebuilt(steps) && s.kernel.Present? && id in s.kernel.table.quotas
    ensures var n, q := After(s, steps), s.kernel.table.quotas[id];
            && n.given == s.given && n.blocked == s.blocked && n.kernel.Present? && id in n.kernel.table.quotas
            && n.kernel.table.quotas[id] == q.(charged := q.charged + ChargedBytes(s.given, s.blocked, steps, id))
    decreases |steps|
  {
    hide Good, Enabled, Next, Charges;
    if steps != [] {
      StepKeeps(s, steps[0]);
      UnrebuiltStep(s, steps[0], id);
      assert [steps[0]][1..] == [];
      UnrebuiltRun(Next(s, steps[0]), steps[1..], id);
    }
  }

  /** What a reconcile leaves behind. */
  ghost function Rebuilt(b: State, op: Op, work: seq<Step>): State
    requires Completes(b, op, work)
  {
    Next(Reached(b, op, work), ApplyOk)
  }

  /** What a retry seeds is what the kernel listed when it began; and that is what the reloaded row
      holds, and the row still, if no batch was in flight. */
  lemma RetrySeeds(b: State, op: Op, work: seq<Step>, id: int)
    requires Reachable(b) && Completes(b, op, work) && NeverStraddles(Next(b, Begin(op)), work) && !TargetsUsage(op, id)
    requires b.kernel.Present? && id in b.kernel.table.quotas
    requires HasQuota(Reached(b, op, work).proc.lock.tree.accounts, id)
    ensures var n := Rebuilt(b, op, work);
            && n.kernel.Present? && id in n.kernel.table.quotas && n.kernel.table.quotas[id].charged == b.kernel.table.quotas[id].Listed()
            && n.proc.Running? && n.proc.lock.Applied? && id in n.proc.lock.tree.accounts
            && n.proc.lock.tree.accounts[id].used == b.kernel.table.quotas[id].Listed()
            && (b.proc.batches == [] ==> n.db.tree == n.proc.lock.tree)
  {
    hide Good, Reachable, StaysInside, NeverStraddles, Unstraddled, Rendered, Legal, After;
    ReachableGood(b);
    BeginsWith(b, op);
    var c := Next(b, Begin(op));
    EnteredUnstraddled(b, op, work);
    InsideRun(c, work);
    var t := After(c, work);
    SeedIsFresh(t);
    var n := Next(t, ApplyOk);
    RebuiltQuotas(n, t.proc.lock.tree, n.blocked);
    if b.proc.batches == [] { LoadedUnwritten(c, work); }
  }

  /** Without batches nothing is written after the reload. */
  lemma {:induction false} LoadedUnwritten(s: State, steps: seq<Step>)
    requires Legal(s, steps) && StaysInside(s, steps) && s.proc.batches == []
    requires s.proc.lock.Loaded? ==> s.proc.lock.tree == s.db.tree
    ensures var t := After(s, steps); t.proc.Running? && (t.proc.lock.Loaded? ==> t.proc.lock.tree == t.db.tree)
    decreases |steps|
  {
    hide Enabled, Next, Inside;
    IsInside(s, steps);
    IsRunning(s);
    if steps != [] {
      var n := Next(s, steps[0]);
      IsInside(n, steps[1..]);
      InsideKeeps(s, steps[0]);
      UnwrittenStep(s, steps[0]);
      LoadedUnwritten(n, steps[1..]);
    }
  }

  lemma IsInside(s: State, steps: seq<Step>)
    requires Legal(s, steps) && StaysInside(s, steps)
    ensures Inside(s)
  {
  }

  lemma UnwrittenStep(s: State, st: Step)
    requires Inside(s) && Enabled(s, st) && Inside(Next(s, st)) && s.proc.batches == []
    requires s.proc.lock.Loaded? ==> s.proc.lock.tree == s.db.tree
    ensures Next(s, st).proc.lock.Loaded? ==> Next(s, st).proc.lock.tree == Next(s, st).db.tree
  {
    InsideSteps(s, st);
    hide Mutate, Persist, Process, SampleOf, Tree.Valid;
  }

  /** A usage mutation of the account fails to apply at s, and `wait` passes without a rebuild. */
  ghost predicate FailedThen(s: State, wait: seq<Step>, id: int) {
    && Reachable(s) && Enabled(s, ApplyFail) && TargetsUsage(s.proc.lock.op, id)
    && s.kernel.Present? && id in s.kernel.table.quotas
    && Legal(Next(s, ApplyFail), wait) && Unrebuilt(wait)
  }

  ghost function Waited(s: State, wait: seq<Step>, id: int): State
    requires FailedThen(s, wait, id)
  {
    After(Next(s, ApplyFail), wait)
  }

  /** A reconcile begun at b that does not set the account's usage completes without a straddling write, and
      the account has a quota then. */
  ghost predicate GetsThrough(b: State, op: Op, work: seq<Step>, id: int) {
    && Completes(b, op, work) && NeverStraddles(Next(b, Begin(op)), work) && !TargetsUsage(op, id)
    && HasQuota(Reached(b, op, work).proc.lock.tree.accounts, id)
  }

  /** What the kernel lists for the account after `wait`. */
  ghost function ListedAfter(s: State, wait: seq<Step>, id: int): nat
    requires s.kernel.Present? && id in s.kernel.table.quotas
  {
    var q := s.kernel.table.quotas[id];
    q.(charged := q.charged + ChargedBytes(s.given, s.blocked, wait, id)).Listed()
  }

  lemma FailureWaits(s: State, wait: seq<Step>, id: int)
    requires FailedThen(s, wait, id)
    ensures var b := Waited(s, wait, id);
            Reachable(b) && b.kernel.Present? && id in b.kernel.table.quotas
            && b.kernel.table.quotas[id].Listed() == ListedAfter(s, wait, id)
  {
    hide Good, Reachable, Legal, After, Unrebuilt, ChargedBytes;
    FailureKeeps(s);
    ReachableNext(s, ApplyFail);
    ReachableGood(Next(s, ApplyFail));
    ReachableOn(Next(s, ApplyFail), wait);
    UnrebuiltRun(Next(s, ApplyFail), wait, id);
  }

  lemma FailureKeeps(s: State)
    requires Enabled(s, ApplyFail)
    ensures Next(s, ApplyFail).kernel == s.kernel && Next(s, ApplyFail).given == s.given
    ensures Next(s, ApplyFail).blocked == s.blocked
  {
  }

  /** The account's quota has just been seeded with the figure. */
  ghost predicate SeededWith(n: State, id: int, figure: nat) {
    n.kernel.Present? && id in n.kernel.table.quotas && n.kernel.table.quotas[id].charged == figure
  }

  ghost predicate NothingInFlight(s: State) { s.proc.Running? && s.proc.batches == [] }

  ghost predicate Stored(t: Tree, id: int, figure: nat) { id in t.accounts && t.accounts[id].used == figure }

  /** Failed usage changes, exactly. After a reset or set-usage whose apply failed, let anything happen
      but a rebuild: packets, samples, persists, other mutations, more failed applies. The next
      reconcile to get through seeds the account with the requested figure if and only if that is
      what the kernel lists by then, which is what it listed at the failure plus what the account was
      charged since, cut off at the old limit. The same goes for the row it reloads, and for the
      database row unless a batch was in flight. Structure and expiry always converge (PublishRestores). */
  lemma FailedUsageChange(s: State, wait: seq<Step>, op: Op, work: seq<Step>, id: int)
    requires FailedThen(s, wait, id)
    requires GetsThrough(Waited(s, wait, id), op, work, id)
    ensures var n, request := Rebuilt(Waited(s, wait, id), op, work), Requested(s.proc.lock.op);
            && (SeededWith(n, id, request) <==> ListedAfter(s, wait, id) == request)
            && n.proc.Running? && n.proc.lock.Applied?
            && (Stored(n.proc.lock.tree, id, request) <==> ListedAfter(s, wait, id) == request)
            && (NothingInFlight(Waited(s, wait, id)) ==>
                  (Stored(n.db.tree, id, request) <==> ListedAfter(s, wait, id) == request))
  {
    hide Completes, Rebuilt, ListedAfter, Reachable, Legal, After, Next, Enabled, Unrebuilt;
    FailureWaits(s, wait, id);
    RetrySeeds(Waited(s, wait, id), op, work, id);
  }

  /** No packet reaches the account's ports on the run. */
  ghost predicate Idles(s: State, wait: seq<Step>, id: int) {
    forall i | 0 <= i < |wait| && wait[i].Traffic? :: !Charges(s.given, s.blocked, wait[i].p, id)
  }

  /** In particular, if no packet reached the account's ports in between, the change survives if and
      only if it asked for what the kernel listed when it failed: a reset only of an unused account. */
  lemma IdleFailedChange(s: State, wait: seq<Step>, op: Op, work: seq<Step>, id: int)
    requires FailedThen(s, wait, id) && Idles(s, wait, id) && GetsThrough(Waited(s, wait, id), op, work, id)
    ensures SeededWith(Rebuilt(Waited(s, wait, id), op, work), id, Requested(s.proc.lock.op)) <==>
            s.kernel.table.quotas[id].Listed() == Requested(s.proc.lock.op)
  {
    hide Completes, Rebuilt, Reachable, Legal, After, Next, Enabled, Unrebuilt, Charges;
    FailedUsageChange(s, wait, op, work, id);
    NothingCharged(s.given, s.blocked, wait, id);
  }

  lemma {:induction false} NothingCharged(given: Tree, blocked: set<int>, steps: seq<Step>, id: int)
    requires forall i | 0 <= i < |steps| && steps[i].Traffic? :: !Charges(given, blocked, steps[i].p, id)
    ensures ChargedBytes(given, blocked, steps, id) == 0
  {
    hide Charges;
    if steps != [] {
      assert forall i | 0 <= i < |steps[1..]| :: steps[1..][i] == steps[i + 1];
      NothingCharged(given, blocked, steps[1..], id);
    }
  }

  // ---------------------------------------------------------------- a restart in place of the retry

  /** The start-up stays under way. */
  ghost predicate StaysStarting(s: State, steps: seq<Step>)
    requires Legal(s, steps)
    decreases |steps|
  {
    s.proc.Starting? && (steps != [] ==> StaysStarting(Next(s, steps[0]), steps[1..]))
  }

  /** A process started at d gets through, and the account has a quota then. */
  ghost predicate Relaunches(d: State, work: seq<Step>, id: int) {
    && Enabled(d, Start) && Legal(Next(d, Start), work) && StaysStarting(Next(d, Start), work)
    && Enabled(After(Next(d, Start), work), StartOk)
    && HasQuota(After(Next(d, Start), work).proc.snap.accounts, id)
  }

  ghost function Launched(d: State, work: seq<Step>, id: int): State
    requires Relaunches(d, work, id)
  {
    Next(After(Next(d, Start), work), StartOk)
  }

  /** What a start-up has sampled and adopted stays put, and once stored is in the database. */
  ghost predicate Adopting(s: State, snap: Tree, live: Sample) {
    && s.proc.Starting? && s.proc.snap == snap && s.proc.live == live && s.proc.hot
    && (s.proc.stored ==> forall id | id in s.db.tree.accounts && id in live.used :: s.db.tree.accounts[id].used == live.used[id])
  }

  lemma AdoptingStep(s: State, st: Step, snap: Tree, live: Sample)
    requires Adopting(s, snap, live) && Enabled(s, st) && Next(s, st).proc.Starting?
    ensures Adopting(Next(s, st), snap, live)
  {
    hide Process, Adopt, Rendered, SampleOf, Persist, Tree.Valid, RunningNext;
    assert !st.Start?;
    if st.Adopted? { PersistRows(s.db.tree, live); }
  }

  lemma {:induction false} AdoptingRun(s: State, steps: seq<Step>, snap: Tree, live: Sample)
    requires Adopting(s, snap, live) && Legal(s, steps) && StaysStarting(s, steps)
    ensures Adopting(After(s, steps), snap, live)
    decreases |steps|
  {
    hide Enabled, Next, Adopting;
    if steps != [] {
      var n := Next(s, steps[0]);
      assert StaysStarting(n, steps[1..]);
      AdoptingStep(s, steps[0], snap, live);
      AdoptingRun(n, steps[1..], snap, live);
    }
  }

  lemma Launches(d: State, work: seq<Step>, id: int)
    requires Good(d) && Relaunches(d, work, id) && d.kernel.Present? && id in d.kernel.table.quotas
    ensures SeededWith(Launched(d, work, id), id, d.kernel.table.quotas[id].Listed())
    ensures Stored(Launched(d, work, id).db.tree, id, d.kernel.table.quotas[id].Listed())
  {
    hide Good, Legal, After, StaysStarting, Rendered, Adopt, Tree.Valid, Tree.ExpiredSet, RunningNext;
    var c := Next(d, Start);
    var snap, live := c.proc.snap, c.proc.live;
    AdoptedUsed(d.db.tree, live);
    AdoptingRun(c, work, snap, live);
    var t := After(c, work);
    RebuiltQuotas(Next(t, StartOk), snap, Next(t, StartOk).blocked);
    StepKeeps(d, Start);
    RunKeeps(c, work);
    StartingRows(t);
  }

  lemma StartingRows(s: State)
    requires Good(s) && s.proc.Starting?
    ensures forall id | id in s.proc.snap.accounts :: id in s.db.tree.accounts
  {
    hide DbOk, KernelOk;
  }

  lemma AdoptedUsed(t: Tree, live: Sample)
    ensures forall id | id in Adopt(t, live).accounts && id in live.used :: Adopt(t, live).accounts[id].used == live.used[id]
  {
  }

  /** A restart over the live table in place of the retry revives the old figure just the same, and
      puts it in the database. */
  lemma FailedUsageRestart(s: State, wait: seq<Step>, work: seq<Step>, id: int)
    requires FailedThen(s, wait, id) && Relaunches(Waited(s, wait, id), work, id)
    ensures var n, request := Launched(Waited(s, wait, id), work, id), Requested(s.proc.lock.op);
            && (SeededWith(n, id, request) <==> ListedAfter(s, wait, id) == request)
            && (Stored(n.db.tree, id, request) <==> ListedAfter(s, wait, id) == request)
  {
    hide Relaunches, Launched, ListedAfter, Reachable, Legal, After, Next, Enabled, Unrebuilt, Good;
    FailureWaits(s, wait, id);
    ReachableGood(Waited(s, wait, id));
    Launches(Waited(s, wait, id), work, id);
  }

  /** And for an idle account on the same condition. */
  lemma IdleFailedRestart(s: State, wait: seq<Step>, work: seq<Step>, id: int)
    requires FailedThen(s, wait, id) && Idles(s, wait, id) && Relaunches(Waited(s, wait, id), work, id)
    ensures SeededWith(Launched(Waited(s, wait, id), work, id), id, Requested(s.proc.lock.op)) <==>
            s.kernel.table.quotas[id].Listed() == Requested(s.proc.lock.op)
  {
    hide Relaunches, Launched, Reachable, Legal, After, Next, Enabled, Unrebuilt, Charges;
    FailedUsageRestart(s, wait, work, id);
    NothingCharged(s.given, s.blocked, wait, id);
  }
}
