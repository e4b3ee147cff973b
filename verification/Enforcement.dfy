/** Expiry over runs: an expired account stays shut off until the operator lets it in again. */
module Enforcement {
  import opened Model
  import opened Ruleset
  import opened Tables
  import opened Engine
  import opened Structure
  import opened Invariant
  import opened Mutations
  import opened Guarantees

  /** The step runs a mutation that may let the account in again, or removes it. */
  ghost predicate Frees(s: State, st: Step, id: int) {
    st.Change? && s.proc.Running? && s.proc.lock.Folded?
    && (s.proc.lock.op.SetExpiry? || s.proc.lock.op.SetTier? || s.proc.lock.op.DropAccount?) && s.proc.lock.op.account == id
  }

  ghost predicate RowExpired(accounts: map<int, Account>, id: int, now: Time) { id in accounts && accounts[id].ExpiredAt(now) }

  /** The kernel shuts the account off, and wherever its row is or is on its way to, it is expired. */
  ghost predicate Shut(s: State, id: int, now: Time) {
    && s.kernel.Present? && id in s.blocked && now <= s.now && RowExpired(s.db.tree.accounts, id, now)
    && (s.proc.Starting? ==> RowExpired(s.proc.snap.accounts, id, now))
    && (s.proc.Running? && s.proc.lock.Loaded? ==> RowExpired(s.proc.lock.tree.accounts, id, now))
  }

  /** Once expired, expired at every later instant. */
  lemma StillExpired(t: Tree, id: int, now: Time, later: Time)
    requires RowExpired(t.accounts, id, now) && now <= later
    ensures id in t.ExpiredSet(later)
  {
    assert Unix(now) <= Unix(later);
  }

  lemma MutateShut(op: Op, token: string, t: Time, db: Db, snap: Tree, live: Sample, id: int, now: Time)
    requires Sound(db) && RowExpired(db.tree.accounts, id, now) && Mutate(op, token, t, db, snap, live).Some?
    requires !((op.SetExpiry? || op.SetTier? || op.DropAccount?) && op.account == id)
    ensures RowExpired(Mutate(op, token, t, db, snap, live).value.0.tree.accounts, id, now)
  {
  }

  lemma WriteShut(t: Tree, r: Sample, id: int, now: Time)
    requires RowExpired(t.accounts, id, now)
    ensures RowExpired(Persist(t, r).accounts, id, now) && RowExpired(Adopt(t, r).accounts, id, now)
  {
  }

  lemma ShutTraffic(s: State, p: Packet, id: int, now: Time)
    requires Shut(s, id, now)
    ensures Shut(Next(s, Traffic(p)), id, now)
  {
    hide Process, RowExpired;
  }

  lemma ShutWrite(s: State, st: Step, id: int, now: Time)
    requires Shut(s, id, now) && Enabled(s, st) && (st.PersistWrite? || st.Fold? || st.Adopted? || st.Start?)
    ensures Shut(Next(s, st), id, now)
  {
    hide Persist, Adopt, RowExpired, SampleOf;
    var r := if st.PersistWrite? then s.proc.batches[st.i] else if st.Adopted? then s.proc.live
             else if st.Start? then Reading(s.kernel, NO_SAMPLE) else s.proc.mem.live;
    WriteShut(s.db.tree, r, id, now);
  }

  lemma ShutChange(s: State, token: string, id: int, now: Time)
    requires Good(s) && Shut(s, id, now) && Enabled(s, Change(token)) && !Frees(s, Change(token), id)
    ensures Shut(Next(s, Change(token)), id, now)
  {
    hide Mutate, KernelOk, LockOk, SamplerOk, RowExpired;
    assert DbOk(s.db);
    var mem, op := s.proc.mem, s.proc.lock.op;
    if Mutate(op, token, s.now, s.db, mem.snap, mem.live).Some? {
      MutateShut(op, token, s.now, s.db, mem.snap, mem.live, id, now);
    }
  }

  lemma ShutRebuild(s: State, st: Step, id: int, now: Time)
    requires Shut(s, id, now) && Enabled(s, st) && (st.ApplyOk? || st.StartOk?)
    ensures Shut(Next(s, st), id, now)
  {
    hide Rendered, RowExpired, Tree.Valid, Tree.ExpiredSet;
    StillExpired(if st.ApplyOk? then s.proc.lock.tree else s.proc.snap, id, now, s.now);
  }

  lemma ShutOther(s: State, st: Step, id: int, now: Time)
    requires Shut(s, id, now) && Enabled(s, st) && !st.Reboot? && (st.Tick? ==> s.now <= st.t)
    requires !st.Traffic? && !st.PersistWrite? && !st.Fold? && !st.Adopted? && !st.Start? && !st.Change? && !st.ApplyOk?
    requires !st.StartOk?
    ensures Shut(Next(s, st), id, now)
  {
    hide Adopt, SampleOf, Tree.Valid, ArgsOk, Fresh;
  }

  lemma ShutStep(s: State, st: Step, id: int, now: Time)
    requires Good(s) && Shut(s, id, now) && Enabled(s, st)
    requires !st.Reboot? && !Frees(s, st, id) && (st.Tick? ==> s.now <= st.t)
    ensures Shut(Next(s, st), id, now)
  {
    hide Good, Shut, Enabled, Next, Frees;
    match st
    case Traffic(p) => ShutTraffic(s, p, id, now);
    case PersistWrite(_) => ShutWrite(s, st, id, now);
    case Fold => ShutWrite(s, st, id, now);
    case Adopted => ShutWrite(s, st, id, now);
    case Start => ShutWrite(s, st, id, now);
    case Change(token) => ShutChange(s, token, id, now);
    case ApplyOk => ShutRebuild(s, st, id, now);
    case StartOk => ShutRebuild(s, st, id, now);
    case _ => ShutOther(s, st, id, now);
  }

  /** Over the run nobody lets the account in again and the machine does not reboot. */
  ghost predicate NeverFreed(s: State, steps: seq<Step>, id: int)
    requires Legal(s, steps)
    decreases |steps|
  {
    steps != [] ==> !steps[0].Reboot? && !Frees(s, steps[0], id) && NeverFreed(Next(s, steps[0]), steps[1..], id)
  }

  lemma {:induction false} ShutRun(s: State, steps: seq<Step>, id: int, now: Time)
    requires Good(s) && Shut(s, id, now) && Legal(s, steps) && ClockAscends(s, steps) && NeverFreed(s, steps, id)
    ensures Shut(After(s, steps), id, now) && Good(After(s, steps))
    decreases |steps|
  {
    hide Good, Shut, Enabled, Next, Frees;
    if steps != [] {
      StepKeeps(s, steps[0]);
      ShutStep(s, steps[0], id, now);
      ShutRun(Next(s, steps[0]), steps[1..], id, now);
    }
  }

  /** The kernel drops every packet that its rules give to the account, and counts and charges none. */
  ghost predicate ShutsOff(s: State, id: int) {
    s.kernel.Present? && forall p: Packet | Managed(s.given.ports, p) && s.given.ports[Entry(s.given.ports, p)].account == id ::
      Process(s.kernel.table, p) == Outcome(false, s.kernel.table)
  }

  lemma BlockedShutsOff(s: State, id: int)
    requires KernelOk(s) && s.kernel.Present? && id in s.blocked
    ensures ShutsOff(s, id)
  {
    hide Process;
    forall p: Packet | Managed(s.given.ports, p) && s.given.ports[Entry(s.given.ports, p)].account == id
      ensures Process(s.kernel.table, p) == Outcome(false, s.kernel.table)
    {
      WalkIsPolicy(s.kernel.table, s.given, s.blocked, p);
    }
  }

  /** Expiry is enforced over runs: once a check of the free controller finds nothing to do while an
      account is expired, the kernel lets through none of the packets it gives to the account, in that
      state and in every later one: inside reconciles, after failed applies, persists and edits,
      through crashes and restarts over the live table, as long as the clock does not go back, nobody
      changes the account's expiry or tier or deletes it, and the machine does not reboot. */
  lemma ExpiryStaysEnforced(s: State, now: Time, steps: seq<Step>, id: int)
    requires Reachable(s) && s.proc.Running? && s.proc.lock.Free? && !NeedsSync(s.proc.mem, now) && now <= s.now
    requires id in s.db.tree.ExpiredSet(now)
    requires Legal(s, steps) && ClockAscends(s, steps) && NeverFreed(s, steps, id)
    ensures ShutsOff(After(s, steps), id)
  {
    hide NeedsSync, Good, Legal, After, ClockAscends, NeverFreed, ShutsOff, SameDesign;
    ReachableGood(s);
    ReachableSettled(s);
    NotNeeded(s.proc.mem, now);
    NoSyncNeeded(s, s.proc.mem, now);
    BlockedStaysShut(s, now, steps, id);
  }

  /** The same from any state, inside a reconcile or a start-up too, in which the kernel shuts off the account. */
  lemma BlockedStaysShut(s: State, now: Time, steps: seq<Step>, id: int)
    requires Good(s) && s.kernel.Present? && id in s.blocked && now <= s.now && RowExpired(s.db.tree.accounts, id, now)
    requires Legal(s, steps) && ClockAscends(s, steps) && NeverFreed(s, steps, id)
    ensures ShutsOff(After(s, steps), id)
  {
    hide Good, Legal, After, ClockAscends, NeverFreed, ShutsOff, RowExpired;
    FullyShut(s, id, now);
    ShutRun(s, steps, id, now);
    GoodKernel(After(s, steps));
    BlockedShutsOff(After(s, steps), id);
  }

  /** A tree on its way into memory or the kernel has the database's design. */
  lemma FullyShut(s: State, id: int, now: Time)
    requires Good(s) && s.kernel.Present? && id in s.blocked && now <= s.now && RowExpired(s.db.tree.accounts, id, now)
    ensures Shut(s, id, now)
  {
    hide DbOk, KernelOk, SamplerOk, OpOk;
    if s.proc.Starting? { DesignOf(s.db.tree, s.proc.snap, id); }
    if s.proc.Running? && s.proc.lock.Loaded? { DesignOf(s.db.tree, s.proc.lock.tree, id); }
  }

  lemma GoodKernel(s: State)
    requires Good(s)
    ensures KernelOk(s)
  {
  }

  // ---------------------------------------------------------------- enforcement, spelled out

  /** The account's row says that it has expired by then. */
  predicate Lapsed(a: Account, now: Time) {
    (a.tier == Monthly || a.tier == OneShot) && 0 < a.expires && a.expires * 1_000_000_000 <= now
  }

  /** The check finds work exactly if an apply is outstanding, or some account has lapsed and is not yet
      shut off, or is shut off and has not lapsed. */
  lemma CheckSpelled(mem: Mem, now: Time)
    ensures NeedsSync(mem, now) <==>
            mem.unsynced || exists id :: id in mem.snap.accounts && Lapsed(mem.snap.accounts[id], now) != (id in mem.expired)
  {
    forall id | id in mem.snap.accounts ensures Lapsed(mem.snap.accounts[id], now) == mem.snap.accounts[id].ExpiredAt(now) {
      ExpiredSpelled(mem.snap, now);
      assert id in mem.snap.ExpiredSet(now) <==> mem.snap.accounts[id].ExpiredAt(now);
    }
    hide Lapsed, Account.ExpiredAt;
  }

  /** When a check at `now` finds nothing to do, every packet to or from a port of an account whose row says it
      has expired is dropped untouched; an account without expiry, without a quota, or whose second has not
      come, is not shut off: its packets pass and are counted, within its quota if it has one. */
  lemma QuietCheckEnforces(s: State, now: Time, p: Packet, id: int)
    requires Reachable(s) && s.proc.Running? && s.proc.lock.Free? && !NeedsSync(s.proc.mem, now)
    requires id in s.db.tree.ports && Reaches(p, s.db.tree.ports[id])
    ensures s.kernel.Present? && s.db.tree.ports[id].account in s.db.tree.accounts
    ensures var tree, t, o := s.db.tree, s.kernel.table, Process(s.kernel.table, p);
            var a := tree.accounts[tree.ports[id].account];
            && (Lapsed(a, now) ==> o == Outcome(false, t))
            && (!Lapsed(a, now) && a.tier == Unlimited ==>
                  o.accepted && Touched(t, o.table, false, a.id, true, Key(id, p.hook), p.bytes))
            && (!Lapsed(a, now) && a.tier != Unlimited ==>
                  && a.id in t.quotas && t.quotas[a.id].limit == a.LimitBytes()
                  && (o.accepted <==> t.quotas[a.id].charged + p.bytes <= a.LimitBytes())
                  && Touched(t, o.table, true, a.id, o.accepted, Key(id, p.hook), p.bytes))
  {
    hide NeedsSync, Good, Process, SameDesign, Touched, Reaches, Chains;
    ReachableGood(s);
    NotNeeded(s.proc.mem, now);
    ReachableSettled(s);
    NoSyncNeeded(s, s.proc.mem, now);
    ExpiredSpelled(s.db.tree, now);
    DbTree(s);
    KernelQuotas(s);
    PacketFate(s.kernel.table, s.db.tree, s.proc.mem.expired, p, id);
  }

  lemma DbTree(s: State)
    requires Good(s)
    ensures s.db.tree.Keyed() && s.db.tree.Valid()
    ensures forall id | id in s.db.tree.accounts :: s.db.tree.accounts[id].tier.Valid()
  {
    assert forall id | id in s.db.tree.accounts :: s.db.tree.accounts[id].WellFormed();
  }

  lemma KernelQuotas(s: State)
    requires s.proc.Running? && Settled(s, s.proc.mem) && !s.proc.mem.unsynced && s.db.tree.Keyed() && s.db.tree.Valid()
    ensures s.kernel.Present? && Enforces(s.kernel.table, s.db.tree, s.proc.mem.expired)
    ensures forall id | HasQuota(s.db.tree.accounts, id) ::
              id in s.kernel.table.quotas && s.kernel.table.quotas[id].limit == s.db.tree.accounts[id].LimitBytes()
  {
    hide SameDesign, Chains;
    var t := s.kernel.table;
    assert ShapeOf(t).limits == Limits(s.db.tree.accounts);
    forall id | HasQuota(s.db.tree.accounts, id)
      ensures id in t.quotas && t.quotas[id].limit == s.db.tree.accounts[id].LimitBytes()
    {
      assert id in ShapeOf(t).limits && ShapeOf(t).limits[id] == s.db.tree.accounts[id].LimitBytes();
    }
  }
}
