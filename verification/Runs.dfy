/** The machine's steps spelled out, as the controller's methods take them. */
module Runs {
  import opened Model
  import opened Ruleset
  import opened Engine
  import opened Structure
  import opened Invariant
  import Billing
  import T = Tables

  /** How a reconcile ended. */
  datatype Ending = Done | Rejected | NoToken | Unapplied

  /** The steps a reconcile takes when no other actor interferes; the clock reads `later` at the apply. */
  function ReconcileSteps(op: Op, token: string, later: Time, o: Ending): seq<Step> {
    [Begin(op), Fold] + match o
      case Done => [Change(token), Reload, Tick(later), ApplyOk, Publish]
      case Unapplied => [Change(token), Reload, Tick(later), ApplyFail]
      case Rejected => [Change(token)]
      case NoToken => [Abandon]
  }

  function ChangeStep(result: Ending, token: string): Step { if result.NoToken? then Abandon else Change(token) }

  /** A legal run grows by a step, and stays good. */
  lemma Extend(s: State, steps: seq<Step>, cur: State, st: Step) returns (next: State)
    requires Legal(s, steps) && After(s, steps) == cur && Good(cur) && Enabled(cur, st)
    ensures Legal(s, steps + [st]) && After(s, steps + [st]) == next == Next(cur, st) && Good(next)
  {
    hide Good, Enabled, Next;
    StepKeeps(cur, st);
    One(cur, st);
    Joined(s, steps, [st]);
    next := Next(cur, st);
  }

  // ---------------------------------------------------------------- the steps of a reconcile, spelled out

  lemma Begins(s: State, op: Op)
    requires s.proc.Running? && s.proc.lock.Free? && ArgsOk(op)
    ensures Enabled(s, Begin(op)) && Next(s, Begin(op)).proc.Running? && Next(s, Begin(op)).proc.lock.Sampled?
    ensures Next(s, Begin(op)).proc.lock.op == op && Next(s, Begin(op)).now == s.now
  {
  }

  lemma Folds(s: State)
    requires s.proc.Running? && s.proc.lock.Sampled?
    ensures Enabled(s, Fold) && Next(s, Fold).proc.Running? && Next(s, Fold).now == s.now
    ensures Next(s, Fold).proc.lock == Lock.Folded(s.proc.lock.op, s.proc.lock.seen)
  {
  }

  lemma Changes(s: State)
    requires s.proc.Running? && s.proc.lock.Folded?
    ensures Enabled(s, Abandon) && Next(s, Abandon) == s.(proc := s.proc.(lock := Free))
    ensures forall token: string | s.proc.lock.op.AddAccount? ==> T.Fresh(token, s.proc.mem.snap.accounts, s.proc.mem.master) ::
              Enabled(s, Change(token)) && Next(s, Change(token)) == Changed(s, token)
  {
    hide Mutate, T.Fresh;
  }

  lemma ResyncChanges(token: string, now: Time, db: T.Db, snap: Tree, live: Sample)
    ensures Mutate(Resync, token, now, db, snap, live) == Some((db, live))
  {
  }

  function Changed(s: State, token: string): State
    requires s.proc.Running? && s.proc.lock.Folded?
  {
    var Running(mem, _, _, lock) := s.proc;
    match Mutate(lock.op, token, s.now, s.db, mem.snap, mem.live)
    case None => s.(proc := s.proc.(lock := Free))
    case Some((db, live)) => s.(db := db, proc := s.proc.(mem := mem.(live := live), lock := Lock.Mutated(lock.op, lock.seen)))
  }

  lemma Applies(s: State)
    requires s.proc.Running? && s.proc.lock.Loaded? && s.proc.lock.tree.Valid()
    ensures Enabled(s, ApplyOk) && Enabled(Next(s, ApplyOk), Publish)
    ensures var tree, mem := s.proc.lock.tree, s.proc.mem;
            Next(Next(s, ApplyOk), Publish) == s.(
              kernel := Present(Rendered(tree, tree.ExpiredSet(s.now))), given := tree, blocked := tree.ExpiredSet(s.now),
              proc := s.proc.(lock := Free,
                mem := Mem(tree, mem.live, mem.gen + 1, tree.ExpiredSet(s.now), false, mem.master)))
  {
    hide Rendered, Tree.Valid, Tree.ExpiredSet;
  }

  lemma Fails(s: State)
    requires s.proc.Running? && s.proc.lock.Loaded?
    ensures Enabled(s, ApplyFail)
    ensures Next(s, ApplyFail) == s.(proc := s.proc.(lock := Free, mem := s.proc.mem.(snap := s.proc.lock.tree, unsynced := true)))
  {
  }

  lemma Ticks(s: State, t: Time)
    ensures Enabled(s, Tick(t)) && Next(s, Tick(t)) == s.(now := t)
  {
  }

  lemma StampLists(s: Snapshot, now: Time, t: Tree)
    requires Lists(s, t)
    ensures Lists(s.(now := now), t)
  {
  }

  lemma Starts(s: State)
    requires s.proc.Down?
    ensures Enabled(s, Start)
    ensures var live := Reading(s.kernel, NO_SAMPLE);
            Next(s, Start) == s.(proc := Starting(Adopt(s.db.tree, live), live, s.kernel.Present?, s.kernel.Absent?))
    ensures s.kernel.Present? ==>
              Enabled(Next(s, Start), Adopted)
              && Next(Next(s, Start), Adopted) == Next(s, Start).(db := WithPersisted(s.db, Reading(s.kernel, NO_SAMPLE)),
                   proc := Next(s, Start).proc.(stored := true))
  {
    hide Adopt, SampleOf;
  }

  function WithPersisted(db: T.Db, live: Sample): T.Db { T.WithTree(db, T.Persist(db.tree, live)) }

  lemma StartsUp(s: State)
    requires s.proc.Starting? && s.proc.stored && s.proc.snap.Valid()
    ensures Enabled(s, StartOk) && Enabled(s, StartFail) && Next(s, StartFail) == s.(proc := Down)
    ensures var blocked := s.proc.snap.ExpiredSet(s.now);
            Next(s, StartOk) == s.(
              kernel := Present(Rendered(s.proc.snap, blocked)), given := s.proc.snap, blocked := blocked,
              proc := Running(Mem(s.proc.snap, s.proc.live, 0, blocked, false, s.db.master), Idle, [], Free))
  {
    hide Rendered, Tree.Valid, Tree.ExpiredSet;
  }

  lemma LoadedValid(s: State)
    requires Good(s) && s.proc.Running? && s.proc.lock.Loaded?
    ensures s.proc.lock.tree.Valid()
  {
    SameDesignKeeps(s.proc.lock.tree, s.db.tree);
  }

  lemma GoodRows(s: State)
    requires Good(s)
    ensures T.Sound(s.db) && s.db.tree.Keyed()
  {
  }

  // ---------------------------------------------------------------- requests and checks

  /** A port request's end of 0 is shorthand for a single port. */
  function Spelled(op: Op): Op {
    match op
    case AddPort(account, start, end) => if end == 0 then AddPort(account, start, start) else op
    case EditPort(port, start, end) => if end == 0 then EditPort(port, start, start) else op
    case _ => op
  }

  /** What an operation checks before its reconcile. */
  predicate Admitted(op: Op, snap: Tree) {
    match op
    case MovePort(port, account) => port in snap.ports && account in snap.accounts
    case SetUsage(id, _) => HasQuota(snap.accounts, id)
    case ResetAccount(id) => HasQuota(snap.accounts, id)
    case _ => true
  }

  predicate ExpiryMoved(a: Account, now: Time, expired: set<int>) { a.ExpiredAt(now) != (a.id in expired) }

  predicate ResetDue(a: Account, now: Time, offset: int) {
    a.tier.Resets() && Billing.Due(a.lastReset, a.anchorDay, offset, now)
  }

  lemma SyncListed(xs: seq<Account>, m: map<int, Account>, now: Time, expired: set<int>)
    requires ListsAccounts(xs, m) && forall id | id in m :: m[id].id == id
    ensures (exists j :: 0 <= j < |xs| && ExpiryMoved(xs[j], now, expired))
       <==> (exists id :: id in m && (m[id].ExpiredAt(now) != (id in expired)))
  {
    if j :| 0 <= j < |xs| && ExpiryMoved(xs[j], now, expired) {
      assert m[xs[j].id] == xs[j];
    }
    if id :| id in m && (m[id].ExpiredAt(now) != (id in expired)) {
      assert HasAccount(xs, id);
      var j :| 0 <= j < |xs| && xs[j].id == id;
      assert ExpiryMoved(xs[j], now, expired);
    }
  }

  /** Which requests get as far as a reconcile, and as which operation. An end of 0 stands for the start. */
  lemma RequestsSpelled(asked: Op, snap: Tree)
    ensures ArgsOk(Spelled(asked)) && Admitted(Spelled(asked), snap) <==>
            match asked
            case AddAccount(name, tier, limit, day) => name != "" && TierSpelled(tier, limit, day)
            case SetTier(_, tier, limit, day) => TierSpelled(tier, limit, day)
            case SetExpiry(_, expires) => 0 <= expires
            case AddPort(_, start, end) => 1 <= start && (end == 0 || start <= end)
            case EditPort(_, start, end) => 1 <= start && (end == 0 || start <= end)
            case MovePort(port, account) => port in snap.ports && account in snap.accounts
            case SetUsage(id, _) => id in snap.accounts && snap.accounts[id].tier in {Monthly, OneShot}
            case ResetAccount(id) => id in snap.accounts && snap.accounts[id].tier in {Monthly, OneShot}
            case _ => true
    ensures Spelled(asked) ==
            match asked
            case AddPort(account, start, 0) => Op.AddPort(account, start, start)
            case EditPort(port, start, 0) => Op.EditPort(port, start, start)
            case _ => asked
  {
  }

  predicate TierSpelled(tier: Tier, limitGiB: real, day: int) {
    (tier == Unlimited || ((tier == Monthly || tier == OneShot) && limitGiB > 0.0)) && 1 <= day <= 28
  }
}
