/** The control plane as a step machine over three copies of the truth: the database, the
    controller's memory and the kernel table.

    Everything between taking and releasing the controller's lock is split at the points where
    other actors can act: packets, the clock, the sampler's kernel read and in-flight persist
    writes interleave with a reconcile; whatever needs the lock does not. */
module Engine {
  import opened Model
  import opened Ruleset
  import opened Tables

  // ---------------------------------------------------------------- mutations

  datatype Op =
    | AddAccount(name: string, tier: Tier, limitGiB: real, anchorDay: int)
    | DropAccount(account: int, cascade: bool)
    | SetTier(account: int, tier: Tier, limitGiB: real, anchorDay: int)
    | SetExpiry(account: int, expires: int)
    | AddPort(account: int, start: uint16, end: uint16)
    | EditPort(port: int, start: uint16, end: uint16)
    | DropPort(port: int)
    | MovePort(port: int, account: int)
    | SetUsage(account: int, used: nat)
    | ResetAccount(account: int)
    | Resync

  predicate TierArgsOk(tier: Tier, limitGiB: real, anchorDay: int) {
    tier.Valid() && (tier.HasQuota() ==> limitGiB > 0.0) && 1 <= anchorDay <= 28
  }

  /** What an operation checks on its arguments alone, before it asks for the lock. */
  predicate ArgsOk(op: Op) {
    match op
    case AddAccount(name, tier, limit, day) => name != "" && TierArgsOk(tier, limit, day)
    case SetTier(_, tier, limit, day) => TierArgsOk(tier, limit, day)
    case SetExpiry(_, expires) => expires >= 0
    case AddPort(a, start, end) => Port(0, a, start, end).ValidRange()
    case EditPort(p, start, end) => Port(p, 0, start, end).ValidRange()
    case _ => true
  }

  /** The mutation run between fold and reload, on the database, the snapshot `snap` it is checked
      against and the live sample; None is an error, after which nothing has changed. */
  function Mutate(op: Op, token: string, now: Time, db: Db, snap: Tree, live: Sample): Option<(Db, Sample)> {
    var t := db.tree;
    match op
    case AddAccount(name, tier, limit, day) =>
      var r := InsertAccount(db, name, tier, limit, day, token, 0, now);
      if r.None? then None else Some((r.value, live))
    case DropAccount(id, cascade) =>
      if OwnedBy(snap.ports, id) != {} && !cascade then None
      else Some((WithTree(db, DeleteAccount(t, id)), live))
    case SetTier(id, tier, limit, day) =>
      Some((if id in t.accounts
            then WithTree(db, UpdateAccount(t, id, t.accounts[id].(tier := tier, limitGiB := limit, anchorDay := day)))
            else db, live))
    case SetExpiry(id, expires) =>
      if id !in snap.accounts || (expires != 0 && !snap.accounts[id].tier.HasQuota()) then None
      else Some((if id in t.accounts then WithTree(db, UpdateAccount(t, id, t.accounts[id].(expires := expires))) else db, live))
    case AddPort(account, start, end) =>
      if account !in snap.accounts || Clashes(snap.ports, None, Port(0, account, start, end)) then None
      else
        var r := InsertPort(db, account, start, end);
        if r.None? then None else Some((r.value, live))
    case EditPort(port, start, end) =>
      if port !in snap.ports || Clashes(snap.ports, Some(port), Port(port, 0, start, end)) then None
      else Some((WithTree(db, Tables.EditPort(t, port, start, end)), live))
    case DropPort(port) => Some((WithTree(db, Tables.DeletePort(t, port)), live))
    case MovePort(port, account) =>
      var r := Tables.MovePort(t, port, account);
      if r.None? then None else Some((WithTree(db, r.value), live))
    case SetUsage(id, used) =>
      Some((if id in t.accounts then WithTree(db, UpdateAccount(t, id, t.accounts[id].(used := used))) else db,
            live.(used := live.used[id := used])))
    case ResetAccount(id) =>
      Some((if id in t.accounts
            then WithTree(db, UpdateAccount(t, id, t.accounts[id].(used := 0, lastReset := Unix(now)))) else db,
            live.(used := live.used[id := 0])))
    case Resync => Some((db, live))
  }

  /** Some port other than `except` shares a port number with p. */
  predicate Clashes(ports: map<int, Port>, except: Option<int>, p: Port) {
    exists id :: id in ports && Some(id) != except && ports[id].Overlaps(p)
  }

  predicate TargetsUsage(op: Op, id: int) {
    (op.SetUsage? || op.ResetAccount?) && op.account == id
  }

  // ---------------------------------------------------------------- state

  /** The fields of the controller guarded by its lock. */
  datatype Mem = Mem(snap: Tree, live: Sample, gen: nat, expired: set<int>, unsynced: bool, master: string)

  /** The sampling loop: the generation it noted, and then the reading it has not committed yet. */
  datatype Sampler = Idle | Noted(gen: nat) | Holding(gen: nat, reading: Sample)

  /** How far the reconcile that owns the lock has come; `seen` is the sample it began with. */
  datatype Lock =
    | Free
    | Sampled(op: Op, seen: Sample)
    | Folded(op: Op, seen: Sample)
    | Mutated(op: Op, seen: Sample)
    | Loaded(op: Op, seen: Sample, tree: Tree)
    | Applied(op: Op, seen: Sample, tree: Tree, blocked: set<int>)

  datatype Proc =
    | Down
    | Starting(snap: Tree, live: Sample, hot: bool, stored: bool)
    | Running(mem: Mem, sampler: Sampler, batches: seq<Sample>, lock: Lock)

  /** `given` and `blocked` record what the kernel was last given; no step depends on them. */
  datatype State = State(db: Db, kernel: Kernel, now: Time, proc: Proc, given: Tree, blocked: set<int>)

  datatype Step =
    | Traffic(p: Packet) | Tick(t: Time)
    | SampleNote | SampleRead | SampleCommit | SampleFail
    | PersistCopy | PersistWrite(i: nat)
    | Begin(op: Op) | Fold | Change(token: string) | Reload | Abandon | ApplyOk | ApplyFail | Publish
    | RenewToken(account: int, token: string) | RenewMaster(token: string)
    | Crash | Reboot | Start | Adopted | StartOk | StartFail

  /** Steps that are not taken by a running process: the world's, and a starting process's. */
  predicate Outer(st: Step) {
    st.Traffic? || st.Tick? || st.Crash? || st.Reboot? || st.Start? || st.Adopted? || st.StartOk? || st.StartFail?
  }

  ghost predicate Enabled(s: State, st: Step) {
    if Outer(st) then OuterEnabled(s, st) else s.proc.Running? && RunningEnabled(s, st)
  }

  ghost predicate OuterEnabled(s: State, st: Step) {
    match st
    case Start => s.proc.Down?
    case Adopted => s.proc.Starting? && !s.proc.stored
    case StartOk => s.proc.Starting? && s.proc.stored && s.proc.snap.Valid()
    case StartFail => s.proc.Starting?
    case _ => true
  }

  ghost predicate RunningEnabled(s: State, st: Step)
    requires s.proc.Running?
  {
    var Running(mem, sampler, batches, lock) := s.proc;
    match st
    case SampleNote => lock.Free? && sampler.Idle?
    case SampleRead => sampler.Noted? && s.kernel.Present?
    case SampleCommit => lock.Free? && sampler.Holding?
    case SampleFail => !sampler.Idle?
    case PersistCopy => lock.Free?
    case PersistWrite(i) => i < |batches|
    case Begin(op) => lock.Free? && ArgsOk(op)
    case Fold => lock.Sampled?
    case Change(token) => lock.Folded? && (lock.op.AddAccount? ==> Fresh(token, mem.snap.accounts, mem.master))
    case Reload => lock.Mutated?
    case Abandon => lock.Sampled? || lock.Folded?
    case ApplyOk => lock.Loaded? && lock.tree.Valid()
    case ApplyFail => lock.Loaded?
    case Publish => lock.Applied?
    case RenewToken(id, token) => lock.Free? && id in mem.snap.accounts && Fresh(token, mem.snap.accounts, mem.master)
    case RenewMaster(token) => lock.Free? && Fresh(token, mem.snap.accounts, mem.master)
    case _ => false
  }

  function Reading(k: Kernel, otherwise: Sample): Sample { if k.Present? then SampleOf(k.table) else otherwise }

  ghost function Next(s: State, st: Step): State
    requires Enabled(s, st)
  {
    if Outer(st) then OuterNext(s, st) else RunningNext(s, st)
  }

  ghost function OuterNext(s: State, st: Step): State
    requires Outer(st) && OuterEnabled(s, st)
  {
    match st
    case Traffic(p) => if s.kernel.Absent? then s else s.(kernel := Present(Process(s.kernel.table, p).table))
    case Tick(t) => s.(now := t)
    case Crash => s.(proc := Down)
    case Reboot => s.(proc := Down, kernel := Absent)
    case Start =>
      var live := Reading(s.kernel, NO_SAMPLE);
      s.(proc := Starting(Adopt(s.db.tree, live), live, s.kernel.Present?, s.kernel.Absent?))
    case Adopted => s.(db := WithTree(s.db, Persist(s.db.tree, s.proc.live)), proc := s.proc.(stored := true))
    case StartOk =>
      var blocked := s.proc.snap.ExpiredSet(s.now);
      s.(kernel := Present(Rendered(s.proc.snap, blocked)), given := s.proc.snap, blocked := blocked,
         proc := Running(Mem(s.proc.snap, s.proc.live, 0, blocked, false, s.db.master), Idle, [], Free))
    case StartFail => s.(proc := Down)
  }

  ghost function RunningNext(s: State, st: Step): State
    requires s.proc.Running? && RunningEnabled(s, st)
  {
    var Running(mem, sampler, batches, lock) := s.proc;
    match st
    case SampleNote => s.(proc := s.proc.(sampler := Noted(mem.gen)))
    case SampleRead => s.(proc := s.proc.(sampler := Holding(sampler.gen, SampleOf(s.kernel.table))))
    case SampleCommit =>
      s.(proc := s.proc.(sampler := Idle, mem := if sampler.gen == mem.gen then mem.(live := sampler.reading) else mem))
    case SampleFail => s.(proc := s.proc.(sampler := Idle))
    case PersistCopy =>
      s.(proc := s.proc.(batches := batches + [mem.live], mem := mem.(snap := Adopt(mem.snap, mem.live))))
    case PersistWrite(i) =>
      s.(db := WithTree(s.db, Persist(s.db.tree, batches[i])),
         proc := s.proc.(batches := batches[..i] + batches[i + 1..]))
    case Begin(op) =>
      var live := Reading(s.kernel, mem.live);
      s.(proc := s.proc.(mem := mem.(live := live), lock := Sampled(op, live)))
    case Fold =>
      s.(db := WithTree(s.db, Persist(s.db.tree, mem.live)), proc := s.proc.(lock := Folded(lock.op, lock.seen)))
    case Change(token) =>
      (match Mutate(lock.op, token, s.now, s.db, mem.snap, mem.live)
       case None => s.(proc := s.proc.(lock := Free))
       case Some((db, live)) =>
         s.(db := db, proc := s.proc.(mem := mem.(live := live), lock := Mutated(lock.op, lock.seen))))
    case Reload =>
      s.(proc := s.proc.(lock := if s.db.tree.Valid() then Loaded(lock.op, lock.seen, s.db.tree) else Free))
    case Abandon => s.(proc := s.proc.(lock := Free))
    case ApplyOk =>
      var blocked := lock.tree.ExpiredSet(s.now);
      s.(kernel := Present(Rendered(lock.tree, blocked)), given := lock.tree, blocked := blocked,
         proc := s.proc.(lock := Applied(lock.op, lock.seen, lock.tree, blocked)))
    case ApplyFail => s.(proc := s.proc.(mem := mem.(snap := lock.tree, unsynced := true), lock := Free))
    case Publish =>
      s.(proc := s.proc.(
        mem := mem.(snap := lock.tree, expired := lock.blocked, unsynced := false, gen := mem.gen + 1), lock := Free))
    case RenewToken(id, token) =>
      s.(db := WithTree(s.db, Renewed(s.db.tree, id, token)),
         proc := s.proc.(mem := mem.(snap := Renewed(mem.snap, id, token))))
    case RenewMaster(token) =>
      s.(db := s.db.(master := token), proc := s.proc.(mem := mem.(master := token)))
  }

  function Renewed(t: Tree, id: int, token: string): Tree {
    if id in t.accounts then UpdateAccount(t, id, t.accounts[id].(token := token)) else t
  }

  // ---------------------------------------------------------------- runs

  ghost predicate Legal(s: State, steps: seq<Step>)
    decreases |steps|
  {
    steps != [] ==> Enabled(s, steps[0]) && Legal(Next(s, steps[0]), steps[1..])
  }

  ghost function After(s: State, steps: seq<Step>): State
    requires Legal(s, steps)
    decreases |steps|
  {
    if steps == [] then s else After(Next(s, steps[0]), steps[1..])
  }

  /** A machine that has just booted, with any sound database. */
  ghost predicate Init(s: State) {
    && Sound(s.db) && s.db.tree.Valid() && TokensDistinct(s.db.tree.accounts, s.db.master)
    && s.kernel.Absent? && s.proc.Down?
  }
}
