/** What every step keeps: the three copies agree on structure, in every interleaving. */
module Structure {
  import opened Model
  import opened Ruleset
  import opened Tables
  import opened Engine

  /** The structural part of a table: everything but the metered values. */
  datatype Shape = Shape(limits: map<int, nat>, counters: set<Key>, chains: map<Direction, seq<Rule>>)

  function ShapeOf(t: Table): Shape { Shape(map id | id in t.quotas :: t.quotas[id].limit, t.counters.Keys, t.chains) }

  function Limits(accounts: map<int, Account>): map<int, nat> {
    map id | id in accounts && accounts[id].tier.HasQuota() :: accounts[id].LimitBytes()
  }

  /** The structure a tree denotes when `blocked` are shut off. */
  ghost function ShapeFor(t: Tree, blocked: set<int>): Shape {
    Shape(Limits(t.accounts), KeysOf(t.ports), Chains(t, blocked))
  }

  lemma RenderedShape(t: Tree, blocked: set<int>)
    ensures ShapeOf(Rendered(t, blocked)) == ShapeFor(t, blocked)
  {
    var r := Rendered(t, blocked);
    MapExt(ShapeOf(r).limits, Limits(t.accounts));
    if SeededCounters(t).Keys != KeysOf(t.ports) { var k := SetDiff(SeededCounters(t).Keys, KeysOf(t.ports)); }
  }

  /** Recorded usage does not show in the structure. */
  lemma ShapeSameDesign(s: Tree, t: Tree, blocked: set<int>)
    requires SameDesign(s, t)
    ensures ShapeFor(s, blocked) == ShapeFor(t, blocked)
  {
    forall id ensures HasQuota(s.accounts, id) == HasQuota(t.accounts, id)
    {
      if id in s.accounts { assert s.accounts[id].Design() == t.accounts[id].Design(); }
    }
    RulesSameDesign(In, Ordered(s.ports), s.accounts, t.accounts, blocked);
    RulesSameDesign(Out, Ordered(s.ports), s.accounts, t.accounts, blocked);
    forall id | id in Limits(s.accounts) ensures s.accounts[id].LimitBytes() == t.accounts[id].LimitBytes() {
      assert s.accounts[id].Design() == t.accounts[id].Design();
    }
    forall id ensures id in Limits(s.accounts) <==> id in Limits(t.accounts) {
      assert HasQuota(s.accounts, id) == HasQuota(t.accounts, id);
    }
    MapExt(Limits(s.accounts), Limits(t.accounts));
  }

  lemma {:induction false} WalkKeepsShape(rules: seq<Rule>, p: Packet, t: Table)
    ensures ShapeOf(Walk(rules, p, t).table) == ShapeOf(t)
    ensures Grew(t, Walk(rules, p, t).table)
  {
    if rules != [] {
      if rules[0].guard.Hits(p) {
        match rules[0].action
        case Drop =>
        case QuotaDrop(a) =>
          ChargeKeepsShape(t, a, p.bytes);
          WalkKeepsShape(rules[1..], p, Charged(t, a, p.bytes));
        case Count(k) =>
          CountKeepsShape(t, k, p.bytes);
          WalkKeepsShape(rules[1..], p, Counted(t, k, p.bytes));
      } else {
        WalkKeepsShape(rules[1..], p, t);
      }
    }
  }

  lemma ChargeKeepsShape(t: Table, account: int, bytes: nat)
    ensures ShapeOf(Charged(t, account, bytes)) == ShapeOf(t)
    ensures Grew(t, Charged(t, account, bytes))
  {
    var u := Charged(t, account, bytes);
    MapExt(ShapeOf(u).limits, ShapeOf(t).limits);
  }

  lemma CountKeepsShape(t: Table, k: Key, bytes: nat)
    ensures ShapeOf(Counted(t, k, bytes)) == ShapeOf(t)
    ensures Grew(t, Counted(t, k, bytes))
  {
    var u := Counted(t, k, bytes);
    if u.counters.Keys != t.counters.Keys { var j := SetDiff(u.counters.Keys, t.counters.Keys); }
  }

  predicate CounterGrew(a: Counter, b: Counter) { a.packets <= b.packets && a.bytes <= b.bytes }

  /** Same objects, no value lower. */
  ghost predicate Grew(a: Table, b: Table) {
    && (forall id :: id in a.quotas <==> id in b.quotas)
    && (forall k :: k in a.counters <==> k in b.counters)
    && (forall id | id in a.quotas :: a.quotas[id].limit == b.quotas[id].limit && a.quotas[id].charged <= b.quotas[id].charged)
    && (forall k | k in a.counters :: CounterGrew(a.counters[k], b.counters[k]))
  }

  /** s reads no value above t's, and reads exactly t's objects. */
  ghost predicate Below(s: Sample, t: Table) {
    && (forall id :: id in s.used <==> id in t.quotas)
    && (forall k :: k in s.counters <==> k in t.counters)
    && (forall id | id in s.used :: s.used[id] <= t.quotas[id].Listed())
    && (forall k | k in s.counters :: CounterGrew(s.counters[k], t.counters[k]))
  }

  lemma BelowGrows(s: Sample, a: Table, b: Table)
    requires Below(s, a) && Grew(a, b)
    ensures Below(s, b)
  {
  }

  // ---------------------------------------------------------------- the invariant

  ghost predicate DbOk(db: Db) {
    Sound(db) && db.tree.Valid() && TokensDistinct(db.tree.accounts, db.master)
  }

  /** The kernel has the structure of what it was last given. */
  ghost predicate KernelOk(s: State) {
    s.kernel.Present? ==>
      && s.given.Keyed() && s.given.Valid()
      && ShapeOf(s.kernel.table) == ShapeFor(s.given, s.blocked)
      && (forall id | id in s.given.accounts :: id < s.db.nextAccount)
      && (forall id | id in s.given.ports :: id < s.db.nextPort)
  }

  /** The kernel enforces the database's accounts and ports, shutting off the accounts memory calls expired. */
  ghost predicate InSync(s: State, mem: Mem) {
    && s.kernel.Present? && ShapeOf(s.kernel.table) == ShapeFor(s.db.tree, mem.expired) && s.blocked == mem.expired
    && (forall id | id in mem.expired :: id in s.db.tree.accounts)
  }

  /** Memory follows the database, and when it claims to be in sync so does the kernel. */
  ghost predicate Settled(s: State, mem: Mem) {
    && SameDesign(mem.snap, s.db.tree)
    && (!mem.unsynced ==> InSync(s, mem))
  }

  ghost predicate LockOk(s: State, mem: Mem, lock: Lock) {
    match lock
    case Mutated(_, _) => true
    case Loaded(_, _, tree) => SameDesign(tree, s.db.tree)
    case Applied(_, _, tree, blocked) => SameDesign(tree, s.db.tree) && s.given == tree && s.blocked == blocked
                                       && (forall id | id in blocked :: id in tree.accounts)
    case _ => Settled(s, mem)
  }

  /** A reading that the generation check would still accept was taken from the current table. */
  ghost predicate SamplerOk(s: State, mem: Mem, sampler: Sampler, lock: Lock) {
    match sampler
    case Idle => true
    case Noted(g) => g <= mem.gen
    case Holding(g, reading) =>
      g <= mem.gen && (g == mem.gen && !lock.Applied? ==> s.kernel.Present? && Below(reading, s.kernel.table))
  }

  ghost predicate ProcOk(s: State) {
    match s.proc
    case Down => true
    case Starting(snap, _, _, _) => SameDesign(snap, s.db.tree)
    case Running(mem, sampler, _, lock) =>
      s.kernel.Present? && mem.master == s.db.master && LockOk(s, mem, lock) && SamplerOk(s, mem, sampler, lock)
  }

  ghost predicate Inv(s: State) { DbOk(s.db) && KernelOk(s) && ProcOk(s) }

  // ---------------------------------------------------------------- mutations keep the database well

  lemma DesignOf(s: Tree, t: Tree, id: int)
    requires SameDesign(s, t) && id in s.accounts
    ensures id in t.accounts && s.accounts[id].tier == t.accounts[id].tier
    ensures s.accounts[id].token == t.accounts[id].token
    ensures s.accounts[id].Design() == t.accounts[id].Design()
  {
    assert s.accounts[id].Design() == t.accounts[id].Design();
  }

  lemma FreshSameDesign(token: string, s: Tree, t: Tree, master: string)
    requires SameDesign(s, t)
    ensures Fresh(token, s.accounts, master) <==> Fresh(token, t.accounts, master)
    ensures TokensDistinct(s.accounts, master) <==> TokensDistinct(t.accounts, master)
  {
    forall id | id in s.accounts ensures s.accounts[id].token == t.accounts[id].token {
      DesignOf(s, t, id);
    }
  }

  lemma ClashesExact(ports: map<int, Port>, except: Option<int>, p: Port)
    ensures !Clashes(ports, except, p) <==> forall id | id in ports && Some(id) != except :: !ports[id].Overlaps(p)
  {
  }

  lemma AddPortOk(db: Db, account: int, start: uint16, end: uint16)
    requires DbOk(db) && account in db.tree.accounts
    requires Port(0, account, start, end).ValidRange() && !Clashes(db.tree.ports, None, Port(0, account, start, end))
    ensures DbOk(InsertPort(db, account, start, end).value)
  {
    InsertPortSound(db, account, start, end);
    var p := Port(db.nextPort, account, start, end);
    AddPortCheckExact(db.tree, p);
    ClashesExact(db.tree.ports, None, Port(0, account, start, end));
    hide Clashes;
    assert forall q: Port :: q.Overlaps(p) == q.Overlaps(Port(0, account, start, end));
  }

  lemma EditPortOk(db: Db, port: int, start: uint16, end: uint16)
    requires DbOk(db) && port in db.tree.ports
    requires Port(port, 0, start, end).ValidRange() && !Clashes(db.tree.ports, Some(port), Port(port, 0, start, end))
    ensures DbOk(WithTree(db, Tables.EditPort(db.tree, port, start, end)))
  {
    EditPortSound(db, port, start, end);
    var p := db.tree.ports[port].(start := start, end := end);
    ClashesExact(db.tree.ports, Some(port), Port(port, 0, start, end));
    hide Clashes;
    assert forall q: Port :: q.Overlaps(p) == q.Overlaps(Port(port, 0, start, end));
    EditPortCheckExact(db.tree, port, start, end);
  }

  lemma MovePortOk(db: Db, port: int, account: int)
    requires DbOk(db) && Tables.MovePort(db.tree, port, account).Some?
    ensures DbOk(WithTree(db, Tables.MovePort(db.tree, port, account).value))
  {
    MovePortSound(db, port, account);
  }

  lemma RowOk(db: Db, id: int, row: Account)
    requires DbOk(db) && id in db.tree.accounts
    requires row.id == id && row.name == db.tree.accounts[id].name && row.token == db.tree.accounts[id].token
    requires row.WellFormed()
    ensures DbOk(WithTree(db, UpdateAccount(db.tree, id, row)))
  {
    UpdateAccountSound(db, id, row);
  }

  lemma DropsOk(db: Db, id: int)
    requires DbOk(db)
    ensures DbOk(WithTree(db, DeleteAccount(db.tree, id)))
    ensures DbOk(WithTree(db, Tables.DeletePort(db.tree, id)))
  {
    DeleteAccountSound(db, id);
    DeletePortSound(db, id);
  }

  lemma InsertOk(db: Db, name: string, tier: Tier, limitGiB: real, anchorDay: int, token: string, now: Time)
    requires DbOk(db) && TierArgsOk(tier, limitGiB, anchorDay) && Fresh(token, db.tree.accounts, db.master)
    requires InsertAccount(db, name, tier, limitGiB, anchorDay, token, 0, now).Some?
    ensures DbOk(InsertAccount(db, name, tier, limitGiB, anchorDay, token, 0, now).value)
  {
    InsertAccountSound(db, name, tier, limitGiB, anchorDay, token, 0, now);
  }

  /** Checked against a snapshot that matches the database, every mutation leaves a database whose
      schema holds, whose full Validate succeeds and whose tokens stay distinct: nothing the later
      validation of a reconcile could refuse. */
  lemma MutateKeepsDb(op: Op, token: string, now: Time, db: Db, snap: Tree, live: Sample)
    requires DbOk(db) && SameDesign(snap, db.tree) && ArgsOk(op)
    requires op.AddAccount? ==> Fresh(token, db.tree.accounts, db.master)
    requires Mutate(op, token, now, db, snap, live).Some?
    ensures var (db', live') := Mutate(op, token, now, db, snap, live).value;
            DbOk(db') && db'.master == db.master && db'.nextAccount >= db.nextAccount && db'.nextPort >= db.nextPort
  {
    match op
    case AddAccount(name, tier, limit, day) => InsertOk(db, name, tier, limit, day, token, now);
    case DropAccount(id, _) => DropsOk(db, id);
    case SetTier(id, tier, limit, day) =>
      if id in db.tree.accounts { RowOk(db, id, db.tree.accounts[id].(tier := tier, limitGiB := limit, anchorDay := day)); }
    case SetExpiry(id, expires) =>
      if id in db.tree.accounts { RowOk(db, id, db.tree.accounts[id].(expires := expires)); }
    case AddPort(account, start, end) => AddPortOk(db, account, start, end);
    case EditPort(port, start, end) => EditPortOk(db, port, start, end);
    case DropPort(port) => DropsOk(db, port);
    case MovePort(port, account) => MovePortOk(db, port, account);
    case SetUsage(id, used) =>
      if id in db.tree.accounts { RowOk(db, id, db.tree.accounts[id].(used := used)); }
    case ResetAccount(id) =>
      if id in db.tree.accounts { RowOk(db, id, db.tree.accounts[id].(used := 0, lastReset := Unix(now))); }
    case Resync =>
  }

  /** Two adds of overlapping ranges never both succeed, in whichever order they run. */
  lemma OverlappingAddsExclude(a: Op, b: Op, db: Db, snap: Tree, live: Sample, now: Time, db': Db, snap': Tree,
                               live': Sample)
    requires DbOk(db) && SameDesign(snap, db.tree)
    requires a.AddPort? && b.AddPort? && ArgsOk(a) && ArgsOk(b)
    requires Port(0, a.account, a.start, a.end).Overlaps(Port(0, b.account, b.start, b.end))
    requires Mutate(a, "", now, db, snap, live) == Some((db', live'))
    requires SameDesign(snap', db'.tree)
    ensures Mutate(b, "", now, db', snap', live') == None
  {
    assert snap'.ports == db'.tree.ports && db.nextPort in db'.tree.ports;
    assert db'.tree.ports[db.nextPort].Overlaps(Port(0, b.account, b.start, b.end));
    assert db.nextPort > 0;
  }

  // ---------------------------------------------------------------- one step at a time

  lemma PersistOk(db: Db, s: Sample)
    requires DbOk(db)
    ensures DbOk(WithTree(db, Persist(db.tree, s)))
    ensures SameDesign(Persist(db.tree, s), db.tree)
  {
    PersistKeeps(db.tree, s);
    SameDesignKeeps(Persist(db.tree, s), db.tree);
    SoundSameDesign(db, Persist(db.tree, s));
    FreshSameDesign("", Persist(db.tree, s), db.tree, db.master);
  }

  lemma AdoptKeeps(t: Tree, s: Sample)
    ensures SameDesign(Adopt(t, s), t)
  {
    SetExt(Adopt(t, s).accounts.Keys, t.accounts.Keys);
  }

  lemma RenewedOk(db: Db, snap: Tree, id: int, token: string)
    requires DbOk(db) && SameDesign(snap, db.tree) && Fresh(token, db.tree.accounts, db.master)
    ensures DbOk(WithTree(db, Renewed(db.tree, id, token)))
    ensures SameDesign(Renewed(snap, id, token), Renewed(db.tree, id, token))
  {
    if id in db.tree.accounts {
      DesignOf(snap, db.tree, id);
      UpdateAccountSound(db, id, db.tree.accounts[id].(token := token));
      var t := Renewed(db.tree, id, token);
      assert t.accounts[id].WellFormed() by { assert db.tree.accounts[id].WellFormed(); }
      assert Renewed(snap, id, token).accounts[id].Design() == t.accounts[id].Design();
    }
  }

  lemma DesignTransitive(a: Tree, b: Tree, c: Tree)
    requires SameDesign(a, b) && SameDesign(b, c)
    ensures SameDesign(a, c)
  {
    forall id | id in a.accounts ensures a.accounts[id].Design() == c.accounts[id].Design() {
      assert a.accounts[id].Design() == b.accounts[id].Design() == c.accounts[id].Design();
    }
  }

  // ---------------------------------------------------------------- which mutations are accepted

  /** The database's tree with one more port. */
  function Grown(db: Db, account: int, start: uint16, end: uint16): Tree {
    db.tree.(ports := db.tree.ports[db.nextPort := Port(db.nextPort, account, start, end)])
  }

  /** A range is accepted exactly when the account exists and the result passes full validation: any range
      that overlaps none. */
  lemma AddPortAccepted(op: Op, token: string, now: Time, db: Db, snap: Tree, live: Sample)
    requires DbOk(db) && SameDesign(snap, db.tree) && op.AddPort?
    requires 1 <= op.start <= op.end
    ensures Mutate(op, token, now, db, snap, live).Some? <==> Grown(db, op.account, op.start, op.end).Valid()
    ensures Mutate(op, token, now, db, snap, live).Some? <==>
            op.account in db.tree.accounts && forall id | id in db.tree.ports ::
              forall n | Between(op.start, n, op.end) :: !Between(db.tree.ports[id].start, n, db.tree.ports[id].end)
  {
    var p, q := Port(db.nextPort, op.account, op.start, op.end), Port(0, op.account, op.start, op.end);
    AddPortCheckExact(db.tree, p);
    ClashesExact(db.tree.ports, None, q);
    forall id | id in db.tree.ports
      ensures db.tree.ports[id].Overlaps(p) == db.tree.ports[id].Overlaps(q)
      ensures !db.tree.ports[id].Overlaps(q) <==>
              forall n | Between(op.start, n, op.end) :: !Between(db.tree.ports[id].start, n, db.tree.ports[id].end)
    {
      OverlapsExact(db.tree.ports[id], q);
    }
    hide Clashes, Between, Port.Overlaps, Sound;
  }

  /** An edit likewise: the port exists and the new range overlaps no other port's; its own it may. */
  lemma EditPortAccepted(op: Op, token: string, now: Time, db: Db, snap: Tree, live: Sample)
    requires DbOk(db) && SameDesign(snap, db.tree) && op.EditPort?
    requires 1 <= op.start <= op.end
    ensures Mutate(op, token, now, db, snap, live).Some? <==>
            op.port in db.tree.ports && Tables.EditPort(db.tree, op.port, op.start, op.end).Valid()
    ensures Mutate(op, token, now, db, snap, live).Some? <==>
            op.port in db.tree.ports && forall id | id in db.tree.ports && id != op.port ::
              forall n | Between(op.start, n, op.end) :: !Between(db.tree.ports[id].start, n, db.tree.ports[id].end)
  {
    if op.port in db.tree.ports {
      var q := Port(op.port, 0, op.start, op.end);
      var p := db.tree.ports[op.port].(start := op.start, end := op.end);
      EditPortCheckExact(db.tree, op.port, op.start, op.end);
      ClashesExact(db.tree.ports, Some(op.port), q);
      forall id | id in db.tree.ports && id != op.port
        ensures db.tree.ports[id].Overlaps(p) == db.tree.ports[id].Overlaps(q)
        ensures !db.tree.ports[id].Overlaps(q) <==>
                forall n | Between(op.start, n, op.end) :: !Between(db.tree.ports[id].start, n, db.tree.ports[id].end)
      {
        OverlapsExact(db.tree.ports[id], q);
      }
    }
    hide Clashes, Between, Port.Overlaps, Sound;
  }

  /** Every other mutation is refused for one reason only: a taken name, an account that still owns ports, an
      expiry on an account without a quota, a move to no account. The rest always go through. */
  lemma MutateAccepted(op: Op, token: string, now: Time, db: Db, snap: Tree, live: Sample)
    requires DbOk(db) && SameDesign(snap, db.tree) && !op.AddPort? && !op.EditPort?
    ensures Mutate(op, token, now, db, snap, live).Some? <==>
            match op
            case AddAccount(name, _, _, _) => forall id | id in db.tree.accounts :: db.tree.accounts[id].name != name
            case DropAccount(id, cascade) => cascade || forall p | p in db.tree.ports :: db.tree.ports[p].account != id
            case SetExpiry(id, expires) =>
              id in db.tree.accounts
              && (expires == 0 || db.tree.accounts[id].tier == Monthly || db.tree.accounts[id].tier == OneShot)
            case MovePort(port, account) => port !in db.tree.ports || account in db.tree.accounts
            case _ => true
  {
    match op
    case DropAccount(id, cascade) => DropAccepted(id, cascade, token, now, db, snap, live);
    case SetExpiry(id, _) => if id in db.tree.accounts { DesignOf(snap, db.tree, id); }
    case _ =>
  }

  lemma DropAccepted(id: int, cascade: bool, token: string, now: Time, db: Db, snap: Tree, live: Sample)
    requires snap.ports == db.tree.ports
    ensures Mutate(DropAccount(id, cascade), token, now, db, snap, live).Some? <==>
            cascade || forall p | p in db.tree.ports :: db.tree.ports[p].account != id
  {
    var owned := OwnedBy(db.tree.ports, id);
    if owned != {} { var p := Member(owned); }
    assert forall p | p in db.tree.ports && db.tree.ports[p].account == id :: p in owned;
  }
}
