/** The controller as an object: each lock section of the source is a method, proved to be a step of
    the machine of Engine, and the whole of a reconcile to be a run of it. What is proved about all
    runs of the machine therefore holds of these methods, wherever other actors' steps fall between. */
module Control {
  import opened Model
  import opened Ruleset
  import opened Names
  import opened Tokens
  import opened Engine
  import opened Structure
  import opened Invariant
  import opened Guarantees
  import opened Runs
  import opened Views
  import Compiler
  import Store
  import Billing
  import T = Tables

  /** What nft prints for the kernel's table, when there is one. */
  ghost predicate Prints(listing: seq<Item>, k: Kernel) {
    k.Present? ==> Int64Ids(k.table) && IsListing(listing, k.table)
  }

  class Controller {
    const store: Store.Database
    const nft: Compiler.Manager
    var snap: Snapshot
    var live: Sample
    var gen: nat
    var expired: set<int>
    var unsynced: bool
    var masterToken: string
    ghost var tree: Tree

    /** The guarded fields, as the machine sees them. */
    ghost function Memory(): Mem
      reads this
    {
      Mem(tree, live, gen, expired, unsynced, masterToken)
    }

    ghost predicate Listed()
      reads this
    {
      Lists(snap, tree) && tree.Keyed()
    }

    /** The object, its database and its kernel are those of the machine state s. */
    ghost predicate Shows(s: State)
      reads this, store, nft
    {
      && Listed() && s.db == store.Rows() && s.kernel == nft.kernel
      && s.proc.Running? && s.proc.mem == Memory()
    }

    ghost predicate ShowsStart(s: State)
      reads this, store, nft
    {
      && Listed() && s.db == store.Rows() && s.kernel == nft.kernel && masterToken == s.db.master
      && gen == 0 && expired == {} && !unsynced
      && s.proc.Starting? && s.proc.snap == tree && s.proc.live == live
    }

    // -------------------------------------------------------------- start-up

    constructor (store: Store.Database, nft: Compiler.Manager)
      ensures this.store == store && this.nft == nft
      ensures live == NO_SAMPLE && gen == 0 && expired == {} && !unsynced
    {
      this.store, this.nft := store, nft;
      snap, tree := Snapshot([], [], map[], ZERO_TIME), Tree(map[], map[], map[]);
      live, gen, expired, unsynced, masterToken := NO_SAMPLE, 0, {}, false, "";
    }

    /** Builds a controller over the database and whatever table the kernel has; null is an error. */
    static method New(store: Store.Database, nft: Compiler.Manager, listing: seq<Item>, now: Time, refused: bool,
                      ghost s: State)
      returns (c: Controller?, ghost steps: seq<Step>)
      requires Good(s) && s.proc.Down? && s.now == now
      requires s.db == store.Rows() && s.kernel == nft.kernel && Prints(listing, nft.kernel)
      modifies store, nft
      ensures c == null <==> refused
      ensures steps == [Start] + (if s.kernel.Present? then [Adopted] else []) + [if refused then StartFail else StartOk]
      ensures Legal(s, steps) && Good(After(s, steps))
      ensures store.Rows() == After(s, steps).db && nft.kernel == After(s, steps).kernel
      ensures c != null ==> fresh(c) && c.store == store && c.nft == nft && c.Shows(After(s, steps))
    {
      hide Good, Next, Enabled, Lists, IsListing, Int64Ids, Tree.Valid;
      Starts(s);
      var k := new Controller(store, nft);
      var hot := k.Prepare(listing, s);
      steps := [];
      ghost var cur := Extend(s, steps, s, Start);
      steps := steps + [Start];
      if hot {
        k.StoreAdopted(cur);
        cur := Extend(s, steps, cur, Adopted);
        steps := steps + [Adopted];
      }
      StartingValid(cur);
      StartsUp(cur);
      var ok := k.FirstApply(now, refused, cur);
      ghost var last := if refused then StartFail else StartOk;
      cur := Extend(s, steps, cur, last);
      steps := steps + [last];
      c := if ok then k else null;
    }

    /** Loads the database and samples the table if there is one. */
    method Prepare(listing: seq<Item>, ghost s: State) returns (hot: bool)
      requires Good(s) && s.proc.Down?
      requires s.db == store.Rows() && s.kernel == nft.kernel && Prints(listing, nft.kernel)
      requires live == NO_SAMPLE && gen == 0 && expired == {} && !unsynced
      modifies this
      ensures ShowsStart(Next(s, Start)) && hot == Next(s, Start).proc.hot
    {
      hide Good, Lists, Tree.Keyed, SampleOf, Adopt, IsListing, Int64Ids;
      GoodRows(s);
      snap := store.Load();
      tree := store.Rows().tree;
      masterToken := store.master;
      hot := nft.TableExists();
      if hot {
        var seen := nft.Sample(listing);
        FoldIntoSnapshot(seen);
        live := seen;
      } else {
        AdoptNothing(tree);
      }
    }

    method StoreAdopted(ghost s: State)
      requires ShowsStart(s) && !s.proc.stored
      modifies store
      ensures ShowsStart(Next(s, Adopted))
    {
      WriteBatch(live);
    }

    method FirstApply(now: Time, refused: bool, ghost s: State) returns (ok: bool)
      requires ShowsStart(s) && s.now == now && s.proc.stored && s.proc.snap.Valid()
      modifies this, nft
      ensures ok <==> !refused
      ensures ok ==> Shows(Next(s, StartOk))
      ensures !ok ==> nft.kernel == old(nft.kernel)
    {
      hide Lists, Rendered, Tree.Valid, Tree.ExpiredSet, Next, Enabled;
      StartsUp(s);
      StampLists(snap, now, tree);
      ok, snap := ApplyLocked(snap, now, refused, tree);
    }

    // -------------------------------------------------------------- shared pieces

    /** Overwrites the snapshot's rows by a sample's figures, in place. */
    method FoldIntoSnapshot(seen: Sample)
      requires Listed()
      modifies this`snap, this`tree
      ensures Listed() && tree == Adopt(old(tree), seen)
    {
      ghost var was := tree.accounts;
      var rows := snap.accounts;
      for i := 0 to |rows|
        invariant |rows| == |snap.accounts| && snap == old(snap)
        invariant forall j | 0 <= j < i :: rows[j] == WithReading(snap.accounts[j], seen)
        invariant forall j | i <= j < |rows| :: rows[j] == snap.accounts[j]
      {
        if rows[i].id in seen.used {
          rows := rows[i := rows[i].(used := seen.used[rows[i].id])];
        }
      }
      ReadingLists(snap.accounts, rows, was, seen);
      snap := snap.(accounts := rows, counters := snap.counters + seen.counters);
      tree := Adopt(tree, seen);
    }

    /** Writes a batch, skipping the transaction when there is nothing in it. */
    method WriteBatch(batch: Sample)
      modifies store
      ensures store.Rows() == old(T.WithTree(store.Rows(), T.Persist(store.Rows().tree, batch)))
    {
      if |batch.used| > 0 || |batch.counters| > 0 {
        store.PersistUsage(batch);
      } else {
        PersistEmpty(store.Rows().tree, batch);
      }
    }

    /** Stamps the snapshot with the time, gives it to the kernel and notes who was shut off. */
    method ApplyLocked(desired: Snapshot, now: Time, refused: bool, ghost t: Tree) returns (ok: bool, stamped: Snapshot)
      requires Lists(desired, t) && t.Keyed()
      modifies this`expired, nft
      ensures stamped == desired.(now := now) && (ok <==> t.Valid() && !refused)
      ensures nft.kernel == if ok then Present(Rendered(t, t.ExpiredSet(now))) else old(nft.kernel)
      ensures expired == if ok then t.ExpiredSet(now) else old(expired)
    {
      stamped := desired.(now := now);
      ok := nft.Apply(stamped, refused, t);
      if ok { expired := ExpiredIn(stamped, t); }
    }

    static method ExpiredIn(s: Snapshot, ghost t: Tree) returns (ids: set<int>)
      requires Lists(s, t)
      ensures ids == t.ExpiredSet(s.now)
    {
      ids := {};
      for i := 0 to |s.accounts|
        invariant forall id | id in ids :: id in t.accounts && t.accounts[id].ExpiredAt(s.now)
        invariant forall j | 0 <= j < i && s.accounts[j].ExpiredAt(s.now) :: s.accounts[j].id in ids
      {
        if s.accounts[i].ExpiredAt(s.now) { ids := ids + {s.accounts[i].id}; }
      }
      forall id | id in t.ExpiredSet(s.now) ensures id in ids {
        assert HasAccount(s.accounts, id);
      }
      SetExt(ids, t.ExpiredSet(s.now));
    }

    method FindAccount(id: int) returns (found: Option<Account>)
      requires Listed()
      ensures found == if id in tree.accounts then Some(tree.accounts[id]) else None
    {
      for i := 0 to |snap.accounts|
        invariant forall j | 0 <= j < i :: snap.accounts[j].id != id
      {
        if snap.accounts[i].id == id { return Some(snap.accounts[i]); }
      }
      assert id in tree.accounts ==> HasAccount(snap.accounts, id);
      return None;
    }

    /** A token no account has and the master is not; None when the random source fails. */
    method UniqueTokenLocked(r: Random) returns (token: Option<string>)
      requires Listed()
      modifies r
      ensures token.Some? ==> IsToken(token.value) && T.Fresh(token.value, tree.accounts, masterToken)
      ensures token.None? ==> r.bytes == []
    {
      var used: set<string> := if masterToken != "" then {masterToken} else {};
      for i := 0 to |snap.accounts|
        invariant masterToken != "" ==> masterToken in used
        invariant forall j | 0 <= j < i && snap.accounts[j].token != "" :: snap.accounts[j].token in used
      {
        if snap.accounts[i].token != "" { used := used + {snap.accounts[i].token}; }
      }
      token := UniqueToken(r, used);
      forall id | id in tree.accounts ensures tree.accounts[id].token == "" || tree.accounts[id].token in used {
        assert HasAccount(snap.accounts, id);
      }
    }

    // -------------------------------------------------------------- the sampler and the persister

    method NoteGeneration(ghost s: State) returns (start: nat)
      requires Shows(s) && Enabled(s, SampleNote)
      ensures start == s.proc.mem.gen && Shows(Next(s, SampleNote)) && Next(s, SampleNote).proc.sampler == Noted(start)
    {
      start := gen;
    }

    /** A reading begun at generation `start` is committed unless a rebuild intervened. */
    method CommitSample(start: nat, reading: Sample, ghost s: State)
      requires Shows(s) && Enabled(s, SampleCommit) && s.proc.sampler == Holding(start, reading)
      modifies this`live
      ensures Shows(Next(s, SampleCommit))
    {
      if gen == start { live := reading; }
    }

    /** The persister's lock section: copies the live figures and folds them into memory. */
    method CopyLive(ghost s: State) returns (batch: Sample)
      requires Shows(s) && Enabled(s, PersistCopy)
      modifies this`snap, this`tree
      ensures Shows(Next(s, PersistCopy)) && Next(s, PersistCopy).proc.batches == s.proc.batches + [batch]
    {
      batch := live;
      FoldIntoSnapshot(batch);
    }

    /** The persister's write, outside the lock: it may come at any later moment. */
    method WriteCopied(batch: Sample, ghost i: nat, ghost s: State)
      requires Shows(s) && Enabled(s, PersistWrite(i)) && s.proc.batches[i] == batch
      modifies store
      ensures Shows(Next(s, PersistWrite(i)))
    {
      WriteBatch(batch);
    }

    // -------------------------------------------------------------- reconcile

    method TakeSample(listing: seq<Item>, ghost op: Op, ghost s: State)
      requires Shows(s) && Enabled(s, Begin(op)) && Prints(listing, nft.kernel)
      modifies this`live
      ensures Shows(Next(s, Begin(op)))
    {
      var there := nft.TableExists();
      if there { live := nft.Sample(listing); }
    }

    method FoldLive(ghost s: State)
      requires Shows(s) && Enabled(s, Fold)
      modifies store
      ensures Shows(Next(s, Fold))
    {
      WriteBatch(live);
    }

    /** Reloads and validates the desired state. */
    method Reloaded(ghost s: State) returns (desired: Snapshot)
      requires Shows(s) && Good(s) && s.proc.lock.Mutated?
      ensures Enabled(s, Reload)
      ensures Next(s, Reload).proc.lock.Loaded? && Shows(Next(s, Reload))
      ensures Lists(desired, Next(s, Reload).proc.lock.tree) && Next(s, Reload).proc.lock.tree.Keyed()
      ensures desired.WellFormed()
    {
      desired := store.Load();
      KeepReload(s);
      WellFormedIsValid(desired, s.db.tree);
      var refusal := Validate(desired);
      assert refusal.None?;
    }

    /** Applies the reloaded state and publishes it, or owns up to being out of step with it. */
    method Rebuild(desired: Snapshot, now: Time, refused: bool, ghost s: State) returns (ok: bool)
      requires Shows(s) && s.proc.lock.Loaded? && s.now == now
      requires Lists(desired, s.proc.lock.tree) && s.proc.lock.tree.Keyed() && s.proc.lock.tree.Valid()
      modifies this, nft
      ensures ok <==> !refused
      ensures ok ==> Shows(Next(Next(s, ApplyOk), Publish)) && !unsynced && expired == tree.ExpiredSet(now)
      ensures !ok ==> Shows(Next(s, ApplyFail))
    {
      hide Lists, Rendered, Tree.Valid, Tree.ExpiredSet, Next, Enabled;
      Fails(s);
      Applies(s);
      StampLists(desired, now, s.proc.lock.tree);
      var stamped;
      tree := s.proc.lock.tree;
      ok, stamped := ApplyLocked(desired, now, refused, tree);
      snap := stamped;
      if !ok {
        unsynced := true;
      } else {
        unsynced := false;
        gen := gen + 1;
      }
    }

    /** One reconcile, run without interference, is this run of the machine: rejected exactly when the
        mutation is, and otherwise applied unless nft fails. */
    method Reconcile(op: Op, r: Random, listing: seq<Item>, now: Time, later: Time, refused: bool, ghost s: State)
      returns (outcome: Ending, ghost token: string)
      requires Shows(s) && Good(s) && s.proc.lock.Free? && ArgsOk(op) && s.now == now && Prints(listing, nft.kernel)
      modifies this, store, nft, r
      ensures var steps := ReconcileSteps(op, token, later, outcome);
              Legal(s, steps) && Shows(After(s, steps)) && Good(After(s, steps)) && After(s, steps).proc.lock.Free?
      ensures outcome.Unapplied? ==> refused
      ensures outcome.Done? ==> !refused
      ensures outcome.NoToken? ==> op.AddAccount? && r.bytes == []
      ensures outcome.Rejected? ==> !op.Resync?
      ensures outcome.Done? ==> !unsynced && expired == tree.ExpiredSet(later)
      ensures !op.AddAccount? ==> token == ""
    {
      hide Good, Next, Enabled, Tree.Valid, Lists, IsListing, Int64Ids, ArgsOk;
      ghost var steps: seq<Step> := [];
      Begins(s, op);
      TakeSample(listing, op, s);
      ghost var cur := Extend(s, steps, s, Begin(op));
      steps := steps + [Begin(op)];
      Folds(cur);
      FoldLive(cur);
      cur := Extend(s, steps, cur, Fold);
      steps := steps + [Fold];
      var result;
      result, token := Mutation(op, r, now, cur);
      ghost var step := ChangeStep(result, token);
      cur := Extend(s, steps, cur, step);
      steps := steps + [step];
      if !result.Done? {
        assert steps == ReconcileSteps(op, token, later, result);
        return result, token;
      }
      var ok;
      ok, cur, steps := Finish(s, cur, steps, later, refused);
      outcome := if ok then Done else Unapplied;
      assert steps == ReconcileSteps(op, token, later, outcome);
    }

    /** The second half of a reconcile: reload, validate, apply and publish. */
    method Finish(ghost s: State, ghost mid: State, ghost before: seq<Step>, later: Time, refused: bool)
      returns (ok: bool, ghost cur: State, ghost steps: seq<Step>)
      requires Legal(s, before) && After(s, before) == mid && Good(mid) && Shows(mid) && mid.proc.lock.Mutated?
      modifies this, nft
      ensures ok <==> !refused
      ensures steps == before + if ok then [Reload, Tick(later), ApplyOk, Publish] else [Reload, Tick(later), ApplyFail]
      ensures Legal(s, steps) && After(s, steps) == cur && Good(cur) && Shows(cur) && cur.proc.lock.Free?
      ensures ok ==> !unsynced && expired == tree.ExpiredSet(later)
    {
      hide Good, Next, Enabled, Tree.Valid, Lists;
      var desired := Reloaded(mid);
      cur := Extend(s, before, mid, Reload);
      steps := before + [Reload];
      Ticks(cur, later);
      cur := Extend(s, steps, cur, Tick(later));
      steps := steps + [Tick(later)];
      LoadedValid(cur);
      Applies(cur);
      Fails(cur);
      ok := Rebuild(desired, later, refused, cur);
      if ok {
        cur := Extend(s, steps, cur, ApplyOk);
        cur := Extend(s, steps + [ApplyOk], cur, Publish);
        steps := steps + [ApplyOk] + [Publish];
      } else {
        cur := Extend(s, steps, cur, ApplyFail);
        steps := steps + [ApplyFail];
      }
    }

    // -------------------------------------------------------------- the mutations

    /** What a mutation's code must leave behind. */
    ghost predicate Left(ok: bool, result: Option<(T.Db, Sample)>, db: T.Db, was: Sample)
      reads this, store
    {
      if ok then result == Some((store.Rows(), live)) else result == None && store.Rows() == db && live == was
    }

    method Mutation(op: Op, r: Random, now: Time, ghost s: State) returns (result: Ending, ghost token: string)
      requires Shows(s) && Good(s) && s.proc.lock.Folded? && s.proc.lock.op == op && s.now == now
      modifies this`live, store, r
      ensures Enabled(s, ChangeStep(result, token)) && Shows(Next(s, ChangeStep(result, token)))
      ensures Next(s, ChangeStep(result, token)).proc.lock == if result.Done? then Lock.Mutated(op, s.proc.lock.seen) else Free
      ensures !result.Unapplied? && (result.Rejected? ==> !op.Resync?) && (!op.AddAccount? ==> token == "")
      ensures result.NoToken? ==> op.AddAccount? && r.bytes == []
    {
      hide Good, Lists, Tree.Keyed, Mutate, Next, Enabled;
      Changes(s);
      ResyncChanges("", now, s.db, s.proc.mem.snap, s.proc.mem.live);
      var drawn := Some("");
      if op.AddAccount? {
        drawn := UniqueTokenLocked(r);
        if drawn.None? { return NoToken, ""; }
      }
      token := drawn.value;
      var ok := RunMutation(op, drawn.value, now);
      result := if ok then Done else Rejected;
    }

    method RunMutation(op: Op, token: string, now: Time) returns (ok: bool)
      requires Listed()
      modifies this`live, store
      ensures Left(ok, Mutate(op, token, now, old(store.Rows()), tree, old(live)), old(store.Rows()), old(live))
    {
      match op
      case AddAccount(name, tier, limit, day) =>
        var id := store.CreateAccount(name, tier, limit, day, token, 0, now);
        ok := id.Some?;
      case DropAccount(id, cascade) => ok := MutateDropAccount(id, cascade, token, now);
      case SetTier(id, tier, limit, day) =>
        store.SetTier(id, tier, limit, day);
        ok := true;
      case SetExpiry(id, expires) => ok := MutateExpiry(id, expires, token, now);
      case AddPort(account, start, end) => ok := MutateAddPort(account, start, end, token, now);
      case EditPort(port, start, end) => ok := MutateEditPort(port, start, end, token, now);
      case DropPort(port) =>
        store.DeletePort(port);
        ok := true;
      case MovePort(port, account) => ok := store.MovePort(port, account);
      case SetUsage(id, used) =>
        store.SetUsage(id, used);
        live := live.(used := live.used[id := used]);
        ok := true;
      case ResetAccount(id) =>
        store.MarkReset(id, now);
        live := live.(used := live.used[id := 0]);
        ok := true;
      case Resync => ok := true;
    }

    method MutateDropAccount(id: int, cascade: bool, ghost token: string, ghost now: Time) returns (ok: bool)
      requires Listed()
      modifies store
      ensures Left(ok, Mutate(DropAccount(id, cascade), token, now, old(store.Rows()), tree, live), old(store.Rows()), live)
    {
      var owned := PortsFor(id);
      if |owned| > 0 && !cascade { return false; }
      store.DeleteAccount(id);
      return true;
    }

    /** The account's ports, in snapshot order. */
    method PortsFor(id: int) returns (owned: seq<Port>)
      requires Listed()
      ensures owned == OwnedIn(snap.ports, id) && (owned == [] <==> T.OwnedBy(tree.ports, id) == {})
    {
      owned := [];
      for i := 0 to |snap.ports|
        invariant owned == OwnedIn(snap.ports[..i], id)
      {
        assert snap.ports[..i + 1] == snap.ports[..i] + [snap.ports[i]];
        OwnedAppend(snap.ports[..i], snap.ports[i], id);
        if snap.ports[i].account == id { owned := owned + [snap.ports[i]]; }
      }
      assert snap.ports[..|snap.ports|] == snap.ports;
      OwnedEmpty(snap.ports, tree.ports, id);
    }

    method MutateExpiry(id: int, expires: int, ghost token: string, ghost now: Time) returns (ok: bool)
      requires Listed()
      modifies store
      ensures Left(ok, Mutate(Op.SetExpiry(id, expires), token, now, old(store.Rows()), tree, live), old(store.Rows()), live)
    {
      var a := FindAccount(id);
      if a.None? || (expires != 0 && !a.value.tier.HasQuota()) { return false; }
      store.SetExpiry(id, expires);
      return true;
    }

    method MutateAddPort(account: int, start: uint16, end: uint16, ghost token: string,
                         ghost now: Time) returns (ok: bool)
      requires Listed()
      modifies store
      ensures Left(ok, Mutate(Op.AddPort(account, start, end), token, now, old(store.Rows()), tree, live), old(store.Rows()), live)
    {
      var p := Port(0, account, start, end);
      var a := FindAccount(account);
      if a.None? { return false; }
      for i := 0 to |snap.ports|
        invariant forall j | 0 <= j < i :: !snap.ports[j].Overlaps(p)
      {
        if snap.ports[i].Overlaps(p) {
          assert tree.ports[snap.ports[i].id].Overlaps(p);
          return false;
        }
      }
      NoClash(snap.ports, tree.ports, None, p);
      var id := store.CreatePort(account, start, end);
      return id.Some?;
    }

    method MutateEditPort(port: int, start: uint16, end: uint16, ghost token: string,
                          ghost now: Time) returns (ok: bool)
      requires Listed()
      modifies store
      ensures Left(ok, Mutate(Op.EditPort(port, start, end), token, now, old(store.Rows()), tree, live), old(store.Rows()), live)
    {
      var p := Port(port, 0, start, end);
      var found := false;
      for i := 0 to |snap.ports|
        invariant forall j | 0 <= j < i :: Some(snap.ports[j].id) != Some(port) ==> !snap.ports[j].Overlaps(p)
        invariant (found <==> HasPort(snap.ports[..i], port)) && unchanged(store)
      {
        Compiler.PrefixPorts(snap.ports, i);
        if snap.ports[i].id == port {
          found := true;
        } else if snap.ports[i].Overlaps(p) {
          assert tree.ports[snap.ports[i].id].Overlaps(p);
          return false;
        }
      }
      assert snap.ports[..|snap.ports|] == snap.ports;
      NoClash(snap.ports, tree.ports, Some(port), p);
      if !found { return false; }
      store.EditPort(port, start, end);
      return true;
    }

    // -------------------------------------------------------------- requests

    /** A request as the RPC surface makes it: argument checks, then the checks some operations do
        under a lock section of their own, then the reconcile. None is an error before the reconcile. */
    method Request(asked: Op, r: Random, listing: seq<Item>, now: Time, later: Time, refused: bool, ghost s: State)
      returns (outcome: Option<Ending>, ghost token: string)
      requires Shows(s) && Good(s) && s.proc.lock.Free? && s.now == now && Prints(listing, nft.kernel)
      modifies this, store, nft, r
      ensures outcome.None? <==> !ArgsOk(Spelled(asked)) || !Admitted(Spelled(asked), s.proc.mem.snap)
      ensures outcome.None? ==> Shows(s) && r.bytes == old(r.bytes)
      ensures outcome.Some? ==>
                var steps := ReconcileSteps(Spelled(asked), token, later, outcome.value);
                Legal(s, steps) && Shows(After(s, steps)) && Good(After(s, steps)) && After(s, steps).proc.lock.Free?
      ensures outcome == Some(Unapplied) ==> refused
      ensures outcome == Some(Done) ==> !refused
    {
      hide Good, Legal, After, Lists, ArgsOk;
      var op := Spelled(asked);
      if !ArgsOk(op) { return None, ""; }
      var admitted := true;
      if op.MovePort? {
        admitted := CanMove(op.port, op.account);
      } else if op.SetUsage? || op.ResetAccount? {
        admitted := CanMeter(op.account);
      }
      if !admitted { return None, ""; }
      var o;
      o, token := Reconcile(op, r, listing, now, later, refused, s);
      outcome := Some(o);
    }

    method CanMove(port: int, account: int) returns (ok: bool)
      requires Listed()
      ensures ok <==> port in tree.ports && account in tree.accounts
    {
      var a := FindAccount(account);
      var found := false;
      for i := 0 to |snap.ports|
        invariant !found ==> forall j | 0 <= j < i :: snap.ports[j].id != port
        invariant found ==> port in tree.ports
      {
        if snap.ports[i].id == port {
          found := true;
          break;
        }
      }
      assert port in tree.ports ==> HasPort(snap.ports, port);
      return found && a.Some?;
    }

    method CanMeter(account: int) returns (ok: bool)
      requires Listed()
      ensures ok <==> HasQuota(tree.accounts, account)
    {
      var a := FindAccount(account);
      return a.Some? && a.value.tier.HasQuota();
    }

    // -------------------------------------------------------------- the clock

    /** syncKernel's comparison, in memory only. */
    method SyncNeeded(now: Time) returns (changed: bool)
      requires Listed()
      ensures changed <==> NeedsSync(Memory(), now)
    {
      changed := unsynced;
      for i := 0 to |snap.accounts|
        invariant changed <==> unsynced || exists j :: 0 <= j < i && ExpiryMoved(snap.accounts[j], now, expired)
      {
        if ExpiryMoved(snap.accounts[i], now, expired) { changed := true; }
      }
      SyncListed(snap.accounts, tree.accounts, now, expired);
    }

    /** A check and, when it finds the kernel behind, a resync: afterwards a second check at the instant
        of the apply finds nothing to do. */
    method SyncKernel(r: Random, listing: seq<Item>, now: Time, later: Time, refused: bool, ghost s: State)
      returns (outcome: Option<Ending>)
      requires Shows(s) && Good(s) && s.proc.lock.Free? && s.now == now && Prints(listing, nft.kernel)
      modifies this, store, nft, r
      ensures outcome.None? <==> !NeedsSync(s.proc.mem, now)
      ensures outcome.None? ==> Shows(s)
      ensures outcome.Some? ==>
                var steps := ReconcileSteps(Resync, "", later, outcome.value);
                Legal(s, steps) && Shows(After(s, steps)) && Good(After(s, steps)) && After(s, steps).proc.lock.Free?
      ensures outcome.Some? ==> outcome == Some(if refused then Unapplied else Done)
      ensures outcome == Some(Done) ==> !NeedsSync(Memory(), later)
    {
      hide Good, Lists, Legal, After, Enabled, Next;
      var changed := SyncNeeded(now);
      if !changed { return None; }
      var o;
      ghost var token;
      o, token := Reconcile(Resync, r, listing, now, later, refused, s);
      outcome := Some(o);
    }

    /** The accounts an automatic reset is due for, in order. */
    method DueAccounts(now: Time, offset: int) returns (due: seq<int>)
      requires Listed()
      ensures forall id :: id in due <==>
                id in tree.accounts && tree.accounts[id].tier == Monthly
                && Billing.BoundaryWithin(tree.accounts[id].lastReset * 1_000_000_000, now, tree.accounts[id].anchorDay, offset)
      ensures forall i, j | 0 <= i < j < |due| :: due[i] != due[j]
    {
      hide Billing.NextBoundary;
      due := [];
      for i := 0 to |snap.accounts|
        invariant forall id | id in due :: exists j :: 0 <= j < i && snap.accounts[j].id == id && ResetDue(snap.accounts[j], now, offset)
        invariant forall j | 0 <= j < i && ResetDue(snap.accounts[j], now, offset) :: snap.accounts[j].id in due
        invariant forall k, l | 0 <= k < l < |due| :: due[k] != due[l]
      {
        var a := snap.accounts[i];
        if a.tier.Resets() {
          var boundary := Billing.NextReset(a.lastReset * SECOND, a.anchorDay, offset);
          assert a.id !in due;
          if now >= boundary { due := due + [a.id]; }
        }
      }
      forall id | id in tree.accounts && ResetDue(tree.accounts[id], now, offset) ensures id in due {
        assert HasAccount(snap.accounts, id);
      }
      forall id | id in tree.accounts {
        Billing.DueExact(tree.accounts[id].lastReset, tree.accounts[id].anchorDay, offset, now);
      }
    }

    // -------------------------------------------------------------- tokens

    /** Replaces an account's token in the database and in memory, without a rebuild. */
    method RegenerateToken(id: int, r: Random, ghost s: State) returns (token: Option<string>)
      requires Shows(s) && s.proc.lock.Free?
      modifies this`snap, this`tree, store, r
      ensures token.Some? ==> Enabled(s, RenewToken(id, token.value)) && Shows(Next(s, RenewToken(id, token.value)))
      ensures token.None? ==> Shows(s) && (id !in s.proc.mem.snap.accounts || r.bytes == [])
    {
      var i := 0;
      while i < |snap.accounts| && snap.accounts[i].id != id
        invariant 0 <= i <= |snap.accounts|
        invariant forall j | 0 <= j < i :: snap.accounts[j].id != id
      {
        i := i + 1;
      }
      assert id in tree.accounts ==> HasAccount(snap.accounts, id);
      if i == |snap.accounts| { return None; }
      token := UniqueTokenLocked(r);
      if token.None? { return None; }
      store.SetToken(id, token.value);
      var row := snap.accounts[i].(token := token.value);
      RowLists(snap.accounts, tree.accounts, i, row);
      snap := snap.(accounts := snap.accounts[i := row]);
      tree := Renewed(tree, id, token.value);
    }

    method RegenerateMasterToken(r: Random, ghost s: State) returns (token: Option<string>)
      requires Shows(s) && s.proc.lock.Free?
      modifies this`masterToken, store, r
      ensures token.Some? ==> Enabled(s, RenewMaster(token.value)) && Shows(Next(s, RenewMaster(token.value)))
      ensures token.None? ==> Shows(s) && r.bytes == []
    {
      token := UniqueTokenLocked(r);
      if token.None? { return None; }
      store.SetMasterToken(token.value);
      masterToken := token.value;
    }

    /** The views a token grants: every account's for the master token, one for an account's own. */
    method QueryByToken(token: string, ghost s: State) returns (views: seq<AccountView>, all: bool, ok: bool)
      requires Shows(s) && Good(s) && s.proc.lock.Free?
      ensures match Resolve(tree.accounts, masterToken, token)
              case Nothing => !ok && !all && views == []
              case Everything => ok && all && FullView(views)
              case Only(id) => ok && !all && id in tree.accounts && |views| == 1
                               && Faithful(views[0], tree.accounts[id], snap.ports, live, expired)
    {
      hide Good;
      MemoryDistinct(s);
      DistinctResolve(tree.accounts, masterToken);
      if token == "" { return [], false, false; }
      if masterToken != "" && token == masterToken {
        views := ViewLocked();
        return views, true, true;
      }
      for i := 0 to |snap.accounts|
        invariant forall j | 0 <= j < i :: snap.accounts[j].token != token
      {
        var a := snap.accounts[i];
        if a.token == "" { continue; }
        if a.token == token {
          assert tree.accounts[a.id] == a;
          views := ViewLocked();
          for j := 0 to |views|
            invariant forall k | 0 <= k < j :: views[k].account.id != a.id
          {
            if views[j].account.id == a.id { return [views[j]], false, true; }
          }
        }
      }
      forall id | id in tree.accounts ensures tree.accounts[id].token != token {
        assert HasAccount(snap.accounts, id);
      }
      return [], false, false;
    }

    /** One faithful view for every account, in order. */
    ghost predicate FullView(views: seq<AccountView>)
      reads this
    {
      |views| == |snap.accounts| && forall i | 0 <= i < |views| :: Faithful(views[i], snap.accounts[i], snap.ports, live, expired)
    }

    method ViewLocked() returns (views: seq<AccountView>)
      requires Listed()
      ensures FullView(views)
    {
      views := [];
      for i := 0 to |snap.accounts|
        invariant |views| == i
        invariant forall j | 0 <= j < i :: Faithful(views[j], snap.accounts[j], snap.ports, live, expired)
      {
        var a := snap.accounts[i];
        var owned := PortsFor(a.id);
        var lines: seq<PortView> := [];
        var sum := 0;
        for k := 0 to |owned|
          invariant |lines| == k && forall l | 0 <= l < k :: lines[l] == LineOf(owned[l], live)
          invariant sum == TotalBytes(lines)
        {
          var p := owned[k];
          var into, out := BytesOf(live, Key(p.id, In)), BytesOf(live, Key(p.id, Out));
          TotalAppend(lines, PortView(p.id, p.start, p.end, into, out));
          lines := lines + [PortView(p.id, p.start, p.end, into, out)];
          sum := sum + into + out;
        }
        var used := if !a.tier.HasQuota() then sum else if a.id in live.used then live.used[a.id] else a.used;
        views := views + [AccountView(a, used, a.id in expired, lines)];
      }
    }
  }
}
