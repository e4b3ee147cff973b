/** The SQLite store: each method changes the tables as one statement or one transaction, and is
    proved against the relational functions of Tables. */
module Store {
  import opened Model
  import opened Ruleset
  import opened Tokens
  import T = Tables

  class Database {
    var accounts: map<int, Account>
    var ports: map<int, Port>
    var counters: map<Key, Counter>
    var master: string
    var nextAccount: int
    var nextPort: int

    ghost function Rows(): T.Db
      reads this
    {
      T.Db(Tree(accounts, ports, counters), master, nextAccount, nextPort)
    }

    constructor (db: T.Db)
      ensures Rows() == db
    {
      accounts, ports, counters := db.tree.accounts, db.tree.ports, db.tree.counters;
      master, nextAccount, nextPort := db.master, db.nextAccount, db.nextPort;
    }

    // -------------------------------------------------------------- loading

    /** Accounts ordered by id, ports by first port number. */
    method Load() returns (snap: Snapshot)
      requires T.Sound(Rows())
      ensures Lists(snap, Rows().tree) && snap.now == ZERO_TIME
      ensures AscendingIds(snap.accounts) && Ascending(snap.ports)
    {
      var listed := LoadAccounts();
      var ranges := LoadPorts();
      snap := Snapshot(listed, ranges, counters, ZERO_TIME);
    }

    method LoadAccounts() returns (listed: seq<Account>)
      requires forall id | id in accounts :: accounts[id].id == id
      ensures ListsAccounts(listed, accounts) && AscendingIds(listed)
    {
      hide Taken, ListsAccounts, AscendingIds, IdsBelow;
      listed := [];
      var rest := accounts;
      ghost var done: map<int, Account> := map[];
      NothingTaken(accounts);
      NoAccounts(rest);
      while rest.Keys != {}
        invariant ListsAccounts(listed, done) && Taken(done, rest, accounts)
        invariant AscendingIds(listed) && IdsBelow(listed, rest)
        decreases rest.Keys
      {
        LeastExists(rest.Keys);
        var id :| id in rest && forall j | j in rest :: id <= j;
        TakeOne(done, rest, accounts, id);
        AppendAccount(listed, done, rest, rest[id]);
        listed := listed + [rest[id]];
        done := done[id := rest[id]];
        rest := rest - {id};
      }
      TakenAll(done, rest, accounts);
    }

    method LoadPorts() returns (listed: seq<Port>)
      requires forall id | id in ports :: ports[id].id == id
      ensures ListsPorts(listed, ports) && Ascending(listed)
    {
      hide Taken, ListsPorts, Ascending, StartsBelow;
      listed := [];
      var rest := ports;
      ghost var done: map<int, Port> := map[];
      NothingTaken(ports);
      NoPorts(rest);
      while rest.Keys != {}
        invariant ListsPorts(listed, done) && Taken(done, rest, ports)
        invariant Ascending(listed) && StartsBelow(listed, rest)
        decreases rest.Keys
      {
        LowestExists(rest);
        var id :| id in rest && forall j | j in rest :: rest[id].start <= rest[j].start;
        TakeOne(done, rest, ports, id);
        AppendPort(listed, done, rest, rest[id]);
        listed := listed + [rest[id]];
        done := done[id := rest[id]];
        rest := rest - {id};
      }
      TakenAll(done, rest, ports);
    }

    // -------------------------------------------------------------- accounts

    method CreateAccount(name: string, tier: Tier, limitGiB: real, anchorDay: int, token: string, expires: int,
                         now: Time)
      returns (id: Option<int>)
      modifies this
      ensures var r := old(T.InsertAccount(Rows(), name, tier, limitGiB, anchorDay, token, expires, now));
              if r.None? then id == None && Rows() == old(Rows()) else id == Some(old(nextAccount)) && Rows() == r.value
    {
      if exists i :: i in accounts && accounts[i].name == name { return None; }
      accounts := accounts[nextAccount := Account(nextAccount, name, tier, limitGiB, anchorDay, 0, Unix(now), token, expires)];
      id := Some(nextAccount);
      nextAccount := nextAccount + 1;
    }

    method SetToken(id: int, token: string)
      modifies this`accounts
      ensures Rows() == old(if id in accounts
        then T.WithTree(Rows(), T.UpdateAccount(Rows().tree, id, accounts[id].(token := token))) else Rows())
    {
      if id in accounts { accounts := accounts[id := accounts[id].(token := token)]; }
    }

    method SetMasterToken(token: string)
      modifies this`master
      ensures Rows() == old(Rows()).(master := token)
    {
      master := token;
    }

    method DeleteAccount(id: int)
      modifies this
      ensures Rows() == old(T.WithTree(Rows(), T.DeleteAccount(Rows().tree, id)))
    {
      var gone := T.OwnedBy(ports, id);
      accounts := accounts - {id};
      ports := ports - gone;
      counters := map k | k in counters && k.port !in gone :: counters[k];
    }

    method SetTier(id: int, tier: Tier, limitGiB: real, anchorDay: int)
      modifies this`accounts
      ensures Rows() == old(if id in accounts
        then T.WithTree(Rows(), T.UpdateAccount(Rows().tree, id, accounts[id].(tier := tier, limitGiB := limitGiB, anchorDay := anchorDay)))
        else Rows())
    {
      if id in accounts {
        accounts := accounts[id := accounts[id].(tier := tier, limitGiB := limitGiB, anchorDay := anchorDay)];
      }
    }

    method SetExpiry(id: int, expires: int)
      modifies this`accounts
      ensures Rows() == old(if id in accounts
        then T.WithTree(Rows(), T.UpdateAccount(Rows().tree, id, accounts[id].(expires := expires))) else Rows())
    {
      if id in accounts { accounts := accounts[id := accounts[id].(expires := expires)]; }
    }

    method SetUsage(id: int, used: nat)
      modifies this`accounts
      ensures Rows() == old(if id in accounts
        then T.WithTree(Rows(), T.UpdateAccount(Rows().tree, id, accounts[id].(used := used))) else Rows())
    {
      if id in accounts { accounts := accounts[id := accounts[id].(used := used)]; }
    }

    method MarkReset(id: int, when: Time)
      modifies this`accounts
      ensures Rows() == old(if id in accounts
        then T.WithTree(Rows(), T.UpdateAccount(Rows().tree, id, accounts[id].(used := 0, lastReset := Unix(when)))) else Rows())
    {
      if id in accounts { accounts := accounts[id := accounts[id].(used := 0, lastReset := Unix(when))]; }
    }

    // -------------------------------------------------------------- ports

    method CreatePort(account: int, start: uint16, end: uint16) returns (id: Option<int>)
      modifies this
      ensures var r := old(T.InsertPort(Rows(), account, start, end));
              if r.None? then id == None && Rows() == old(Rows()) else id == Some(old(nextPort)) && Rows() == r.value
    {
      if account !in accounts { return None; }
      ports := ports[nextPort := Port(nextPort, account, start, end)];
      for d := 0 to |DIRECTIONS|
        invariant ports == old(ports)[nextPort := Port(nextPort, account, start, end)]
        invariant nextPort == old(nextPort) && accounts == old(accounts) && master == old(master) && nextAccount == old(nextAccount)
        invariant counters == if d == 0 then old(counters)
                              else if d == 1 then old(counters)[Key(nextPort, In) := Counter(0, 0)]
                              else old(counters)[Key(nextPort, In) := Counter(0, 0)][Key(nextPort, Out) := Counter(0, 0)]
      {
        counters := counters[Key(nextPort, DIRECTIONS[d]) := Counter(0, 0)];
      }
      id := Some(nextPort);
      nextPort := nextPort + 1;
    }

    method DeletePort(port: int)
      modifies this
      ensures Rows() == old(T.WithTree(Rows(), T.DeletePort(Rows().tree, port)))
    {
      ports := ports - {port};
      counters := map k | k in counters && k.port != port :: counters[k];
    }

    method MovePort(port: int, account: int) returns (ok: bool)
      modifies this`ports
      ensures var r := old(T.MovePort(Rows().tree, port, account));
              if r.None? then !ok && Rows() == old(Rows()) else ok && Rows() == old(T.WithTree(Rows(), r.value))
    {
      if port !in ports { return true; }
      if account !in accounts { return false; }
      ports := ports[port := ports[port].(account := account)];
      return true;
    }

    method EditPort(port: int, start: uint16, end: uint16)
      modifies this`ports
      ensures Rows() == old(T.WithTree(Rows(), T.EditPort(Rows().tree, port, start, end)))
    {
      if port in ports { ports := ports[port := ports[port].(start := start, end := end)]; }
    }

    // -------------------------------------------------------------- usage

    method PersistUsage(batch: Sample)
      modifies this`accounts, this`counters
      ensures Rows() == old(T.WithTree(Rows(), T.Persist(Rows().tree, batch)))
    {
      var ids := batch.used.Keys;
      while ids != {}
        invariant ids <= batch.used.Keys && counters == old(counters)
        invariant forall id :: id in accounts <==> id in old(accounts)
        invariant forall id | id in accounts ::
          accounts[id] == if id in batch.used && id !in ids then old(accounts)[id].(used := batch.used[id]) else old(accounts)[id]
        decreases ids
      {
        var some := Member(ids);
        var id: int :| id in ids;
        if id in accounts { accounts := accounts[id := accounts[id].(used := batch.used[id])]; }
        ids := ids - {id};
      }
      MapExt(accounts, FoldUsed(old(accounts), batch.used));
      var keys := batch.counters.Keys;
      while keys != {}
        invariant keys <= batch.counters.Keys && accounts == FoldUsed(old(accounts), batch.used)
        invariant forall k :: k in counters <==> k in old(counters)
        invariant forall k | k in counters ::
          counters[k] == if k in batch.counters && k !in keys then batch.counters[k] else old(counters)[k]
        decreases keys
      {
        var some := Member(keys);
        var k: Key :| k in keys;
        if k in counters { counters := counters[k := batch.counters[k]]; }
        keys := keys - {k};
      }
      KeyMapExt(counters, T.FoldCounters(old(counters), batch.counters));
    }

    // -------------------------------------------------------------- migration

    /** Rows from before port ranges have "end" 0; they become single ports. Running it again changes nothing. */
    method MigratePortRange()
      modifies this`ports
      ensures ports == Backfilled(old(ports))
    {
      ports := map id | id in ports :: if ports[id].end == 0 then ports[id].(end := ports[id].start) else ports[id];
    }

    /** The legacy path: a master token and a token for every account, all distinct if the
        existing ones were, and no existing token rewritten; nothing at all happens on a database
        that is already migrated. False when the random source fails. */
    method EnsureTokens(r: Random) returns (ok: bool)
      requires DistinctOrMissing(accounts, master)
      modifies this`accounts, this`master, r
      ensures DistinctOrMissing(accounts, master) && SameButTokens(accounts, old(accounts))
      ensures ok ==> T.TokensDistinct(accounts, master)
      ensures old(master) != "" ==> master == old(master)
      ensures old(T.TokensDistinct(accounts, master)) ==> ok && Rows() == old(Rows()) && r.bytes == old(r.bytes)
    {
      var used: set<string> := set id | id in accounts && accounts[id].token != "" :: accounts[id].token;
      if master == "" {
        var t := UniqueToken(r, used);
        if t.None? { return false; }
        SetMasterToken(t.value);
      }
      used := used + {master};
      var ids := set id | id in accounts && accounts[id].token == "";
      if ids != {} { var unserved := Member(ids); }
      while ids != {}
        invariant Missing(accounts, ids) && InUse(accounts, used) && master in used
        invariant DistinctOrMissing(accounts, master) && master != ""
        invariant SameButTokens(accounts, old(accounts)) && (old(master) != "" ==> master == old(master))
        invariant old(T.TokensDistinct(accounts, master)) ==> ids == {} && r.bytes == old(r.bytes) && accounts == old(accounts)
        decreases ids
      {
        var some := Member(ids);
        var id: int :| id in ids;
        var t := UniqueToken(r, used);
        if t.None? { return false; }
        GiveToken(accounts, old(accounts), master, ids, used, id, t.value);
        SetToken(id, t.value);
        used := used + {t.value};
        ids := ids - {id};
      }
      return true;
    }
  }

  /** ids are the accounts without a token. */
  ghost predicate Missing(accounts: map<int, Account>, ids: set<int>) {
    forall id :: id in ids <==> id in accounts && accounts[id].token == ""
  }

  ghost predicate InUse(accounts: map<int, Account>, used: set<string>) {
    forall id | id in accounts && accounts[id].token != "" :: accounts[id].token in used
  }

  /** Nothing but missing tokens has been filled in. */
  ghost predicate SameButTokens(accounts: map<int, Account>, was: map<int, Account>) {
    && accounts.Keys == was.Keys
    && (forall id | id in accounts :: accounts[id].(token := "") == was[id].(token := ""))
    && (forall id | id in accounts && was[id].token != "" :: accounts[id].token == was[id].token)
  }

  lemma GiveToken(accounts: map<int, Account>, was: map<int, Account>, master: string, ids: set<int>, used: set<string>,
                  id: int, token: string)
    requires Missing(accounts, ids) && InUse(accounts, used) && master in used
    requires DistinctOrMissing(accounts, master) && SameButTokens(accounts, was)
    requires id in ids && token !in used && token != ""
    ensures var now := accounts[id := accounts[id].(token := token)];
            && Missing(now, ids - {id}) && InUse(now, used + {token})
            && DistinctOrMissing(now, master) && SameButTokens(now, was)
  {
  }

  function Backfilled(ports: map<int, Port>): map<int, Port> {
    map id | id in ports :: if ports[id].end == 0 then ports[id].(end := ports[id].start) else ports[id]
  }

  /** The migration is idempotent, gives every legacy row the range of its one port, and leaves valid ranges alone. */
  lemma BackfillIdempotent(ports: map<int, Port>)
    ensures Backfilled(Backfilled(ports)) == Backfilled(ports)
    ensures forall id | id in ports && ports[id].start >= 1 && (ports[id].end == 0 || ports[id].start <= ports[id].end) ::
              Backfilled(ports)[id].ValidRange() && (ports[id].end != 0 ==> Backfilled(ports)[id] == ports[id])
  {
    MapExt(Backfilled(Backfilled(ports)), Backfilled(ports));
  }

  /** The tokens there are, are unambiguous. */
  ghost predicate DistinctOrMissing(accounts: map<int, Account>, master: string) {
    && (forall id | id in accounts && accounts[id].token != "" :: accounts[id].token != master)
    && (forall i, j | i in accounts && j in accounts && i != j && accounts[i].token != "" :: accounts[i].token != accounts[j].token)
  }

  lemma {:induction false} LeastExists(ids: set<int>)
    requires ids != {}
    ensures exists id :: id in ids && forall j | j in ids :: id <= j
    decreases ids
  {
    var x := Member(ids);
    var rest := ids - {x};
    if rest == {} {
      assert forall j | j in ids :: j == x || j in rest;
    } else {
      LeastExists(rest);
      var y :| y in rest && forall j | j in rest :: y <= j;
      var low := if x <= y then x else y;
      assert forall j | j in ids :: j == x || j in rest;
      assert low in ids && forall j | j in ids :: low <= j;
    }
  }

  /** The rows of `all` are shared out between `done` and `rest`. */
  ghost predicate Taken<Row>(done: map<int, Row>, rest: map<int, Row>, all: map<int, Row>) {
    && (forall id :: id in all <==> id in done || id in rest)
    && (forall id | id in done :: id !in rest && done[id] == all[id])
    && (forall id | id in rest :: rest[id] == all[id])
  }

  lemma NothingTaken<Row>(all: map<int, Row>)
    ensures Taken(map[], all, all)
  {
  }

  lemma TakeOne<Row>(done: map<int, Row>, rest: map<int, Row>, all: map<int, Row>, id: int)
    requires Taken(done, rest, all) && id in rest
    ensures Taken(done[id := rest[id]], rest - {id}, all) && id !in done && rest[id] == all[id]
  {
  }

  lemma TakenAll<Row>(done: map<int, Row>, rest: map<int, Row>, all: map<int, Row>)
    requires Taken(done, rest, all) && rest.Keys == {}
    ensures done == all
  {
    forall id ensures id in done <==> id in all {
      if id in all { assert id !in rest.Keys; }
    }
    MapExt(done, all);
  }

  ghost predicate AscendingIds(listed: seq<Account>) {
    forall i, j | 0 <= i < j < |listed| :: listed[i].id < listed[j].id
  }

  ghost predicate IdsBelow(listed: seq<Account>, rest: map<int, Account>) {
    forall i, id | 0 <= i < |listed| && id in rest :: listed[i].id < id
  }

  ghost predicate StartsBelow(listed: seq<Port>, rest: map<int, Port>) {
    forall i, id | 0 <= i < |listed| && id in rest :: listed[i].start <= rest[id].start
  }

  lemma NoAccounts(rest: map<int, Account>)
    ensures ListsAccounts([], map[]) && AscendingIds([]) && IdsBelow([], rest)
  {
  }

  lemma NoPorts(rest: map<int, Port>)
    ensures ListsPorts([], map[]) && Ascending([]) && StartsBelow([], rest)
  {
  }

  lemma AppendAccount(listed: seq<Account>, done: map<int, Account>, rest: map<int, Account>, a: Account)
    requires ListsAccounts(listed, done) && a.id !in done
    requires AscendingIds(listed) && IdsBelow(listed, rest)
    requires a.id in rest && forall j | j in rest :: a.id <= j
    ensures ListsAccounts(listed + [a], done[a.id := a])
    ensures AscendingIds(listed + [a]) && IdsBelow(listed + [a], rest - {a.id})
  {
    var r := listed + [a];
    forall id | id in done[a.id := a] ensures HasAccount(r, id) {
      if id == a.id {
        assert r[|listed|].id == id;
      } else {
        assert HasAccount(listed, id);
        var i :| 0 <= i < |listed| && listed[i].id == id;
        assert r[i].id == id;
      }
    }
  }

  lemma AppendPort(listed: seq<Port>, done: map<int, Port>, rest: map<int, Port>, p: Port)
    requires ListsPorts(listed, done) && p.id !in done
    requires Ascending(listed) && StartsBelow(listed, rest)
    requires p.id in rest && rest[p.id] == p && forall j | j in rest :: p.start <= rest[j].start
    ensures ListsPorts(listed + [p], done[p.id := p])
    ensures Ascending(listed + [p]) && StartsBelow(listed + [p], rest - {p.id})
  {
    var r := listed + [p];
    forall id | id in done[p.id := p] ensures HasPort(r, id) {
      if id == p.id {
        assert r[|listed|].id == id;
      } else {
        assert HasPort(listed, id);
        var i :| 0 <= i < |listed| && listed[i].id == id;
        assert r[i].id == id;
      }
    }
  }

  /** A row from before port ranges becomes the range of its one port; every other row is left alone. */
  lemma BackfillSpelled(ports: map<int, Port>)
    ensures forall id :: id in Backfilled(ports) <==> id in ports
    ensures forall id | id in ports && ports[id].end == 0 ::
              Backfilled(ports)[id] == Port(ports[id].id, ports[id].account, ports[id].start, ports[id].start)
    ensures forall id | id in ports && ports[id].end != 0 :: Backfilled(ports)[id] == ports[id]
  {
  }
}
