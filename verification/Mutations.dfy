/** What each mutation does to the rows, and what it leaves alone. */
module Mutations {
  import opened Model
  import opened Ruleset
  import opened Tables
  import opened Engine

  /** What a usage mutation asks for. */
  function Requested(op: Op): nat { if op.SetUsage? then op.used else 0 }

  /** Every row but the account's is as it was. */
  ghost predicate OnlyAccount(t: Tree, u: Tree, account: int) {
    && u.ports == t.ports && u.counters == t.counters
    && (forall id :: id in u.accounts <==> id in t.accounts)
    && (forall id | id in t.accounts && id != account :: u.accounts[id] == t.accounts[id])
  }

  ghost predicate OnlyPort(t: Tree, u: Tree, port: int) {
    && u.accounts == t.accounts && u.counters == t.counters
    && (forall id :: id in u.ports <==> id in t.ports)
    && (forall id | id in t.ports && id != port :: u.ports[id] == t.ports[id])
  }

  /** Switching tiers or expiry touches one account, and neither its usage nor its last reset nor its token. */
  lemma TierAndExpiryKeepUsage(op: Op, token: string, now: Time, db: Db, snap: Tree, live: Sample)
    requires Sound(db) && (op.SetTier? || op.SetExpiry?) && Mutate(op, token, now, db, snap, live).Some?
    ensures var (db', live') := Mutate(op, token, now, db, snap, live).value;
            && live' == live && db' == WithTree(db, db'.tree) && OnlyAccount(db.tree, db'.tree, op.account)
            && (op.account in db.tree.accounts ==>
                  var a, b := db.tree.accounts[op.account], db'.tree.accounts[op.account];
                  && b.used == a.used && b.lastReset == a.lastReset && b.token == a.token && b.name == a.name
                  && (if op.SetTier? then b.tier == op.tier && b.limitGiB == op.limitGiB && b.anchorDay == op.anchorDay && b.expires == a.expires
                      else b.expires == op.expires && b.tier == a.tier && b.LimitBytes() == a.LimitBytes()))
  {
  }

  /** An edit or a move keeps the port's counters: an edit changes its range, a move its owner. */
  lemma PortChangesKeepMetering(op: Op, token: string, now: Time, db: Db, snap: Tree, live: Sample)
    requires Sound(db) && (op.EditPort? || op.MovePort?) && Mutate(op, token, now, db, snap, live).Some?
    ensures var (db', live') := Mutate(op, token, now, db, snap, live).value;
            && live' == live && db' == WithTree(db, db'.tree) && OnlyPort(db.tree, db'.tree, op.port)
            && (op.port in db.tree.ports ==>
                  var p, q := db.tree.ports[op.port], db'.tree.ports[op.port];
                  q.id == p.id && if op.EditPort? then q.account == p.account && q.start == op.start && q.end == op.end
                                  else q.account == op.account && q.start == p.start && q.end == p.end)
  {
  }

  /** Deleting an account takes its whole subtree and nothing else; without cascade it is refused
      exactly when the account still owns a port, and then it takes the account alone. */
  lemma DeleteTakesSubtree(id: int, cascade: bool, token: string, now: Time, db: Db, snap: Tree, live: Sample)
    requires Sound(db) && snap.ports == db.tree.ports
    ensures Mutate(DropAccount(id, cascade), token, now, db, snap, live).None? <==>
            !cascade && exists p :: p in db.tree.ports && db.tree.ports[p].account == id
    ensures Mutate(DropAccount(id, cascade), token, now, db, snap, live).Some? ==>
            var u := Mutate(DropAccount(id, cascade), token, now, db, snap, live).value.0.tree;
            && (forall a :: a in u.accounts <==> a in db.tree.accounts && a != id)
            && (forall p :: p in u.ports <==> p in db.tree.ports && db.tree.ports[p].account != id)
            && (forall k :: k in u.counters <==> k in db.tree.counters && db.tree.ports[k.port].account != id)
            && (forall a | a in u.accounts :: u.accounts[a] == db.tree.accounts[a])
            && (forall p | p in u.ports :: u.ports[p] == db.tree.ports[p])
            && (forall k | k in u.counters :: u.counters[k] == db.tree.counters[k])
            && (!cascade ==> u.ports == db.tree.ports)
  {
    var owned := OwnedBy(db.tree.ports, id);
    if owned != {} {
      var p := Member(owned);
    }
    if p :| p in db.tree.ports && db.tree.ports[p].account == id {
      assert p in owned;
    }
    if !cascade && owned == {} {
      var kept := db.tree.ports - owned;
      MapExt(kept, db.tree.ports);
    }
  }

  /** A new account or port takes an id that no row has or ever had, starts unused, and changes no other row. */
  lemma InsertsAreNew(op: Op, token: string, now: Time, db: Db, snap: Tree, live: Sample)
    requires Sound(db) && (op.AddAccount? || op.AddPort?) && Mutate(op, token, now, db, snap, live).Some?
    ensures var (db', live') := Mutate(op, token, now, db, snap, live).value;
            var t, u := db.tree, db'.tree;
            && live' == live
            && (forall id | id in t.accounts :: id in u.accounts && u.accounts[id] == t.accounts[id])
            && (forall id | id in t.ports :: id in u.ports && u.ports[id] == t.ports[id])
            && (forall k | k in t.counters :: k in u.counters && u.counters[k] == t.counters[k])
            && (forall k | k in u.counters :: k in t.counters || (op.AddPort? && k.port == db.nextPort))
            && db'.nextPort >= db.nextPort && db'.nextAccount >= db.nextAccount
            && (if op.AddAccount? then
                  && u.ports == t.ports && u.counters == t.counters && u.accounts.Keys == t.accounts.Keys + {db.nextAccount}
                  && db.nextAccount !in t.accounts && db.nextAccount < db'.nextAccount
                  && u.accounts[db.nextAccount] ==
                     Account(db.nextAccount, op.name, op.tier, op.limitGiB, op.anchorDay, 0, now / 1_000_000_000, token, 0)
                else
                  && u.accounts == t.accounts && u.ports.Keys == t.ports.Keys + {db.nextPort}
                  && db.nextPort !in t.ports && db.nextPort < db'.nextPort
                  && u.ports[db.nextPort] == Port(db.nextPort, op.account, op.start, op.end)
                  && (forall d: Direction :: Key(db.nextPort, d) in u.counters && u.counters[Key(db.nextPort, d)] == Counter(0, 0)))
  {
    if op.AddPort? {
      forall k | k in db.tree.counters ensures k.port != db.nextPort {
        assert k.port in db.tree.ports;
      }
      forall d: Direction ensures Key(db.nextPort, d) in Mutate(op, token, now, db, snap, live).value.0.tree.counters {
        match d case In => case Out =>
      }
    }
  }

  /** A usage mutation writes the requested figure, or zero and the time, to both the row and the live
      view, so that no later fold brings the old figure back. */
  lemma UsageIsReplaced(op: Op, token: string, now: Time, db: Db, snap: Tree, live: Sample)
    requires op.SetUsage? || op.ResetAccount?
    ensures Mutate(op, token, now, db, snap, live).Some?
    ensures var (db', live') := Mutate(op, token, now, db, snap, live).value;
            var target := Requested(op);
            && db' == WithTree(db, db'.tree) && OnlyAccount(db.tree, db'.tree, op.account)
            && live'.counters == live.counters && op.account in live'.used && live'.used[op.account] == target
            && (forall id | id != op.account :: (id in live'.used <==> id in live.used) && (id in live.used ==> live'.used[id] == live.used[id]))
            && (op.account in db.tree.accounts ==>
                  var b := db'.tree.accounts[op.account];
                  b.used == target && Persist(db'.tree, live').accounts[op.account] == b
                  && b.lastReset == if op.ResetAccount? then Unix(now) else db.tree.accounts[op.account].lastReset)
  {
  }

  /** Deleting a port is never refused, and takes the port and its counters and nothing else. */
  lemma DropPortTakesPort(port: int, token: string, now: Time, db: Db, snap: Tree, live: Sample)
    ensures Mutate(DropPort(port), token, now, db, snap, live).Some?
    ensures var (db', live') := Mutate(DropPort(port), token, now, db, snap, live).value;
            var t, u := db.tree, db'.tree;
            && live' == live && db' == WithTree(db, u) && u.accounts == t.accounts
            && (forall p :: p in u.ports <==> p in t.ports && p != port)
            && (forall p | p in u.ports :: u.ports[p] == t.ports[p])
            && (forall k :: k in u.counters <==> k in t.counters && k.port != port)
            && (forall k | k in u.counters :: u.counters[k] == t.counters[k])
  {
  }
}
