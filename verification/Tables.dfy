/** The database as relations: keys, foreign keys and cascades, and the statements on them. */
module Tables {
  import opened Model
  import opened Ruleset

  /** `next*` are the AUTOINCREMENT sequences: an id is never used twice. */
  datatype Db = Db(tree: Tree, master: string, nextAccount: int, nextPort: int)

  /** What the schema enforces. */
  ghost predicate Sound(db: Db) {
    && db.tree.Keyed()
    && (forall id | id in db.tree.accounts :: 0 < id < db.nextAccount)
    && (forall id | id in db.tree.ports :: 0 < id < db.nextPort && db.tree.ports[id].account in db.tree.accounts)
    && db.tree.counters.Keys == KeysOf(db.tree.ports)
    && (forall i, j | i in db.tree.accounts && j in db.tree.accounts && i != j ::
          db.tree.accounts[i].name != db.tree.accounts[j].name)
    && 0 < db.nextAccount && 0 < db.nextPort
  }

  /** PersistUsage: one transaction of UPDATEs, which can change rows but not create them. */
  function Persist(t: Tree, s: Sample): Tree {
    t.(accounts := FoldUsed(t.accounts, s.used), counters := FoldCounters(t.counters, s.counters))
  }

  function FoldCounters(rows: map<Key, Counter>, seen: map<Key, Counter>): map<Key, Counter> {
    map k | k in rows :: if k in seen then seen[k] else rows[k]
  }

  function WithTree(db: Db, t: Tree): Db { db.(tree := t) }

  /** UPDATE accounts SET .. WHERE id = ..: nothing happens when there is no such row. */
  function UpdateAccount(t: Tree, id: int, row: Account): Tree {
    if id in t.accounts then t.(accounts := t.accounts[id := row]) else t
  }

  /** INSERT INTO accounts; None when the UNIQUE name is taken. */
  function InsertAccount(db: Db, name: string, tier: Tier, limitGiB: real, anchorDay: int, token: string, expires: int, now: Time): Option<Db> {
    if exists id :: id in db.tree.accounts && db.tree.accounts[id].name == name then None
    else
      var id := db.nextAccount;
      var row := Account(id, name, tier, limitGiB, anchorDay, 0, Unix(now), token, expires);
      Some(db.(tree := db.tree.(accounts := db.tree.accounts[id := row]), nextAccount := id + 1))
  }

  function OwnedBy(ports: map<int, Port>, account: int): set<int> {
    set id | id in ports && ports[id].account == account
  }

  /** DELETE FROM accounts, cascading to the account's ports and their counters. */
  function DeleteAccount(t: Tree, id: int): Tree {
    var gone := OwnedBy(t.ports, id);
    Tree(t.accounts - {id}, t.ports - gone, map k | k in t.counters && k.port !in gone :: t.counters[k])
  }

  /** DELETE FROM ports, cascading to its counters. */
  function DeletePort(t: Tree, port: int): Tree {
    t.(ports := t.ports - {port}, counters := map k | k in t.counters && k.port != port :: t.counters[k])
  }

  /** INSERT INTO ports and its two counters; None when the account does not exist. */
  function InsertPort(db: Db, account: int, start: uint16, end: uint16): Option<Db> {
    if account !in db.tree.accounts then None
    else
      var id := db.nextPort;
      Some(db.(
        tree := db.tree.(
          ports := db.tree.ports[id := Port(id, account, start, end)],
          counters := db.tree.counters[Key(id, In) := Counter(0, 0)][Key(id, Out) := Counter(0, 0)]),
        nextPort := id + 1))
  }

  /** UPDATE ports SET account_id; None when an existing port would reference no account. */
  function MovePort(t: Tree, port: int, account: int): Option<Tree> {
    if port !in t.ports then Some(t)
    else if account !in t.accounts then None
    else Some(t.(ports := t.ports[port := t.ports[port].(account := account)]))
  }

  function EditPort(t: Tree, port: int, start: uint16, end: uint16): Tree {
    if port !in t.ports then t
    else t.(ports := t.ports[port := t.ports[port].(start := start, end := end)])
  }

  /** Tokens resolve unambiguously: none empty, all account tokens distinct, none the master's. */
  ghost predicate TokensDistinct(accounts: map<int, Account>, master: string) {
    && master != ""
    && (forall id | id in accounts :: accounts[id].token != "" && accounts[id].token != master)
    && (forall i, j | i in accounts && j in accounts && i != j :: accounts[i].token != accounts[j].token)
  }

  ghost predicate Fresh(token: string, accounts: map<int, Account>, master: string) {
    token != "" && token != master && forall id | id in accounts :: accounts[id].token != token
  }

  // ---------------------------------------------------------------- what each statement keeps

  /** A persisted batch changes no design, whatever stale or deleted rows it mentions. */
  lemma PersistKeeps(t: Tree, s: Sample)
    ensures SameDesign(Persist(t, s), t)
    ensures Persist(t, s).counters.Keys == t.counters.Keys
  {
    var u := Persist(t, s);
    SetExt(u.accounts.Keys, t.accounts.Keys);
    if u.counters.Keys != t.counters.Keys { var k := SetDiff(u.counters.Keys, t.counters.Keys); }
  }

  lemma SoundSameDesign(db: Db, t: Tree)
    requires Sound(db) && SameDesign(t, db.tree) && t.counters.Keys == db.tree.counters.Keys
    ensures Sound(WithTree(db, t))
  {
    SameDesignKeeps(t, db.tree);
    forall id | id in t.accounts ensures t.accounts[id].name == db.tree.accounts[id].name {
      assert t.accounts[id].Design() == db.tree.accounts[id].Design();
    }
  }

  lemma InsertAccountSound(db: Db, name: string, tier: Tier, limitGiB: real, anchorDay: int, token: string,
                           expires: int, now: Time)
    requires Sound(db) && InsertAccount(db, name, tier, limitGiB, anchorDay, token, expires, now).Some?
    ensures Sound(InsertAccount(db, name, tier, limitGiB, anchorDay, token, expires, now).value)
  {
  }

  lemma DeleteAccountSound(db: Db, id: int)
    requires Sound(db)
    ensures Sound(WithTree(db, DeleteAccount(db.tree, id)))
  {
    var u := DeleteAccount(db.tree, id);
    forall p | p in u.ports ensures u.ports[p].account in u.accounts && u.ports[p] == db.tree.ports[p] {
    }
    if u.counters.Keys != KeysOf(u.ports) { var k := SetDiff(u.counters.Keys, KeysOf(u.ports)); }
  }

  lemma DeletePortSound(db: Db, port: int)
    requires Sound(db)
    ensures Sound(WithTree(db, DeletePort(db.tree, port)))
  {
    var u := DeletePort(db.tree, port);
    if u.counters.Keys != KeysOf(u.ports) { var k := SetDiff(u.counters.Keys, KeysOf(u.ports)); }
  }

  lemma InsertPortSound(db: Db, account: int, start: uint16, end: uint16)
    requires Sound(db) && account in db.tree.accounts
    ensures Sound(InsertPort(db, account, start, end).value)
  {
    var u := InsertPort(db, account, start, end).value.tree;
    if u.counters.Keys != KeysOf(u.ports) {
      var k := SetDiff(u.counters.Keys, KeysOf(u.ports));
      match k case Key(p, In) => case Key(p, Out) =>
    }
  }

  lemma MovePortSound(db: Db, port: int, account: int)
    requires Sound(db) && MovePort(db.tree, port, account).Some?
    ensures Sound(WithTree(db, MovePort(db.tree, port, account).value))
  {
    var u := MovePort(db.tree, port, account).value;
    if u.counters.Keys != KeysOf(u.ports) { var k := SetDiff(u.counters.Keys, KeysOf(u.ports)); }
  }

  lemma EditPortSound(db: Db, port: int, start: uint16, end: uint16)
    requires Sound(db)
    ensures Sound(WithTree(db, EditPort(db.tree, port, start, end)))
  {
    var u := EditPort(db.tree, port, start, end);
    if u.counters.Keys != KeysOf(u.ports) { var k := SetDiff(u.counters.Keys, KeysOf(u.ports)); }
  }

  /** Rewriting a row's other columns keeps the schema sound. */
  lemma UpdateAccountSound(db: Db, id: int, row: Account)
    requires Sound(db)
    requires id in db.tree.accounts ==> row.id == id && row.name == db.tree.accounts[id].name
    ensures Sound(WithTree(db, UpdateAccount(db.tree, id, row)))
  {
  }
}
