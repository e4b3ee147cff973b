/** buildScript as the source writes it: loops appending commands to one transaction. */
module Compiler {
  import opened Model
  import opened Ruleset
  import opened Names

  datatype Command =
    | AddTable
    | DeleteTable
    | AddQuota(account: int, limit: nat, used: nat)
    | AddCounter(key: Key, seeded: Counter)
    | AddChain(hook: Direction)
    | AddRule(hook: Direction, rule: Rule)

  predicate Declared(a: Action, t: Table) {
    match a
    case Drop => true
    case QuotaDrop(account) => account in t.quotas
    case Count(key) => key in t.counters
  }

  /** One command; None when nft would reject the transaction. */
  function Exec(c: Command, k: Kernel): Option<Kernel> {
    match c
    case AddTable => Some(if k.Absent? then Present(EMPTY_TABLE) else k)
    case DeleteTable => if k.Absent? then None else Some(Absent)
    case AddQuota(a, l, u) =>
      if k.Absent? then None else Some(Present(k.table.(quotas := k.table.quotas[a := Quota(l, u)])))
    case AddCounter(key, s) =>
      if k.Absent? then None else Some(Present(k.table.(counters := k.table.counters[key := s])))
    case AddChain(d) =>
      if k.Absent? then None else Some(Present(k.table.(chains := k.table.chains[d := []])))
    case AddRule(d, r) =>
      if k.Absent? || d !in k.table.chains || !Declared(r.action, k.table) then None
      else Some(Present(k.table.(chains := k.table.chains[d := k.table.chains[d] + [r]])))
  }

  /** A whole script, all or nothing. */
  function Run(script: seq<Command>, k: Kernel): Option<Kernel> {
    if script == [] then Some(k)
    else match Run(script[..|script| - 1], k)
      case None => None
      case Some(u) => Exec(script[|script| - 1], u)
  }

  /** From any kernel state the script leaves exactly the table t. */
  ghost predicate Builds(script: seq<Command>, t: Table) {
    forall k: Kernel :: Run(script, k) == Some(Present(t))
  }

  lemma Append(script: seq<Command>, t: Table, c: Command, u: Table)
    requires Builds(script, t) && Exec(c, Present(t)) == Some(Present(u))
    ensures Builds(script + [c], u)
  {
    assert (script + [c])[..|script|] == script;
  }

  lemma Replaces()
    ensures Builds([AddTable, DeleteTable, AddTable], EMPTY_TABLE)
  {
    forall k: Kernel ensures Run([AddTable, DeleteTable, AddTable], k) == Some(Present(EMPTY_TABLE)) {
      var s1, s2, s3 := [AddTable], [AddTable, DeleteTable], [AddTable, DeleteTable, AddTable];
      assert s1[..0] == [] && s2[..1] == s1 && s3[..2] == s2;
      assert Run(s1, k).Some? && Run(s1, k).value.Present?;
      assert Run(s2, k) == Some(Absent);
    }
  }

  // ---------------------------------------------------------------- the loops

  /** sort.Slice by first port, as an insertion sort. */
  method SortByStart(ports: seq<Port>, ghost m: map<int, Port>) returns (sorted: seq<Port>)
    requires ListsPorts(ports, m)
    ensures ListsPorts(sorted, m) && Ascending(sorted)
  {
    sorted := [];
    ghost var done: map<int, Port> := map[];
    for i := 0 to |ports|
      invariant ListsPorts(sorted, done) && Ascending(sorted)
      invariant forall id :: id in done <==> HasPort(ports[..i], id)
      invariant forall id | id in done :: id in m && done[id] == m[id]
    {
      var p := ports[i];
      var at := 0;
      while at < |sorted| && sorted[at].start <= p.start
        invariant 0 <= at <= |sorted|
        invariant forall j | 0 <= j < at :: sorted[j].start <= p.start
      {
        at := at + 1;
      }
      PrefixPorts(ports, i);
      InsertLists(sorted, done, p, at);
      InsertAscends(sorted, p, at);
      sorted := sorted[..at] + [p] + sorted[at..];
      done := done[p.id := p];
    }
    assert ports[..|ports|] == ports;
    forall id ensures id in done <==> id in m {
      if id in m { assert HasPort(ports, id); }
    }
    MapExt(done, m);
  }

  lemma PrefixPorts(ports: seq<Port>, i: nat)
    requires i < |ports|
    requires forall j, k | 0 <= j < k < |ports| :: ports[j].id != ports[k].id
    ensures forall id :: HasPort(ports[..i + 1], id) <==> id == ports[i].id || HasPort(ports[..i], id)
    ensures !HasPort(ports[..i], ports[i].id)
  {
    forall id ensures HasPort(ports[..i + 1], id) <==> id == ports[i].id || HasPort(ports[..i], id) {
      if HasPort(ports[..i], id) {
        var j :| 0 <= j < i && ports[..i][j].id == id;
        assert ports[..i + 1][j].id == id;
      }
      if id == ports[i].id {
        assert ports[..i + 1][i].id == id;
      }
      if HasPort(ports[..i + 1], id) && id != ports[i].id {
        var j :| 0 <= j < i + 1 && ports[..i + 1][j].id == id;
        assert ports[..i][j].id == id;
      }
    }
  }

  function Inserted(sorted: seq<Port>, p: Port, at: nat): seq<Port>
    requires at <= |sorted|
  {
    sorted[..at] + [p] + sorted[at..]
  }

  lemma InsertLists(sorted: seq<Port>, done: map<int, Port>, p: Port, at: nat)
    requires ListsPorts(sorted, done) && p.id !in done && at <= |sorted|
    ensures ListsPorts(Inserted(sorted, p, at), done[p.id := p])
  {
    var r := Inserted(sorted, p, at);
    assert forall j | 0 <= j < |r| :: r[j] == if j < at then sorted[j] else if j == at then p else sorted[j - 1];
    forall id | id in done[p.id := p] ensures HasPort(r, id) {
      if id == p.id {
        assert r[at].id == id;
      } else {
        assert HasPort(sorted, id);
        var j :| 0 <= j < |sorted| && sorted[j].id == id;
        assert r[if j < at then j else j + 1].id == id;
      }
    }
  }

  lemma InsertAscends(sorted: seq<Port>, p: Port, at: nat)
    requires Ascending(sorted) && at <= |sorted|
    requires forall j | 0 <= j < at :: sorted[j].start <= p.start
    requires at < |sorted| ==> p.start < sorted[at].start
    ensures Ascending(Inserted(sorted, p, at))
  {
    var r := Inserted(sorted, p, at);
    assert forall j | 0 <= j < |r| :: r[j] == if j < at then sorted[j] else if j == at then p else sorted[j - 1];
    assert forall j | at <= j < |sorted| :: p.start <= sorted[j].start;
  }

  /** The quotas declared by the first n accounts. */
  ghost predicate QuotasSoFar(quotas: map<int, Quota>, accounts: seq<Account>, n: nat)
    requires n <= |accounts|
  {
    && (forall i | 0 <= i < n && accounts[i].tier.HasQuota() ::
          accounts[i].id in quotas && quotas[accounts[i].id] == Quota(accounts[i].LimitBytes(), accounts[i].used))
    && (forall id | id in quotas :: exists i :: 0 <= i < n && accounts[i].tier.HasQuota() && accounts[i].id == id)
  }

  lemma QuotasComplete(quotas: map<int, Quota>, accounts: seq<Account>, m: map<int, Account>)
    requires ListsAccounts(accounts, m) && QuotasSoFar(quotas, accounts, |accounts|)
    ensures quotas == SeededQuotas(m)
  {
    forall id ensures id in quotas <==> id in SeededQuotas(m) {
      if id in quotas {
        var i :| 0 <= i < |accounts| && accounts[i].tier.HasQuota() && accounts[i].id == id;
      }
      if id in SeededQuotas(m) {
        assert HasAccount(accounts, id);
        var i :| 0 <= i < |accounts| && accounts[i].id == id;
      }
    }
    forall id | id in quotas ensures quotas[id] == SeededQuotas(m)[id] {
      var i :| 0 <= i < |accounts| && accounts[i].tier.HasQuota() && accounts[i].id == id;
    }
    MapExt(quotas, SeededQuotas(m));
  }

  /** The counters declared for the first n ports, and for the first d directions of the next. */
  ghost predicate CountersSoFar(counters: map<Key, Counter>, t: Tree, ports: seq<Port>, n: nat, d: nat)
    requires n <= |ports| && (d > 0 ==> n < |ports|)
  {
    forall k :: k in counters <==>
      HasPort(ports[..n], k.port) || (d > 0 && k.port == ports[n].id && (k.dir == In || d > 1))
  }

  ghost predicate SeedsFrom(counters: map<Key, Counter>, t: Tree) {
    forall k | k in counters :: counters[k] == CounterOf(t, k)
  }

  method DeclareQuotas(accounts: seq<Account>, ghost m: map<int, Account>)
    returns (script: seq<Command>, byId: map<int, Account>)
    requires ListsAccounts(accounts, m)
    ensures Builds(script, Table(SeededQuotas(m), map[], map[])) && byId == m
  {
    script, byId := [AddTable, DeleteTable, AddTable], map[];
    Replaces();
    ghost var tb := EMPTY_TABLE;
    for i := 0 to |accounts|
      invariant Builds(script, tb) && tb.counters == map[] && tb.chains == map[]
      invariant QuotasSoFar(tb.quotas, accounts, i)
      invariant forall k | 0 <= k < i :: accounts[k].id in byId
      invariant forall id | id in byId :: id in m && byId[id] == m[id]
    {
      var a := accounts[i];
      byId := byId[a.id := a];
      if a.tier.HasQuota() {
        var c := AddQuota(a.id, a.LimitBytes(), a.used);
        ghost var next := tb.(quotas := tb.quotas[a.id := Quota(a.LimitBytes(), a.used)]);
        Append(script, tb, c, next);
        script, tb := script + [c], next;
      }
    }
    QuotasComplete(tb.quotas, accounts, m);
    forall id | id in m ensures id in byId {
      assert HasAccount(accounts, id);
    }
    MapExt(byId, m);
  }

  method DeclareCounters(before: seq<Command>, s: Snapshot, ports: seq<Port>, ghost t: Tree, ghost start: Table)
    returns (script: seq<Command>)
    requires ListsPorts(ports, t.ports) && s.counters == t.counters
    requires Builds(before, start) && start.counters == map[]
    ensures Builds(script, start.(counters := SeededCounters(t)))
  {
    script := before;
    ghost var tb := start;
    for i := 0 to |ports|
      invariant Builds(script, tb) && tb == start.(counters := tb.counters)
      invariant CountersSoFar(tb.counters, t, ports, i, 0) && SeedsFrom(tb.counters, t)
    {
      for d := 0 to |DIRECTIONS|
        invariant Builds(script, tb) && tb == start.(counters := tb.counters)
        invariant CountersSoFar(tb.counters, t, ports, i, d) && SeedsFrom(tb.counters, t)
      {
        var key := Key(ports[i].id, DIRECTIONS[d]);
        var c := if key in s.counters then s.counters[key] else Counter(0, 0);
        ghost var next := tb.(counters := tb.counters[key := c]);
        Append(script, tb, AddCounter(key, c), next);
        script, tb := script + [AddCounter(key, c)], next;
      }
      PrefixPorts(ports, i);
    }
    CountersComplete(tb.counters, t, ports);
  }

  method AddChains(before: seq<Command>, ghost start: Table) returns (script: seq<Command>)
    requires Builds(before, start) && start.chains == map[]
    ensures Builds(script, start.(chains := map[In := [], Out := []]))
  {
    ghost var one := start.(chains := map[In := []]);
    Append(before, start, AddChain(In), one);
    ghost var two := start.(chains := map[In := [], Out := []]);
    assert two.chains == one.chains[Out := []];
    script := before + [AddChain(In)];
    Append(script, one, AddChain(Out), two);
    script := script + [AddChain(Out)];
  }

  method AddRules(before: seq<Command>, byId: map<int, Account>, ports: seq<Port>, now: Time, ghost blocked: set<int>,
                  ghost start: Table)
    returns (script: seq<Command>)
    requires forall i | 0 <= i < |ports| :: ports[i].account in byId
    requires forall id :: id in blocked <==> id in byId && byId[id].ExpiredAt(now)
    requires forall id | id in byId :: byId[id].id == id && (byId[id].tier.HasQuota() ==> id in start.quotas)
    requires forall i, d: Direction | 0 <= i < |ports| :: Key(ports[i].id, d) in start.counters
    requires Builds(before, start) && start.chains == map[In := [], Out := []]
    ensures Builds(script, start.(chains := map[In := Rules(In, ports, byId, blocked), Out := Rules(Out, ports, byId, blocked)]))
  {
    script := before;
    ghost var tb := start;
    for i := 0 to |ports|
      invariant Builds(script, tb) && tb == start.(chains := tb.chains)
      invariant tb.chains == map[In := Rules(In, ports[..i], byId, blocked), Out := Rules(Out, ports[..i], byId, blocked)]
    {
      assert ports[..i + 1] == ports[..i] + [ports[i]];
      RulesAppend(In, ports[..i], ports[i], byId, blocked);
      RulesAppend(Out, ports[..i], ports[i], byId, blocked);
      for d := 0 to |DIRECTIONS|
        invariant Builds(script, tb) && tb == start.(chains := tb.chains)
        invariant tb.chains == map[
          In := Rules(In, ports[..if d > 0 then i + 1 else i], byId, blocked),
          Out := Rules(Out, ports[..if d > 1 then i + 1 else i], byId, blocked)]
      {
        script, tb := AddPortRules(script, byId[ports[i].account], ports[i], DIRECTIONS[d], now, byId, blocked, tb);
      }
    }
    assert ports[..|ports|] == ports;
  }

  /** The body of the rule loop for one port and direction. */
  method AddPortRules(before: seq<Command>, account: Account, p: Port, hook: Direction, now: Time,
                      ghost byId: map<int, Account>, ghost blocked: set<int>, ghost start: Table)
    returns (script: seq<Command>, ghost tb: Table)
    requires p.account in byId && account == byId[p.account] && account.id == p.account
    requires p.account in blocked <==> account.ExpiredAt(now)
    requires account.tier.HasQuota() ==> p.account in start.quotas
    requires Key(p.id, hook) in start.counters && hook in start.chains && Builds(before, start)
    ensures Builds(script, tb)
    ensures tb == start.(chains := start.chains[hook := start.chains[hook] + PortRules(hook, p, byId, blocked)])
  {
    script, tb := before, start;
    var m := PortMatch(hook, p);
    if account.ExpiredAt(now) {
      script, tb := AddOne(script, tb, hook, Rule(m, Drop));
      return;
    }
    if account.tier.HasQuota() {
      script, tb := AddOne(script, tb, hook, Rule(m, QuotaDrop(account.id)));
    }
    script, tb := AddOne(script, tb, hook, Rule(m, Count(Key(p.id, hook))));
    assert start.chains[hook] + [Rule(m, QuotaDrop(account.id))] + [Rule(m, Count(Key(p.id, hook)))]
        == start.chains[hook] + ([Rule(m, QuotaDrop(account.id))] + [Rule(m, Count(Key(p.id, hook)))]);
    assert [] + [Rule(m, Count(Key(p.id, hook)))] == [Rule(m, Count(Key(p.id, hook)))];
  }

  /** The whole script replaces any kernel state by the table the snapshot denotes. */
  method BuildScript(s: Snapshot, ghost t: Tree) returns (script: seq<Command>)
    requires Lists(s, t) && t.Keyed() && t.Valid()
    ensures Builds(script, Rendered(t, t.ExpiredSet(s.now)))
  {
    ghost var blocked := t.ExpiredSet(s.now);
    var byId;
    script, byId := DeclareQuotas(s.accounts, t.accounts);
    var ports := SortByStart(s.ports, t.ports);
    OrderedStarts(t);
    SortedIsOrdered(ports, t.ports);
    script := DeclareCounters(script, s, ports, t, Table(SeededQuotas(t.accounts), map[], map[]));
    ghost var objects := Table(SeededQuotas(t.accounts), SeededCounters(t), map[]);
    script := AddChains(script, objects);
    script := AddRules(script, byId, ports, s.now, blocked, objects.(chains := map[In := [], Out := []]));
  }

  method AddOne(script: seq<Command>, ghost tb: Table, hook: Direction, r: Rule)
    returns (longer: seq<Command>, ghost next: Table)
    requires Builds(script, tb) && hook in tb.chains && Declared(r.action, tb)
    ensures Builds(longer, next)
    ensures next == tb.(chains := tb.chains[hook := tb.chains[hook] + [r]])
  {
    next := tb.(chains := tb.chains[hook := tb.chains[hook] + [r]]);
    Append(script, tb, AddRule(hook, r), next);
    longer := script + [AddRule(hook, r)];
  }

  lemma OrderedStarts(t: Tree)
    requires t.Valid()
    ensures forall i, j | i in t.ports && j in t.ports && i != j :: t.ports[i].start != t.ports[j].start
  {
    forall i, j | i in t.ports && j in t.ports && i != j ensures t.ports[i].start != t.ports[j].start {
      assert !t.ports[i].Overlaps(t.ports[j]);
      assert t.ports[i].ValidRange() && t.ports[j].ValidRange();
    }
  }

  lemma CountersComplete(counters: map<Key, Counter>, t: Tree, ports: seq<Port>)
    requires ListsPorts(ports, t.ports)
    requires CountersSoFar(counters, t, ports, |ports|, 0) && SeedsFrom(counters, t)
    ensures counters == SeededCounters(t)
  {
    assert ports[..|ports|] == ports;
    forall k ensures k in counters <==> k in SeededCounters(t) {
      if HasPort(ports, k.port) {
        var i :| 0 <= i < |ports| && ports[i].id == k.port;
      }
      if k.port in t.ports { assert HasPort(ports, k.port); }
    }
    KeyMapExt(counters, SeededCounters(t));
  }

  // ---------------------------------------------------------------- the manager

  /** The engine's handle on the kernel table. */
  class Manager {
    var kernel: Kernel

    constructor (k: Kernel)
      ensures kernel == k
    {
      kernel := k;
    }

    /** Validate, render, run. `refused` is nft failing for reasons of its own; a failed
        transaction leaves the table alone. */
    method Apply(s: Snapshot, refused: bool, ghost t: Tree) returns (ok: bool)
      requires Lists(s, t) && t.Keyed()
      modifies this
      ensures ok <==> t.Valid() && !refused
      ensures kernel == if ok then Present(Rendered(t, t.ExpiredSet(s.now))) else old(kernel)
    {
      WellFormedIsValid(s, t);
      var refusal := Validate(s);
      if refusal.Some? { return false; }
      var script := BuildScript(s, t);
      if refused { return false; }
      var result := Run(script, kernel);
      kernel := result.value;
      return true;
    }

    method TableExists() returns (there: bool)
      ensures there <==> kernel.Present?
    {
      there := kernel.Present?;
    }

    /** `listing` is what nft prints for the current table. */
    method Sample(listing: seq<Item>) returns (s: Sample)
      requires kernel.Present? && Int64Ids(kernel.table) && IsListing(listing, kernel.table)
      ensures s == SampleOf(kernel.table)
    {
      s := ReadListing(listing, kernel.table);
    }
  }
}
