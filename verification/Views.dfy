/** Snapshot slices against the relations they list, and the views built from them. */
module Views {
  import opened Model
  import opened Ruleset
  import opened Engine
  import T = Tables

  function WithReading(a: Account, seen: Sample): Account { if a.id in seen.used then a.(used := seen.used[a.id]) else a }

  lemma ReadingLists(xs: seq<Account>, ys: seq<Account>, m: map<int, Account>, seen: Sample)
    requires ListsAccounts(xs, m) && |ys| == |xs| && forall j | 0 <= j < |xs| :: ys[j] == WithReading(xs[j], seen)
    ensures ListsAccounts(ys, FoldUsed(m, seen.used))
  {
    forall id | id in FoldUsed(m, seen.used) ensures HasAccount(ys, id) {
      assert HasAccount(xs, id);
      var i :| 0 <= i < |xs| && xs[i].id == id;
      assert ys[i].id == id;
    }
  }

  lemma RowLists(xs: seq<Account>, m: map<int, Account>, i: nat, row: Account)
    requires ListsAccounts(xs, m) && i < |xs| && row.id == xs[i].id
    ensures ListsAccounts(xs[i := row], m[row.id := row])
  {
    var ys, now := xs[i := row], m[row.id := row];
    forall id | id in now ensures HasAccount(ys, id) {
      assert HasAccount(xs, id);
      var j :| 0 <= j < |xs| && xs[j].id == id;
      assert ys[j].id == id;
    }
  }

  lemma PersistEmpty(t: Tree, s: Sample)
    requires |s.used| == 0 && |s.counters| == 0
    ensures T.Persist(t, s) == t
  {
    MapExt(T.Persist(t, s).accounts, t.accounts);
    KeyMapExt(T.Persist(t, s).counters, t.counters);
  }

  /** The account's ports, in order. */
  function OwnedIn(ports: seq<Port>, id: int): seq<Port> {
    if ports == [] then []
    else (if ports[0].account == id then [ports[0]] else []) + OwnedIn(ports[1..], id)
  }

  lemma {:induction false} OwnedAppend(ports: seq<Port>, p: Port, id: int)
    ensures OwnedIn(ports + [p], id) == OwnedIn(ports, id) + if p.account == id then [p] else []
  {
    if ports == [] {
      assert ports + [p] == [p] && [p][1..] == [];
    } else {
      assert (ports + [p])[1..] == ports[1..] + [p];
      OwnedAppend(ports[1..], p, id);
    }
  }

  lemma {:induction false} OwnedMembers(ports: seq<Port>, id: int, p: Port)
    ensures p in OwnedIn(ports, id) <==> p in ports && p.account == id
  {
    if ports != [] { OwnedMembers(ports[1..], id, p); }
  }

  lemma OwnedEmpty(ports: seq<Port>, m: map<int, Port>, id: int)
    requires ListsPorts(ports, m)
    ensures OwnedIn(ports, id) == [] <==> T.OwnedBy(m, id) == {}
  {
    if OwnedIn(ports, id) != [] {
      OwnedMembers(ports, id, OwnedIn(ports, id)[0]);
      assert OwnedIn(ports, id)[0].id in T.OwnedBy(m, id);
    }
    if T.OwnedBy(m, id) != {} {
      var p := Member(T.OwnedBy(m, id));
      assert HasPort(ports, p);
      var i :| 0 <= i < |ports| && ports[i].id == p;
      OwnedMembers(ports, id, ports[i]);
    }
  }

  lemma NoClash(ports: seq<Port>, m: map<int, Port>, except: Option<int>, p: Port)
    requires ListsPorts(ports, m)
    requires forall j | 0 <= j < |ports| :: Some(ports[j].id) != except ==> !ports[j].Overlaps(p)
    ensures !Clashes(m, except, p)
  {
    forall id | id in m && Some(id) != except ensures !m[id].Overlaps(p) {
      assert HasPort(ports, id);
    }
  }

  // ---------------------------------------------------------------- views

  datatype PortView = PortView(port: int, start: uint16, end: uint16, inBytes: nat, outBytes: nat)

  datatype AccountView = AccountView(account: Account, used: nat, expired: bool, ports: seq<PortView>)

  function BytesOf(live: Sample, k: Key): nat { if k in live.counters then live.counters[k].bytes else 0 }

  function LineOf(p: Port, live: Sample): PortView {
    PortView(p.id, p.start, p.end, BytesOf(live, Key(p.id, In)), BytesOf(live, Key(p.id, Out)))
  }

  function TotalBytes(lines: seq<PortView>): nat {
    if lines == [] then 0 else lines[0].inBytes + lines[0].outBytes + TotalBytes(lines[1..])
  }

  lemma {:induction false} TotalAppend(lines: seq<PortView>, l: PortView)
    ensures TotalBytes(lines + [l]) == TotalBytes(lines) + l.inBytes + l.outBytes
  {
    if lines == [] {
      assert lines + [l] == [l] && [l][1..] == [];
    } else {
      assert (lines + [l])[1..] == lines[1..] + [l];
      TotalAppend(lines[1..], l);
    }
  }

  /** v shows account a: one line for each of its ports, and its usage: the live quota figure, or
      the recorded one when the kernel has no quota yet, or for an unlimited account all its bytes. */
  ghost predicate Faithful(v: AccountView, a: Account, ports: seq<Port>, live: Sample, expired: set<int>) {
    && v.account == a && (v.expired <==> a.id in expired)
    && |v.ports| == |OwnedIn(ports, a.id)|
    && (forall i | 0 <= i < |v.ports| :: v.ports[i] == LineOf(OwnedIn(ports, a.id)[i], live))
    && v.used == (if !a.tier.HasQuota() then TotalBytes(v.ports) else if a.id in live.used then live.used[a.id] else a.used)
  }

  /** v is the view of account id that memory gives, ports being the snapshot's slice. */
  ghost predicate ViewOf(mem: Mem, ports: seq<Port>, id: int, v: AccountView) {
    && ListsPorts(ports, mem.snap.ports) && id in mem.snap.accounts && mem.snap.accounts[id].id == id
    && Faithful(v, mem.snap.accounts[id], ports, mem.live, mem.expired)
  }

  function Total(xs: seq<nat>): nat { if xs == [] then 0 else xs[0] + Total(xs[1..]) }

  lemma {:induction false} TotalIsSum(lines: seq<PortView>, both: seq<nat>)
    requires |both| == |lines| && forall i | 0 <= i < |lines| :: both[i] == lines[i].inBytes + lines[i].outBytes
    ensures TotalBytes(lines) == Total(both)
  {
    if lines != [] { TotalIsSum(lines[1..], both[1..]); }
  }

  /** The figure a counter has in a sample. */
  ghost predicate Reads(live: Sample, k: Key, bytes: nat) {
    if k in live.counters then bytes == live.counters[k].bytes else bytes == 0
  }

  /** The line of port p: its range, and the live figures of both its counters. */
  ghost predicate Spells(l: PortView, p: Port, live: Sample) {
    && l.port == p.id && l.start == p.start && l.end == p.end
    && Reads(live, Key(p.id, In), l.inBytes) && Reads(live, Key(p.id, Out), l.outBytes)
  }

  /** A faithful view has one line for each of the account's ports and no other, in order. */
  lemma LinesSpelled(v: AccountView, a: Account, ports: seq<Port>, live: Sample, expired: set<int>)
    requires Faithful(v, a, ports, live, expired)
    ensures |v.ports| == |OwnedIn(ports, a.id)|
    ensures forall i | 0 <= i < |v.ports| :: Spells(v.ports[i], OwnedIn(ports, a.id)[i], live)
  {
    hide OwnedIn, TotalBytes;
  }

  lemma OwnedSpelled(ports: seq<Port>, id: int)
    ensures forall p :: p in OwnedIn(ports, id) <==> p in ports && p.account == id
  {
    forall p ensures p in OwnedIn(ports, id) <==> p in ports && p.account == id {
      OwnedMembers(ports, id, p);
    }
  }

  /** An unlimited account's usage is the sum of both figures over its lines. */
  lemma UnlimitedSpelled(v: AccountView, a: Account, ports: seq<Port>, live: Sample, expired: set<int>, both: seq<nat>)
    requires Faithful(v, a, ports, live, expired) && a.tier != Monthly && a.tier != OneShot
    requires |both| == |v.ports| && forall i | 0 <= i < |both| :: both[i] == v.ports[i].inBytes + v.ports[i].outBytes
    ensures v.used == Total(both)
  {
    hide OwnedIn, LineOf;
    TotalIsSum(v.ports, both);
  }
}
