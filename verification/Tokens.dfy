/** Query tokens: drawn at random, unique, and resolved to what they grant. */
module Tokens {
  import opened Model
  import opened Tables
  import Ruleset
  import opened Engine
  import opened Invariant
  import opened Guarantees

  const ALPHABET: string := "ABCDEFGHIJKLMNOPQRSTUVWXYZabcdefghijklmnopqrstuvwxyz"

  const TOKEN_LENGTH: nat := 16

  /** Bytes at or above the largest multiple of the alphabet's size are rejected. */
  const REJECT: int := 256 - 256 % 52

  predicate IsToken(t: string) { |t| == TOKEN_LENGTH && forall i | 0 <= i < |t| :: t[i] in ALPHABET }

  type byte = x: int | 0 <= x < 256

  /** The letters the bytes yield, in order, rejected ones skipped. */
  function LettersOf(bytes: seq<byte>): string {
    if bytes == [] then ""
    else if bytes[0] >= REJECT then LettersOf(bytes[1..])
    else [ALPHABET[bytes[0] % 52]] + LettersOf(bytes[1..])
  }

  lemma {:induction false} LettersAppend(bytes: seq<byte>, b: byte)
    ensures LettersOf(bytes + [b]) == LettersOf(bytes) + if b >= REJECT then "" else [ALPHABET[b % 52]]
  {
    if bytes == [] {
      assert bytes + [b] == [b] && [b][1..] == [];
    } else {
      assert (bytes + [b])[1..] == bytes[1..] + [b];
      LettersAppend(bytes[1..], b);
    }
  }

  /** The system's random source, as the bytes it has yet to give; reading past them is its error. */
  class Random {
    var bytes: seq<byte>

    constructor (bytes: seq<byte>)
      ensures this.bytes == bytes
    {
      this.bytes := bytes;
    }

    method Read() returns (b: Option<byte>)
      modifies this
      ensures old(bytes) == [] ==> b == None && bytes == []
      ensures old(bytes) != [] ==> b == Some(old(bytes)[0]) && bytes == old(bytes)[1..]
    {
      if bytes == [] { return None; }
      b := Some(bytes[0]);
      bytes := bytes[1..];
    }
  }

  /** A token is the letters of the bytes it consumed, and consumes no byte more than it needs. */
  method GenerateToken(r: Random) returns (t: Option<string>)
    modifies r
    ensures t.Some? ==> IsToken(t.value)
    ensures exists read: seq<byte> :: old(r.bytes) == read + r.bytes
              && (if t.Some? then LettersOf(read) == t.value && read != [] && LettersOf(read[..|read| - 1]) != t.value
                  else r.bytes == [] && |LettersOf(read)| < TOKEN_LENGTH)
  {
    var out: string := "";
    ghost var read: seq<byte> := [];
    assert old(r.bytes) == read + r.bytes;
    while |out| < TOKEN_LENGTH
      invariant |out| <= TOKEN_LENGTH && forall i | 0 <= i < |out| :: out[i] in ALPHABET
      invariant old(r.bytes) == read + r.bytes && LettersOf(read) == out
      invariant read != [] && |out| == TOKEN_LENGTH ==> LettersOf(read[..|read| - 1]) != out
      invariant read == [] ==> out == ""
      decreases |r.bytes|
    {
      var b := r.Read();
      if b.None? { return None; }
      LettersAppend(read, b.value);
      read := read + [b.value];
      assert read[..|read| - 1] + [b.value] == read;
      if b.value >= REJECT { continue; }
      out := out + [ALPHABET[b.value % 52]];
    }
    return Some(out);
  }

  /** Draws until the token is not in use. */
  method UniqueToken(r: Random, used: set<string>) returns (t: Option<string>)
    modifies r
    ensures t.Some? ==> IsToken(t.value) && t.value !in used
    ensures t.None? ==> r.bytes == []
    ensures |r.bytes| <= |old(r.bytes)|
  {
    while true
      invariant |r.bytes| <= |old(r.bytes)|
      decreases |r.bytes|
    {
      ghost var before := r.bytes;
      t := GenerateToken(r);
      ghost var read: seq<byte> :| before == read + r.bytes && (t.Some? ==> read != []);
      if t.None? || t.value !in used { return; }
    }
  }

  // ---------------------------------------------------------------- resolution

  datatype Grant = Nothing | Everything | Only(account: int)

  /** What a token grants. */
  ghost function Resolve(accounts: map<int, Account>, master: string, token: string): Grant {
    if token == "" then Nothing
    else if master != "" && token == master then Everything
    else if exists id :: Bears(accounts, id, token)
    then (var id :| Bears(accounts, id, token); Only(id))
    else Nothing
  }

  predicate Bears(accounts: map<int, Account>, id: int, token: string) {
    id in accounts && accounts[id].token != "" && accounts[id].token == token
  }

  /** On every reachable state with the lock free: each account's token resolves to exactly that
      account, the master token to all, and any other string to none. */
  lemma TokensResolve(s: State, token: string)
    requires Reachable(s) && s.proc.Running? && s.proc.lock.Free?
    ensures var snap, master := s.proc.mem.snap, s.proc.mem.master;
            && Resolve(snap.accounts, master, master) == Everything
            && (forall id | id in snap.accounts :: Resolve(snap.accounts, master, snap.accounts[id].token) == Only(id))
            && ((token != master && forall id | id in snap.accounts :: snap.accounts[id].token != token)
                ==> Resolve(snap.accounts, master, token) == Nothing)
  {
    ReachableGood(s);
    Structure.FreshSameDesign("", s.proc.mem.snap, s.db.tree, s.db.master);
    var snap, master := s.proc.mem.snap, s.proc.mem.master;
    DistinctResolve(snap.accounts, master);
  }

  lemma DistinctResolve(accounts: map<int, Account>, master: string)
    requires TokensDistinct(accounts, master)
    ensures Resolve(accounts, master, master) == Everything
    ensures forall id | id in accounts :: Resolve(accounts, master, accounts[id].token) == Only(id)
  {
    forall id | id in accounts ensures Resolve(accounts, master, accounts[id].token) == Only(id) {
      assert Bears(accounts, id, accounts[id].token);
    }
  }

  // ---------------------------------------------------------------- replaced tokens

  ghost predicate NoRow(accounts: map<int, Account>, token: string) {
    forall id | id in accounts :: accounts[id].token != token
  }

  /** Neither the database nor memory, nor a tree on its way into memory, bears the token. */
  ghost predicate Unborne(s: State, token: string) {
    && NoRow(s.db.tree.accounts, token) && s.db.master != token
    && match s.proc
       case Down => true
       case Starting(snap, _, _, _) => NoRow(snap.accounts, token)
       case Running(mem, _, _, lock) =>
         && NoRow(mem.snap.accounts, token) && mem.master != token
         && (lock.Loaded? || lock.Applied? ==> NoRow(lock.tree.accounts, token))
  }

  /** The generator drew the token for this step. */
  predicate Draws(st: Step, token: string) { (st.Change? || st.RenewToken? || st.RenewMaster?) && st.token == token }

  lemma MutateDraws(op: Op, drawn: string, now: Time, db: Db, snap: Tree, live: Ruleset.Sample, token: string)
    requires NoRow(db.tree.accounts, token) && drawn != token && Mutate(op, drawn, now, db, snap, live).Some?
    ensures NoRow(Mutate(op, drawn, now, db, snap, live).value.0.tree.accounts, token)
    ensures Mutate(op, drawn, now, db, snap, live).value.0.master == db.master
  {
  }

  lemma PersistDraws(t: Tree, r: Ruleset.Sample, token: string)
    requires NoRow(t.accounts, token)
    ensures NoRow(Persist(t, r).accounts, token) && NoRow(Ruleset.Adopt(t, r).accounts, token)
  {
  }

  lemma UnborneWrite(s: State, st: Step, token: string)
    requires Unborne(s, token) && Enabled(s, st)
    requires st.PersistWrite? || st.PersistCopy? || st.Fold? || st.Adopted? || st.Start?
    ensures Unborne(Next(s, st), token)
  {
    hide Persist, Ruleset.Adopt, NoRow;
    var t := if st.PersistCopy? then s.proc.mem.snap else s.db.tree;
    var r := if st.PersistWrite? then s.proc.batches[st.i] else if st.Adopted? then s.proc.live
             else if st.Start? then Reading(s.kernel, Ruleset.NO_SAMPLE) else s.proc.mem.live;
    PersistDraws(t, r, token);
  }

  lemma UnborneChange(s: State, drawn: string, token: string)
    requires Unborne(s, token) && Enabled(s, Change(drawn)) && drawn != token
    ensures Unborne(Next(s, Change(drawn)), token)
  {
    hide Mutate, NoRow;
    var mem, op := s.proc.mem, s.proc.lock.op;
    if Mutate(op, drawn, s.now, s.db, mem.snap, mem.live).Some? {
      MutateDraws(op, drawn, s.now, s.db, mem.snap, mem.live, token);
    }
  }

  lemma UnborneOther(s: State, st: Step, token: string)
    requires Unborne(s, token) && Enabled(s, st) && !Draws(st, token)
    requires !(st.PersistWrite? || st.PersistCopy? || st.Fold? || st.Adopted? || st.Start? || st.Change?)
    ensures Unborne(Next(s, st), token)
  {
    hide Ruleset.Process, Ruleset.Rendered, Ruleset.SampleOf, Tree.Valid, ArgsOk;
  }

  lemma UnborneStep(s: State, st: Step, token: string)
    requires Unborne(s, token) && Enabled(s, st) && !Draws(st, token)
    ensures Unborne(Next(s, st), token)
  {
    hide Unborne, Enabled, Next;
    match st
    case Change(drawn) => UnborneChange(s, drawn, token);
    case PersistWrite(_) => UnborneWrite(s, st, token);
    case PersistCopy => UnborneWrite(s, st, token);
    case Fold => UnborneWrite(s, st, token);
    case Adopted => UnborneWrite(s, st, token);
    case Start => UnborneWrite(s, st, token);
    case _ => UnborneOther(s, st, token);
  }

  /** A token nothing bears comes back only if the generator draws it again. */
  lemma {:induction false} UnborneRun(s: State, steps: seq<Step>, token: string)
    requires Unborne(s, token) && Legal(s, steps) && NeverDrawn(steps, token)
    ensures Unborne(After(s, steps), token)
    decreases |steps|
  {
    hide Unborne, Enabled, Next, Draws;
    if steps != [] {
      UnborneStep(s, steps[0], token);
      assert forall i | 0 <= i < |steps[1..]| :: steps[1..][i] == steps[i + 1];
      UnborneRun(Next(s, steps[0]), steps[1..], token);
    }
  }

  lemma UnborneGrantsNothing(s: State, token: string)
    requires Unborne(s, token) && s.proc.Running?
    ensures Resolve(s.proc.mem.snap.accounts, s.proc.mem.master, token) == Nothing
  {
  }

  lemma RenewedUnborne(s: State, id: int, token: string)
    requires Good(s) && Enabled(s, RenewToken(id, token))
    ensures Unborne(Next(s, RenewToken(id, token)), s.proc.mem.snap.accounts[id].token)
  {
    MemoryDistinct(s);
    TokensAgree(s);
    hide Good;
  }

  lemma RenewedMasterUnborne(s: State, token: string)
    requires Good(s) && Enabled(s, RenewMaster(token))
    ensures Unborne(Next(s, RenewMaster(token)), s.proc.mem.master)
  {
    MemoryDistinct(s);
    TokensAgree(s);
    hide Good;
  }

  /** With the lock free the database's tokens are memory's. */
  lemma TokensAgree(s: State)
    requires Good(s) && s.proc.Running? && s.proc.lock.Free?
    ensures s.db.tree.accounts.Keys == s.proc.mem.snap.accounts.Keys && s.db.master == s.proc.mem.master
    ensures forall id | id in s.db.tree.accounts :: s.db.tree.accounts[id].token == s.proc.mem.snap.accounts[id].token
  {
    forall id | id in s.db.tree.accounts ensures s.db.tree.accounts[id].token == s.proc.mem.snap.accounts[id].token {
      Structure.DesignOf(s.proc.mem.snap, s.db.tree, id);
    }
  }

  /** The run draws the token for no account and not for the master. */
  predicate NeverDrawn(steps: seq<Step>, token: string) { forall i | 0 <= i < |steps| :: !Draws(steps[i], token) }

  /** A replaced token grants nothing, at once and in every later state of a running process, through
      reconciles, crashes and restarts, unless the generator draws it again. */
  lemma ReplacedTokenDies(s: State, id: int, token: string, steps: seq<Step>)
    requires Reachable(s) && Enabled(s, RenewToken(id, token))
    requires Legal(Next(s, RenewToken(id, token)), steps) && NeverDrawn(steps, s.proc.mem.snap.accounts[id].token)
    ensures var n := After(Next(s, RenewToken(id, token)), steps);
            n.proc.Running? ==> Resolve(n.proc.mem.snap.accounts, n.proc.mem.master, s.proc.mem.snap.accounts[id].token) == Nothing
  {
    hide Good, Reachable, Unborne, Next, Legal, After;
    ReachableGood(s);
    RenewedUnborne(s, id, token);
    UnborneRun(Next(s, RenewToken(id, token)), steps, s.proc.mem.snap.accounts[id].token);
    var n := After(Next(s, RenewToken(id, token)), steps);
    if n.proc.Running? { UnborneGrantsNothing(n, s.proc.mem.snap.accounts[id].token); }
  }

  lemma ReplacedMasterDies(s: State, token: string, steps: seq<Step>)
    requires Reachable(s) && Enabled(s, RenewMaster(token))
    requires Legal(Next(s, RenewMaster(token)), steps) && NeverDrawn(steps, s.proc.mem.master)
    ensures var n := After(Next(s, RenewMaster(token)), steps);
            n.proc.Running? ==> Resolve(n.proc.mem.snap.accounts, n.proc.mem.master, s.proc.mem.master) == Nothing
  {
    hide Good, Reachable, Unborne, Next, Legal, After;
    ReachableGood(s);
    RenewedMasterUnborne(s, token);
    UnborneRun(Next(s, RenewMaster(token)), steps, s.proc.mem.master);
    var n := After(Next(s, RenewMaster(token)), steps);
    if n.proc.Running? { UnborneGrantsNothing(n, s.proc.mem.master); }
  }

  /** The replacement works at once, for exactly what the old one granted. */
  lemma ReplacementWorks(s: State, st: Step)
    requires Reachable(s) && Enabled(s, st) && (st.RenewToken? || st.RenewMaster?)
    ensures var mem := Next(s, st).proc.mem;
            Resolve(mem.snap.accounts, mem.master, st.token) == if st.RenewToken? then Only(st.account) else Everything
  {
    hide Good;
    ReachableGood(s);
    MemoryDistinct(s);
    var accounts := Next(s, st).proc.mem.snap.accounts;
    assert st.RenewToken? ==> accounts[st.account].token == st.token && Bears(accounts, st.account, st.token);
  }

  lemma MemoryDistinct(s: State)
    requires Good(s) && s.proc.Running? && s.proc.lock.Free?
    ensures TokensDistinct(s.proc.mem.snap.accounts, s.proc.mem.master)
  {
    Structure.FreshSameDesign("", s.proc.mem.snap, s.db.tree, s.db.master);
  }

  /** Which letters the generator's bytes stand for: 208 of the 256 values, four for each of the 52 letters,
      A to Z and then a to z, the rest skipped; and a token is sixteen of them. */
  lemma LettersSpelled(b: byte, bytes: seq<byte>)
    ensures LettersOf([b] + bytes) == (if b < 208 then [Letter(b % 52)] else "") + LettersOf(bytes)
  {
    assert ([b] + bytes)[1..] == bytes;
    if b < 208 { AlphabetSpelled(b % 52); }
  }

  function Letter(i: int): char
    requires 0 <= i < 52
  {
    if i < 26 then ('A' as int + i) as char else ('a' as int + i - 26) as char
  }

  lemma AlphabetSpelled(i: int)
    requires 0 <= i < 52
    ensures |ALPHABET| == 52 && ALPHABET[i] == Letter(i)
  {
    if i < 26 {
      assert ALPHABET[..26] == "ABCDEFGHIJKLMNOPQRSTUVWXYZ" && ALPHABET[i] == ALPHABET[..26][i];
      UpperSpelled(i);
    } else {
      assert ALPHABET[26..] == "abcdefghijklmnopqrstuvwxyz" && ALPHABET[i] == ALPHABET[26..][i - 26];
      LowerSpelled(i - 26);
    }
  }

  lemma UpperSpelled(i: int)
    requires 0 <= i < 26
    ensures "ABCDEFGHIJKLMNOPQRSTUVWXYZ"[i] == ('A' as int + i) as char
  {
    assert i in CASES;
  }

  lemma LowerSpelled(i: int)
    requires 0 <= i < 26
    ensures "abcdefghijklmnopqrstuvwxyz"[i] == ('a' as int + i) as char
  {
    assert i in CASES;
  }

  const CASES: set<int> :=
    {0, 1, 2, 3, 4, 5, 6, 7, 8, 9, 10, 11, 12, 13, 14, 15, 16, 17, 18, 19, 20, 21, 22, 23, 24, 25}

  lemma TokenSpelled(t: string)
    ensures IsToken(t) <==> |t| == 16 && forall i | 0 <= i < |t| :: 'A' <= t[i] <= 'Z' || 'a' <= t[i] <= 'z'
  {
    forall c: char ensures c in ALPHABET <==> 'A' <= c <= 'Z' || 'a' <= c <= 'z' {
      LetterOrNot(c);
    }
    hide Letter;
  }

  lemma LetterOrNot(c: char)
    ensures c in ALPHABET <==> 'A' <= c <= 'Z' || 'a' <= c <= 'z'
  {
    if 'A' <= c <= 'Z' { AlphabetSpelled(c as int - 'A' as int); }
    if 'a' <= c <= 'z' { AlphabetSpelled(26 + c as int - 'a' as int); }
    if c in ALPHABET {
      var i: int :| 0 <= i < |ALPHABET| && ALPHABET[i] == c;
      AlphabetSpelled(i);
    }
  }
}
