/** Where the code's promises end: concrete runs and inputs on which they fail. The exact conditions
    are StraddleExact in Straddling, FailedUsageChange in Retrying, ReseedVerdictExact in Ruleset
    and ExpiryRoundTrip in ExpiryForms. */
module Limits {
  import opened Model
  import opened Ruleset
  import opened Tables
  import opened Engine
  import opened Invariant
  import opened Runs
  import Calendar
  import ExpiryText
  import ExpiryForms

  /** One monthly account that has used 5 bytes, and no ports. */
  const SPENT := Account(1, "a", Monthly, 1.0, 1, 5, 0, "t", 0)

  function Owning(used: nat): Tree { Tree(map[1 := SPENT.(used := used)], map[], map[]) }

  function Kept(used: nat): Table { Table(map[1 := Quota(1073741824, used)], map[], map[In := [], Out := []]) }

  function Seen(used: nat): Sample { Sample(map[1 := used], map[]) }

  const BOOTED := State(Db(Owning(5), "m", 2, 1), Absent, 0, Down, Tree(map[], map[], map[]), {})

  /** A running state whose kernel lists 5 bytes. */
  function Standing(stored: nat, mem: Mem, sampler: Sampler, batches: seq<Sample>, lock: Lock): State {
    State(Db(Owning(stored), "m", 2, 1), Present(Kept(5)), 0, Running(mem, sampler, batches, lock), Owning(5), {})
  }

  function Memory(snap: nat, live: Sample, unsynced: bool): Mem { Mem(Owning(snap), live, 0, {}, unsynced, "m") }

  lemma Renders(used: nat)
    ensures Rendered(Owning(used), {}) == Kept(used) && Owning(used).Valid() && Owning(used).ExpiredSet(0) == {}
    ensures SampleOf(Kept(5)) == Seen(5)
  {
    MapExt(SeededQuotas(Owning(used).accounts), Kept(used).quotas);
    SetExt(Owning(used).ExpiredSet(0), {});
    MapExt(Listings(Kept(5).quotas), Seen(5).used);
  }

  lemma FoldsRows(stored: nat, seen: nat)
    ensures Persist(Owning(stored), Seen(seen)) == Owning(seen) && Adopt(Owning(stored), Seen(seen)) == Owning(seen)
    ensures Adopt(Owning(stored), NO_SAMPLE) == Owning(stored)
  {
    MapExt(FoldUsed(Owning(stored).accounts, Seen(seen).used), Owning(seen).accounts);
    MapExt(FoldUsed(Owning(stored).accounts, NO_SAMPLE.used), Owning(stored).accounts);
  }

  lemma Resets(token: string, db: Db)
    requires db == Db(Owning(5), "m", 2, 1)
    ensures Mutate(ResetAccount(1), token, 0, db, Owning(5), Seen(5)) == Some((db.(tree := Owning(0)), Seen(0)))
  {
    MapExt(Owning(5).accounts[1 := Owning(5).accounts[1].(used := 0, lastReset := Unix(0))], Owning(0).accounts);
    MapExt(Seen(5).used[1 := 0], Seen(0).used);
  }

  lemma Boots(s: State)
    requires s == BOOTED
    ensures Init(s) && Enabled(s, Start) && Enabled(Next(s, Start), StartOk)
    ensures Next(Next(s, Start), StartOk) == Standing(5, Memory(5, NO_SAMPLE, false), Idle, [], Free)
  {
    hide Rendered, Adopt, SampleOf, Next, Enabled, Tree.Valid, Tree.ExpiredSet;
    BootsSound();
    Renders(5);
    FoldsRows(5, 5);
    Starts(s);
    StartsUp(Next(s, Start));
  }

  lemma BootsSound()
    ensures Init(BOOTED)
  {
  }

  /** Two steps with the state between them. */
  lemma Two(s: State, a: Step, m: State, b: Step, n: State)
    requires Enabled(s, a) && Next(s, a) == m && Enabled(m, b) && Next(m, b) == n
    ensures Legal(s, [a, b]) && After(s, [a, b]) == n
  {
    hide Enabled, Next;
    assert [a, b][1..] == [b] && [b][1..] == [];
    assert Legal(n, []) && Legal(m, [b]) && After(m, [b]) == After(n, []) == n;
  }

  const RESET := ResetAccount(1)

  lemma Samples(s: State)
    requires s == Standing(5, Memory(5, NO_SAMPLE, false), Idle, [], Free)
    ensures Legal(s, [SampleNote, SampleRead])
    ensures After(s, [SampleNote, SampleRead]) == Standing(5, Memory(5, NO_SAMPLE, false), Holding(0, Seen(5)), [], Free)
  {
    hide Rendered, SampleOf, Tree.Valid, Persist, Legal, After;
    Renders(5);
    Two(s, SampleNote, Standing(5, Memory(5, NO_SAMPLE, false), Noted(0), [], Free), SampleRead,
        Standing(5, Memory(5, NO_SAMPLE, false), Holding(0, Seen(5)), [], Free));
  }

  lemma Copies(s: State)
    requires s == Standing(5, Memory(5, NO_SAMPLE, false), Holding(0, Seen(5)), [], Free)
    ensures Legal(s, [SampleCommit, PersistCopy])
    ensures After(s, [SampleCommit, PersistCopy]) == Standing(5, Memory(5, Seen(5), false), Idle, [Seen(5)], Free)
  {
    hide Rendered, Adopt, Tree.Valid, Persist, Legal, After;
    FoldsRows(5, 5);
    assert [] + [Seen(5)] == [Seen(5)];
    Two(s, SampleCommit, Standing(5, Memory(5, Seen(5), false), Idle, [], Free), PersistCopy,
        Standing(5, Memory(5, Seen(5), false), Idle, [Seen(5)], Free));
  }

  /** The first half of a reset or a resync, up to the mutation: the fold stores 5 bytes. */
  lemma Opens(s: State, op: Op, stored: nat, live: Sample, unsynced: bool, snap: nat, batches: seq<Sample>)
    requires s == Standing(stored, Memory(snap, live, unsynced), Idle, batches, Free) && (op == RESET || op == Resync)
    ensures Legal(s, [Begin(op), Fold])
    ensures After(s, [Begin(op), Fold]) == Standing(5, Memory(snap, Seen(5), unsynced), Idle, batches, Lock.Folded(op, Seen(5)))
  {
    hide Rendered, SampleOf, Tree.Valid, Persist, Legal, After;
    Renders(5);
    FoldsRows(stored, 5);
    Two(s, Begin(op), Standing(stored, Memory(snap, Seen(5), unsynced), Idle, batches, Sampled(op, Seen(5))), Fold,
        Standing(5, Memory(snap, Seen(5), unsynced), Idle, batches, Lock.Folded(op, Seen(5))));
  }

  lemma Finishes(s: State, op: Op, snap: nat, live: Sample, unsynced: bool)
    requires s == Standing(5, Memory(snap, live, unsynced), Idle, [], Lock.Loaded(op, Seen(5), Owning(5)))
    ensures Legal(s, [ApplyOk]) && After(s, [ApplyOk]).kernel == Present(Kept(5))
  {
    hide Rendered, Tree.Valid, Tree.ExpiredSet, Legal, After;
    Renders(5);
    One(s, ApplyOk);
  }

  // ---------------------------------------------------------------- a late write undoes a reset

  lemma WritesLate(s: State)
    requires s == Standing(5, Memory(5, Seen(5), false), Idle, [Seen(5)], Lock.Folded(RESET, Seen(5)))
    ensures Legal(s, [Change(""), PersistWrite(0)])
    ensures After(s, [Change(""), PersistWrite(0)]) == Standing(5, Memory(5, Seen(0), false), Idle, [], Lock.Mutated(RESET, Seen(5)))
  {
    hide Mutate, Tree.Valid, Persist, Legal, After;
    Resets("", s.db);
    FoldsRows(0, 5);
    assert [Seen(5)][..0] + [Seen(5)][1..] == [];
    Two(s, Change(""), Standing(0, Memory(5, Seen(0), false), Idle, [Seen(5)], Lock.Mutated(RESET, Seen(5))), PersistWrite(0),
        Standing(5, Memory(5, Seen(0), false), Idle, [], Lock.Mutated(RESET, Seen(5))));
  }

  lemma Reloads(s: State, op: Op, stored: nat, mem: Mem)
    requires s == Standing(stored, mem, Idle, [], Lock.Mutated(op, Seen(5)))
    ensures Legal(s, [Reload])
    ensures After(s, [Reload]) == Standing(stored, mem, Idle, [], Lock.Loaded(op, Seen(5), Owning(stored)))
  {
    hide Tree.Valid, Legal, After;
    Renders(stored);
    One(s, Reload);
  }

  /** The persister copies 5 used bytes, a reset zeroes the row, the copy is written before the reload,
      and the rebuild revives the 5 bytes: a run from boot, with no failure in it. */
  lemma LateWriteUndoesReset() returns (steps: seq<Step>)
    ensures steps == [Start, StartOk] + [SampleNote, SampleRead] + [SampleCommit, PersistCopy] + [Begin(RESET), Fold]
                     + [Change(""), PersistWrite(0)] + [Reload] + [ApplyOk]
    ensures Init(BOOTED) && Legal(BOOTED, steps)
    ensures After(BOOTED, steps).kernel == Present(Kept(5))
  {
    hide Enabled, Next, Legal, After, Init;
    var s := Up();
    steps := [Start, StartOk];
    Samples(s);
    s, steps := On(s, steps, [SampleNote, SampleRead]);
    Copies(s);
    s, steps := On(s, steps, [SampleCommit, PersistCopy]);
    Opens(s, RESET, 5, Seen(5), false, 5, [Seen(5)]);
    s, steps := On(s, steps, [Begin(RESET), Fold]);
    WritesLate(s);
    s, steps := On(s, steps, [Change(""), PersistWrite(0)]);
    Reloads(s, RESET, 5, Memory(5, Seen(0), false));
    s, steps := On(s, steps, [Reload]);
    Finishes(s, RESET, 5, Seen(0), false);
    s, steps := On(s, steps, [ApplyOk]);
  }

  lemma Up() returns (s: State)
    ensures Init(BOOTED) && Legal(BOOTED, [Start, StartOk]) && After(BOOTED, [Start, StartOk]) == s
    ensures s == Standing(5, Memory(5, NO_SAMPLE, false), Idle, [], Free)
  {
    hide Enabled, Next, Legal, After, Init;
    Boots(BOOTED);
    s := Next(Next(BOOTED, Start), StartOk);
    Two(BOOTED, Start, Next(BOOTED, Start), StartOk, s);
  }

  lemma On(s: State, before: seq<Step>, more: seq<Step>) returns (n: State, steps: seq<Step>)
    requires Legal(BOOTED, before) && After(BOOTED, before) == s && Legal(s, more)
    ensures steps == before + more && Legal(BOOTED, steps) && After(BOOTED, steps) == n == After(s, more)
  {
    hide Enabled, Next;
    Joined(BOOTED, before, more);
    steps, n := before + more, After(s, more);
  }

  // ---------------------------------------------------------------- a failed apply undoes a reset

  lemma Mutates(s: State, op: Op, snap: nat, unsynced: bool)
    requires s == Standing(5, Memory(snap, Seen(5), unsynced), Idle, [], Lock.Folded(op, Seen(5)))
    requires (op == RESET && snap == 5) || op == Resync
    ensures var after := if op == RESET then 0 else 5;
            Legal(s, [Change("")])
            && After(s, [Change("")]) == Standing(after, Memory(snap, Seen(after), unsynced), Idle, [], Lock.Mutated(op, Seen(5)))
  {
    hide Mutate, Tree.Valid, Legal, After;
    Resets("", s.db);
    ResyncChanges("", 0, s.db, Owning(snap), Seen(5));
    var after := if op == RESET then 0 else 5;
    One(s, Change(""));
  }

  lemma FailsToApply(s: State)
    requires s == Standing(0, Memory(5, Seen(0), false), Idle, [], Lock.Loaded(RESET, Seen(5), Owning(0)))
    ensures Legal(s, [ApplyFail]) && After(s, [ApplyFail]) == Standing(0, Memory(0, Seen(0), true), Idle, [], Free)
  {
    hide Tree.Valid, Legal, After;
    One(s, ApplyFail);
  }

  /** A reset is saved but its apply fails; the retry samples the 5 bytes still in the kernel, folds
      them over the saved zero and seeds the kernel with them: a run from boot, with no late write in it. */
  lemma RetryUndoesReset() returns (steps: seq<Step>)
    ensures steps == [Start, StartOk] + [Begin(RESET), Fold] + [Change("")] + [Reload] + [ApplyFail]
                     + [Begin(Resync), Fold] + [Change("")] + [Reload] + [ApplyOk]
    ensures Init(BOOTED) && Legal(BOOTED, steps)
    ensures After(BOOTED, steps).kernel == Present(Kept(5))
  {
    hide Enabled, Next, Legal, After, Init;
    var s := Up();
    steps := [Start, StartOk];
    Opens(s, RESET, 5, NO_SAMPLE, false, 5, []);
    s, steps := On(s, steps, [Begin(RESET), Fold]);
    Mutates(s, RESET, 5, false);
    s, steps := On(s, steps, [Change("")]);
    Reloads(s, RESET, 0, Memory(5, Seen(0), false));
    s, steps := On(s, steps, [Reload]);
    FailsToApply(s);
    s, steps := On(s, steps, [ApplyFail]);
    Opens(s, Resync, 0, Seen(0), true, 0, []);
    s, steps := On(s, steps, [Begin(Resync), Fold]);
    Mutates(s, Resync, 0, true);
    s, steps := On(s, steps, [Change("")]);
    Reloads(s, Resync, 5, Memory(0, Seen(5), true));
    s, steps := On(s, steps, [Reload]);
    Finishes(s, Resync, 0, Seen(5), true);
    s, steps := On(s, steps, [ApplyOk]);
  }

  // ---------------------------------------------------------------- an empty packet, a five-digit year

  const WEB := Tree(map[1 := SPENT], map[1 := Port(1, 1, 80, 80)], map[])

  const EMPTY_PACKET := Packet(In, Tcp, 4000, 80, 0)

  /** A quota charged past its limit drops an empty packet; reseeded from its own listing, it lets it through. */
  lemma EmptyPacketTellsApart(t: Table)
    requires t == Rendered(WEB, {}).(quotas := map[1 := Quota(1073741824, 1073741825)])
    ensures !Process(t, EMPTY_PACKET).accepted && Process(Reseeded(t), EMPTY_PACKET).accepted
  {
    hide Chains;
    assert Ruleset.At(WEB.ports, EMPTY_PACKET, 1);
    WalkIsPolicy(t, WEB, {}, EMPTY_PACKET);
    WalkIsPolicy(Reseeded(t), WEB, {}, EMPTY_PACKET);
  }

  /** 10000-01-01 00:00 UTC is printed, and the text is refused. */
  lemma FiveDigitYearIsLost()
    ensures ExpiryText.ParsedExpiry(ExpiryText.FormatExpiry(253402300800, 0), 0) != Some(253402300800)
  {
    hide ExpiryText.ParsedExpiry, ExpiryText.FormatExpiry;
    Calendar.CivilInverse(Calendar.Date(10000, 1, 1));
    assert Calendar.DayNumber(Calendar.Date(10000, 1, 1)) == 2932897;
    ExpiryForms.ExpiryRoundTrip(253402300800, 0);
  }
}
