/** Monthly resets over runs of the machine: one per billing boundary, whatever else happens. */
module Resets {
  import opened Model
  import opened Calendar
  import opened Ruleset
  import opened Tables
  import opened Engine
  import opened Structure
  import opened Invariant
  import opened Billing

  /** The account, if there is one, was last reset or created at or after the instant. */
  ghost predicate Stamped(accounts: map<int, Account>, id: int, since: Time) {
    id in accounts ==> accounts[id].lastReset >= Unix(since)
  }

  lemma MutateStamps(op: Op, token: string, now: Time, db: Db, snap: Tree, live: Sample, id: int, since: Time)
    requires Stamped(db.tree.accounts, id, since) && since <= now && Mutate(op, token, now, db, snap, live).Some?
    ensures Stamped(Mutate(op, token, now, db, snap, live).value.0.tree.accounts, id, since)
  {
  }

  lemma StampStays(s: State, st: Step, id: int, since: Time)
    requires Stamped(s.db.tree.accounts, id, since) && since <= s.now && Enabled(s, st) && (st.Tick? ==> s.now <= st.t)
    ensures Stamped(Next(s, st).db.tree.accounts, id, since) && since <= Next(s, st).now
  {
    hide Mutate, Process, Rendered, SampleOf, Adopt, ArgsOk, Fresh, Tree.Valid, Tree.ExpiredSet;
    if st.Change? {
      var mem, op := s.proc.mem, s.proc.lock.op;
      if Mutate(op, st.token, s.now, s.db, mem.snap, mem.live).Some? {
        MutateStamps(op, st.token, s.now, s.db, mem.snap, mem.live, id, since);
      }
    }
  }

  lemma {:induction false} StampRun(s: State, steps: seq<Step>, id: int, since: Time)
    requires Stamped(s.db.tree.accounts, id, since) && since <= s.now && Legal(s, steps) && ClockAscends(s, steps)
    ensures Stamped(After(s, steps).db.tree.accounts, id, since)
    decreases |steps|
  {
    hide Enabled, Next, Stamped;
    if steps != [] {
      StampStays(s, steps[0], id, since);
      StampRun(Next(s, steps[0]), steps[1..], id, since);
    }
  }

  /** A row stamped since then is due only after a boundary has passed. */
  lemma DuePassesBoundary(lastReset: int, since: Time, anchorDay: int, offset: int, now: Time)
    requires lastReset >= Unix(since) && Due(lastReset, anchorDay, offset, now)
    ensures BoundaryWithin(since, now, anchorDay, offset)
  {
    hide NextBoundary;
    ResetDelays(since, anchorDay, offset);
    NextBoundaryLeast(Unix(since) * SECOND, anchorDay, offset);
    NextBoundaryLeast(lastReset * SECOND, anchorDay, offset);
    var b := NextBoundary(lastReset * SECOND, anchorDay, offset);
    assert b > lastReset * SECOND >= Unix(since) * SECOND;
    assert NextBoundary(Unix(since) * SECOND, anchorDay, offset) <= b <= now;
  }

  lemma ResetStamps(s: State, token: string, id: int)
    requires Enabled(s, Change(token)) && s.proc.lock.op == ResetAccount(id)
    ensures Stamped(Next(s, Change(token)).db.tree.accounts, id, s.now) && Next(s, Change(token)).now == s.now
  {
  }

  lemma SnapStamped(s: State, id: int, since: Time)
    requires Good(s) && s.proc.Running? && s.proc.lock.Free? && Stamped(s.db.tree.accounts, id, since)
    ensures Stamped(s.proc.mem.snap.accounts, id, since)
  {
    if id in s.proc.mem.snap.accounts { DesignOf(s.proc.mem.snap, s.db.tree, id); }
  }

  /** One automatic reset per boundary, on every run. Let an account be reset at s, automatically or by
      hand, and let the run go on with a clock that does not go back. A later check of the snapshot finds
      the account due only if a boundary of its anchor day lies between. This holds even when the reset's
      own apply failed, and the retry revived the usage: the row is stamped, so the account is not reset
      again before its next boundary. */
  lemma OneAutomaticReset(s: State, token: string, steps: seq<Step>, id: int, offset: int)
    requires Reachable(s) && Enabled(s, Change(token)) && s.proc.lock.op == ResetAccount(id)
    requires Legal(Next(s, Change(token)), steps) && ClockAscends(Next(s, Change(token)), steps)
    requires var n := After(Next(s, Change(token)), steps);
             n.proc.Running? && n.proc.lock.Free? && id in n.proc.mem.snap.accounts
             && var a := n.proc.mem.snap.accounts[id]; Due(a.lastReset, a.anchorDay, offset, n.now)
    ensures var n := After(Next(s, Change(token)), steps);
            BoundaryWithin(s.now, n.now, n.proc.mem.snap.accounts[id].anchorDay, offset)
  {
    hide Good, Reachable, Next, Legal, After, ClockAscends, Stamped, Due, BoundaryWithin;
    var c := Next(s, Change(token));
    ReachableNext(s, Change(token));
    ReachableOn(c, steps);
    ResetStamps(s, token, id);
    StampRun(c, steps, id, s.now);
    var n := After(c, steps);
    ReachableGood(n);
    SnapStamped(n, id, s.now);
    StampedRow(n.proc.mem.snap.accounts, id, s.now);
    var a := n.proc.mem.snap.accounts[id];
    DuePassesBoundary(a.lastReset, s.now, a.anchorDay, offset, n.now);
  }

  lemma StampedRow(accounts: map<int, Account>, id: int, since: Time)
    requires Stamped(accounts, id, since) && id in accounts
    ensures accounts[id].lastReset >= Unix(since)
  {
  }
}
