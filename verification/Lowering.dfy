/** A completed reset or set-usage stays what it is: nothing but packets lifts the account's usage again. */
module Lowering {
  import opened Model
  import opened Ruleset
  import opened Tables
  import opened Engine
  import opened Structure
  import opened Invariant
  import opened Mutations
  import opened Metering
  import opened MeteringProof
  import opened Stretches
  import opened Guarantees
  import opened Retrying
  import opened Truthfulness

  /** The bytes the account is charged over the run, under the rules in force packet by packet. */
  ghost function ChargedOver(s: State, steps: seq<Step>, id: int): nat
    requires Legal(s, steps)
    decreases |steps|
  {
    if steps == [] then 0
    else ChargedBytes(s.given, s.blocked, [steps[0]], id) + ChargedOver(Next(s, steps[0]), steps[1..], id)
  }

  /** The account has its quota throughout the run, and no rebuild sets its usage and no write straddles one. */
  ghost predicate KeepsQuota(s: State, steps: seq<Step>, id: int)
    requires Legal(s, steps)
    decreases |steps|
  {
    && s.kernel.Present? && id in s.kernel.table.quotas
    && (steps != [] ==>
          && !(steps[0].ApplyOk? && TargetsUsage(s.proc.lock.op, id)) && !Straddles(s, steps[0])
          && KeepsQuota(Next(s, steps[0]), steps[1..], id))
  }

  /** The kernel has charged the account at most c, and so has what a rebuild under way will seed. */
  ghost predicate AtMost(s: State, id: int, c: nat) {
    && s.kernel.Present? && id in s.kernel.table.quotas && s.kernel.table.quotas[id].charged <= c
    && (s.proc.Starting? ==> s.proc.hot && id in s.proc.live.used && s.proc.live.used[id] <= c)
    && (s.proc.Running? && !s.proc.lock.Free? && !s.proc.lock.Applied? ==>
          id in s.proc.lock.seen.used && s.proc.lock.seen.used[id] <= c)
  }

  lemma AtMostTraffic(s: State, p: Packet, id: int, c: nat)
    requires KernelOk(s) && AtMost(s, id, c)
    ensures AtMost(Next(s, Traffic(p)), id, c + ChargedBytes(s.given, s.blocked, [Traffic(p)], id))
  {
    hide Process, Charges, KernelOk;
    PacketCharges(s, p, id);
    assert ChargedBytes(s.given, s.blocked, [Traffic(p)][1..], id) == 0;
  }

  lemma AtMostRebuild(s: State, m: Meter, st: Step, id: int, c: nat)
    requires Good(s) && Metered(s, m) && AtMost(s, id, c) && Enabled(s, st) && (st.ApplyOk? || st.StartOk?)
    requires st.ApplyOk? ==> !TargetsUsage(s.proc.lock.op, id)
    requires Next(s, st).kernel.Present? && id in Next(s, st).kernel.table.quotas
    ensures AtMost(Next(s, st), id, c)
  {
    hide Good, Metered, Rendered, CounterOf, Tree.Valid;
    var n := Next(s, st);
    if st.ApplyOk? {
      LoadedSeeds(s, m);
      RebuiltQuotas(n, s.proc.lock.tree, n.blocked);
    } else {
      MeteredSeeds(s, m);
      RebuiltQuotas(n, s.proc.snap, n.blocked);
    }
  }

  lemma AtMostOther(s: State, st: Step, id: int, c: nat)
    requires Good(s) && AtMost(s, id, c) && Enabled(s, st)
    requires !st.ApplyOk? && !st.StartOk? && !st.Reboot? && !st.Traffic?
    ensures AtMost(Next(s, st), id, c)
  {
    hide DbOk, KernelOk, LockOk, SamplerOk, OpOk, Persist, Adopt, Mutate, Renewed;
  }

  lemma AtMostStep(s: State, m: Meter, st: Step, id: int, c: nat)
    requires Good(s) && Metered(s, m) && AtMost(s, id, c) && Enabled(s, st)
    requires st.ApplyOk? ==> !TargetsUsage(s.proc.lock.op, id)
    requires Next(s, st).kernel.Present? && id in Next(s, st).kernel.table.quotas
    ensures AtMost(Next(s, st), id, c + ChargedBytes(s.given, s.blocked, [st], id))
  {
    hide Good, Metered, AtMost, Enabled, RunningNext, TargetsUsage, Rendered;
    assert !st.Traffic? ==> ChargedBytes(s.given, s.blocked, [st], id) == 0 by {
      assert ChargedBytes(s.given, s.blocked, [st][1..], id) == 0;
    }
    if st.Traffic? {
      GoodParts(s);
      AtMostTraffic(s, st.p, id, c);
    } else if st.ApplyOk? || st.StartOk? {
      AtMostRebuild(s, m, st, id, c);
    } else if !st.Reboot? {
      AtMostOther(s, st, id, c);
    }
  }

  lemma {:induction false} AtMostRun(s: State, m: Meter, steps: seq<Step>, id: int, c: nat)
    requires Good(s) && Metered(s, m) && AtMost(s, id, c) && Legal(s, steps) && KeepsQuota(s, steps, id)
    ensures AtMost(After(s, steps), id, c + ChargedOver(s, steps, id))
    decreases |steps|
  {
    hide Good, Metered, AtMost, Enabled, Next, Straddles, MeterNext, ChargedBytes, TargetsUsage;
    if steps != [] {
      var n := Next(s, steps[0]);
      HasItsQuota(n, steps[1..], id);
      StepKeeps(s, steps[0]);
      MeterStep(s, m, steps[0]);
      AtMostStep(s, m, steps[0], id, c);
      AtMostRun(n, MeterNext(s, m, steps[0]), steps[1..], id, c + ChargedBytes(s.given, s.blocked, [steps[0]], id));
    }
  }

  lemma HasItsQuota(s: State, steps: seq<Step>, id: int)
    requires Legal(s, steps) && KeepsQuota(s, steps, id)
    ensures s.kernel.Present? && id in s.kernel.table.quotas
  {
  }

  /** A completed reset stays a reset. Over every straddle-free run after the rebuild of a set-usage or
      reset, through reconciles, failed applies, late and early persists, crashes and restarts over the
      live table, the account is charged at most what was requested plus what its packets have been
      charged since, as long as it keeps its quota and no rebuild sets its usage anew. */
  lemma ResetStaysReset(s: State, steps: seq<Step>, id: int)
    requires Unstraddled(s) && Enabled(s, ApplyOk) && TargetsUsage(s.proc.lock.op, id) && id in s.proc.lock.seen.used
    requires Legal(Next(s, ApplyOk), steps) && KeepsQuota(Next(s, ApplyOk), steps, id)
    ensures var n := After(Next(s, ApplyOk), steps);
            n.kernel.Present? && id in n.kernel.table.quotas
            && n.kernel.table.quotas[id].charged <= Requested(s.proc.lock.op) + ChargedOver(Next(s, ApplyOk), steps, id)
  {
    hide Good, Metered, Unstraddled, Reachable, Legal, After, KeepsQuota, ChargedOver, MeterRebuild, Rendered;
    var m := UnstraddledMetered(s);
    var n := Next(s, ApplyOk);
    SeedIsFresh(s);
    StepKeeps(s, ApplyOk);
    MeterStep(s, m, ApplyOk);
    HasItsQuota(n, steps, id);
    AtMostRun(n, MeterNext(s, m, ApplyOk), steps, id, Requested(s.proc.lock.op));
  }
}
