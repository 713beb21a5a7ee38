/** Whole runs of a head that began with empty tables. */
module Runs {
  import opened Tables
  import opened Placement
  import opened Head
  import opened Safety
  import opened Rows

  /** One step: what happened, when, and the order the maps were walked in. */
  datatype Step = Step(now: nat, ord: Order, event: Event)

  /** The tables after a run begun at time `start`. */
  ghost function After(cfg: Config, start: nat, steps: seq<Step>): State {
    if steps == [] then Fresh(start)
    else
      var n := |steps| - 1;
      Apply(After(cfg, start, steps[..n]), cfg, steps[n].ord, steps[n].now, steps[n].event)
  }

  ghost predicate SaneAt(cfg: Config, start: nat, steps: seq<Step>, i: nat)
    requires i < |steps|
  {
    IsOrder(steps[i].ord) && Sane(After(cfg, start, steps[..i]), steps[i].event)
  }

  ghost predicate SaneRun(cfg: Config, start: nat, steps: seq<Step>) {
    forall i :: 0 <= i < |steps| ==> SaneAt(cfg, start, steps, i)
  }

  lemma SanePrefix(cfg: Config, start: nat, steps: seq<Step>, k: nat)
    requires SaneRun(cfg, start, steps) && k <= |steps|
    ensures SaneRun(cfg, start, steps[..k])
  {
    forall i | 0 <= i < k ensures SaneAt(cfg, start, steps[..k], i) {
      assert SaneAt(cfg, start, steps, i);
      assert steps[..k][..i] == steps[..i];
    }
  }

  lemma LastStep(cfg: Config, start: nat, steps: seq<Step>, i: nat)
    requires i < |steps|
    ensures After(cfg, start, steps[..i + 1]) ==
            Apply(After(cfg, start, steps[..i]), cfg, steps[i].ord, steps[i].now, steps[i].event)
  {
    hide Apply;
    assert steps[..i + 1][..i] == steps[..i];
  }

  ghost predicate HeadInvariant(st: State, cfg: Config) {
    Blank(st) && NoStall(st, cfg) && RowsHold(st)
  }

  lemma FreshHolds(cfg: Config, start: nat)
    ensures HeadInvariant(Fresh(start), cfg)
  {
  }

  lemma StepHolds(st: State, cfg: Config, step: Step)
    requires HeadInvariant(st, cfg) && IsOrder(step.ord) && Sane(st, step.event)
    ensures HeadInvariant(Apply(st, cfg, step.ord, step.now, step.event), cfg)
    ensures Onward(st, Apply(st, cfg, step.ord, step.now, step.event))
    ensures Allocated(st) && Undisputed(st, step.event) ==> Allocated(Apply(st, cfg, step.ord, step.now, step.event))
  {
    hide Allocated, Blank, NoStall, RowsHold, Onward, Apply, IsOrder, Sane, Undisputed;
    StepSafe(st, cfg, step.ord, step.now, step.event);
    StepRows(st, cfg, step.ord, step.now, step.event);
  }

  /** In every run, after every step: no waiting group of equal bundles fits what
      is free, every actor's agent and every call's actor has a row, and no issued
      number can be issued again. */
  lemma {:induction false} EveryRunHolds(cfg: Config, start: nat, steps: seq<Step>)
    requires SaneRun(cfg, start, steps)
    ensures HeadInvariant(After(cfg, start, steps), cfg)
    decreases |steps|
  {
    hide HeadInvariant, Apply;
    if steps == [] {
      FreshHolds(cfg, start);
    } else {
      var n := |steps| - 1;
      SanePrefix(cfg, start, steps, n);
      EveryRunHolds(cfg, start, steps[..n]);
      assert SaneAt(cfg, start, steps, n);
      StepHolds(After(cfg, start, steps[..n]), cfg, steps[n]);
    }
  }

  lemma OneStepOnward(cfg: Config, start: nat, steps: seq<Step>, i: nat)
    requires SaneRun(cfg, start, steps) && i < |steps|
    ensures Onward(After(cfg, start, steps[..i]), After(cfg, start, steps[..i + 1]))
  {
    hide HeadInvariant, Apply, Onward;
    SanePrefix(cfg, start, steps, i);
    EveryRunHolds(cfg, start, steps[..i]);
    assert SaneAt(cfg, start, steps, i);
    StepHolds(After(cfg, start, steps[..i]), cfg, steps[i]);
    LastStep(cfg, start, steps, i);
  }

  /** A dead actor is the same dead actor for as long as its row lasts. */
  lemma {:induction false} DeadStaysDead(cfg: Config, start: nat, steps: seq<Step>, a: ActorId, i: nat, j: nat)
    requires SaneRun(cfg, start, steps) && i <= j <= |steps|
    requires forall k :: i <= k <= j ==> a in After(cfg, start, steps[..k]).actors
    requires !Live(After(cfg, start, steps[..i]).actors[a])
    ensures After(cfg, start, steps[..j]).actors[a] == After(cfg, start, steps[..i]).actors[a]
    decreases j - i
  {
    hide After, SaneRun;
    if i < j {
      DeadStaysDead(cfg, start, steps, a, i, j - 1);
      OneStepOnward(cfg, start, steps, j - 1);
      assert a in After(cfg, start, steps[..j - 1]).actors;
      assert a in After(cfg, start, steps[..j]).actors;
    }
  }

  /** A removed group stays removed for as long as its row lasts. */
  lemma {:induction false} RemovedStaysRemoved(cfg: Config, start: nat, steps: seq<Step>, p: PgId, i: nat, j: nat)
    requires SaneRun(cfg, start, steps) && i <= j <= |steps|
    requires forall k :: i <= k <= j ==> p in After(cfg, start, steps[..k]).pgs
    requires After(cfg, start, steps[..i]).pgs[p].state == Removed
    ensures After(cfg, start, steps[..j]).pgs[p].state == Removed
    decreases j - i
  {
    hide After, SaneRun;
    if i < j {
      RemovedStaysRemoved(cfg, start, steps, p, i, j - 1);
      OneStepOnward(cfg, start, steps, j - 1);
      assert p in After(cfg, start, steps[..j - 1]).pgs;
      assert p in After(cfg, start, steps[..j]).pgs;
    }
  }

  /** A resolved call keeps its one resolution for as long as its row lasts. */
  lemma {:induction false} ResolvedStaysResolved(cfg: Config, start: nat, steps: seq<Step>, r: RefId, i: nat, j: nat)
    requires SaneRun(cfg, start, steps) && i <= j <= |steps|
    requires forall k :: i <= k <= j ==> r in After(cfg, start, steps[..k]).refs
    requires After(cfg, start, steps[..i]).refs[r].state != Waiting
    ensures After(cfg, start, steps[..j]).refs[r] == After(cfg, start, steps[..i]).refs[r]
    decreases j - i
  {
    hide After, SaneRun;
    if i < j {
      ResolvedStaysResolved(cfg, start, steps, r, i, j - 1);
      OneStepOnward(cfg, start, steps, j - 1);
      assert r in After(cfg, start, steps[..j - 1]).refs;
      assert r in After(cfg, start, steps[..j]).refs;
    }
  }

  /** In every run a call on a known actor fails at once exactly when the actor
      is dead: the reply that its agent is not registered is never given. */
  lemma UnregisteredNeverReplied(cfg: Config, start: nat, steps: seq<Step>, a: ActorId, delivered: bool)
    requires SaneRun(cfg, start, steps)
    ensures var st := After(cfg, start, steps);
            FateOf(st, a, delivered) == TooLate <==> a in st.actors && !Live(st.actors[a])
  {
    hide Blank, NoStall, After, SaneRun;
    EveryRunHolds(cfg, start, steps);
  }
}
