/** What `ref_get` and `ref_wait` answer over whole runs, from the events alone. */
module Answers {
  import opened Basics
  import opened Tables
  import opened Placement
  import opened Head
  import opened Deaths
  import opened Safety
  import opened Rows
  import opened Runs
  import opened Calls
  import opened Joins
  import opened Sessions
  import opened Fates
  import opened Entries

  // ------------------------------------------------------ one answer, two forms

  /** `ref_wait` counts a handle exactly when `ref_get` would answer it. */
  lemma WaitAgreesWithGet(st: State, cfg: Config, now: nat, h: Handle)
    ensures WaitCounts(st, cfg, now, h) <==> GetNow(st, cfg, now, h) != Pends
  {
  }

  /** Positions of the counted handles: all of them, in order. */
  ghost predicate CountedAt(st: State, cfg: Config, now: nat, hs: seq<Handle>, at: seq<nat>) {
    (forall i, j :: 0 <= i < j < |at| ==> at[i] < at[j]) && (forall i :: 0 <= i < |at| ==> at[i] < |hs|) &&
    forall k :: 0 <= k < |hs| ==> (k in at <==> GetNow(st, cfg, now, hs[k]) != Pends)
  }

  /** The finished handles are exactly those `ref_get` would answer, in the caller's
      order, repeats included. */
  lemma {:induction false} ReadyExactly(st: State, cfg: Config, now: nat, hs: seq<Handle>) returns (at: seq<nat>)
    ensures CountedAt(st, cfg, now, hs, at) && |at| == |ReadyOf(st, cfg, now, hs)|
    ensures forall i :: 0 <= i < |at| ==> ReadyOf(st, cfg, now, hs)[i] == hs[at[i]]
    decreases |hs|
  {
    hide WaitCounts, GetNow;
    at := [];
    if hs != [] {
      var n := |hs| - 1;
      at := ReadyExactly(st, cfg, now, hs[..n]);
      WaitAgreesWithGet(st, cfg, now, hs[n]);
      ghost var before := at;
      if WaitCounts(st, cfg, now, hs[n]) { at := at + [n]; }
      forall k | 0 <= k < |hs| ensures k in at <==> GetNow(st, cfg, now, hs[k]) != Pends {
        if k < n { assert hs[..n][k] == hs[k]; } else { assert n !in before; }
      }
    }
  }

  // ---------------------------------------------------------- the window

  lemma PgSince(st: State, cfg: Config, ord: Order, now: nat, e: Event)
    requires e.PgCreate? || e.PgRemove?
    ensures var s := Apply(st, cfg, ord, now, e); s.headSince == st.headSince && s.nextSeq == st.nextSeq
  {
    hide TryPlace;
    if e.PgCreate? {
      var row := Pg(ClientGroup(st, e.client), e.client, e.bundles, e.claim, NoBundles(|e.bundles|), Pending, now, None);
      TryPlaceOnlyPlaces(st.(pgs := st.pgs[e.pg := row]), cfg, ord);
    } else {
      TryPlaceOnlyPlaces(if e.pg in st.pgs then st.(pgs := st.pgs[e.pg := RemovedRow(st.pgs[e.pg], now)]) else st, cfg, ord);
    }
  }

  lemma CreateSince(st: State, cfg: Config, ord: Order, now: nat, e: Event)
    requires e.ActorCreate?
    ensures var s := Apply(st, cfg, ord, now, e); s.headSince == st.headSince && s.nextSeq == st.nextSeq
  {
    hide MarkDead;
    var group := ClientGroup(st, e.client);
    if Creatable(st, group, e.name, e.numGpus, e.pg, e.index) {
      var b := st.pgs[e.pg].assignment[e.index].value;
      var row := Actor(e.name, group, b.agent, b.node, b.gpuIds, e.client, Spawning, [], Some(e.pg));
      MarkDeadDied(st.(actors := st.actors[e.actor := row]), cfg, ord, now, e.actor);
    }
  }

  lemma GreetSince(st: State, cfg: Config, ord: Order, now: nat, e: Event)
    requires e.Hello?
    ensures var s := Apply(st, cfg, ord, now, e); s.headSince == st.headSince && s.nextSeq == st.nextSeq
  {
    hide KillAll, HelloRow, Driven;
    var s := st.(clients := st.clients[e.client := HelloRow(st, e.client, e.group, e.node, e.session)]);
    KillAllDied(s, cfg, ord, now, ord(Orphans(st, e.group, e.client)), e.reached);
  }

  lemma ReapSince(st: State, cfg: Config, ord: Order, now: nat, client: ClientId, token: Option<nat>, reached: set<ActorId>)
    ensures var s := Reap(st, cfg, ord, now, client, token, reached); s.headSince == st.headSince && s.nextSeq == st.nextSeq
  {
    if Reaps(st, client, token) {
      var s := ReapStart(st, client, now);
      var ids := ord(OwnedBy(st, client));
      hide KillAll, TryPlace;
      KillAllDied(s, cfg, ord, now, ids, reached);
      var killed := KillAll(s, cfg, ord, now, ids, reached);
      TryPlaceOnlyPlaces(killed.(refs := RefsOfOthers(killed.refs, client)), cfg, ord);
    }
  }

  lemma RegisterSince(st: State, cfg: Config, ord: Order, now: nat, e: Event)
    requires e.Register?
    ensures var s := Apply(st, cfg, ord, now, e); s.headSince == st.headSince && s.nextSeq == st.nextSeq + 1
  {
    hide Adopt, AdoptRefs, Reported, MarkAll, Missing, Kills, Drains, TryPlace;
    var r := RegisterRow(st, e.agent, e.group, e.node, e.gpus);
    AdoptRefsFrame(r.(actors := Adopt(r.actors, e.resume, e.group, e.agent, e.node)), e.agent, Reported(e.resume, e.unacked));
    var s := TakeOn(st, e.agent, e.group, e.node, e.gpus, e.resume, e.unacked);
    MarkAllDied(s, cfg, ord, now, ord(Missing(s, e.agent, e.resume)));
    var c := MarkAll(s, cfg, ord, now, ord(Missing(s, e.agent, e.resume)));
    var f := Flush(FailLost(c, e.agent, Reported(e.resume, e.unacked)), ord, e.agent, st.nextSeq, Kills(st, e.resume), e.through);
    TryPlaceOnlyPlaces(f, cfg, ord);
  }

  lemma SweepSince(st: State, cfg: Config, ord: Order, now: nat)
    requires IsOrder(ord)
    ensures var s := SweepAll(st, cfg, ord, now); s.headSince == st.headSince && s.nextSeq == st.nextSeq
  {
    hide GiveUpAll, IsOrder, GivenUp, TimedOut, AnythingOld;
    var s := st.(pgs := TimedOut(st.pgs, cfg, now));
    GiveUpDied(Forget(s, cfg, now), cfg, ord, now, ord(GivenUp(s, cfg, now)));
  }

  lemma CallSince(st: State, client: ClientId, a: ActorId, body: nat, delivered: bool)
    ensures var s := MakeCall(st, client, a, body, delivered); s.headSince == st.headSince && s.nextSeq == st.nextSeq
  {
    match FateOf(st, a, delivered)
    case NoActor =>
    case TooLate =>
    case Hold =>
    case SendFails =>
    case Goes =>
  }

  lemma SinceStands(st: State, cfg: Config, ord: Order, now: nat, e: Event)
    requires IsOrder(ord)
    ensures var s := Apply(st, cfg, ord, now, e);
            s.headSince == st.headSince && s.nextSeq == st.nextSeq + if e.Register? then 1 else 0
  {
    hide IsOrder, CreatePg, RemovePg, CreateActor, KillActor, Greet, CloseSession, Reap, MarkDead, MakeCall, TakeClaim,
         CloseConn, Resolve, LoseLink, SweepAll, Registered;
    UntouchedSteps(st, now, e);
    match e
    case PgCreate(client, pg, bundles, claim) => PgSince(st, cfg, ord, now, e);
    case PgRemove(pg) => PgSince(st, cfg, ord, now, e);
    case ActorCreate(client, x, name, n, pg, i, ok) => CreateSince(st, cfg, ord, now, e);
    case ActorCall(client, x, body, ok) => CallSince(st, client, x, body, ok);
    case ActorKill(x, ok) => KillActorDied(st, cfg, ord, now, x, ok);
    case Hello(client, group, node, session, reached) => GreetSince(st, cfg, ord, now, e);
    case SessionClosed(client, reached) => CloseSince(st, cfg, ord, now, e);
    case ReapTimer(client, token, reached) => CloseSince(st, cfg, ord, now, e);
    case Register(agent, group, node, gpus, resume, unacked, through) => RegisterSince(st, cfg, ord, now, e);
    case SpawnResult(x, ok) => MarkDeadDied(st, cfg, ord, now, x);
    case ActorResult(r, ok, payload, error) => ResolveIs(st, r, ok, payload, error);
    case ActorExit(x) => MarkDeadDied(st, cfg, ord, now, x);
    case Sweep => SweepSince(st, cfg, ord, now);
    case _ =>
  }

  lemma CloseSince(st: State, cfg: Config, ord: Order, now: nat, e: Event)
    requires e.SessionClosed? || e.ReapTimer?
    ensures var s := Apply(st, cfg, ord, now, e); s.headSince == st.headSince && s.nextSeq == st.nextSeq
  {
    hide Reap;
    if e.SessionClosed? {
      ReapSince(st.(clients := st.clients - {e.client}), cfg, ord, now, e.client, None, e.reached);
    } else {
      ReapSince(st, cfg, ord, now, e.client, Some(e.token), e.reached);
    }
  }

  /** What every run keeps that answers rest on. */
  ghost predicate Answerable(st: State, start: nat) {
    RowsHold(st) && OwnQueues(st) && st.headSince == Some(start)
  }

  lemma {:induction false} EveryRunAnswers(cfg: Config, start: nat, steps: seq<Step>, k: nat)
    requires SaneRun(cfg, start, steps) && k <= |steps|
    ensures Answerable(After(cfg, start, steps[..k]), start)
    decreases k
  {
    if k == 0 {
      assert steps[..0] == [];
    } else {
      hide After, Apply, RowsHold, OwnQueues;
      EveryRunAnswers(cfg, start, steps, k - 1);
      var st := After(cfg, start, steps[..k - 1]);
      assert SaneAt(cfg, start, steps, k - 1);
      var step := steps[k - 1];
      LastStep(cfg, start, steps, k - 1);
      StepRows(st, cfg, step.ord, step.now, step.event);
      OwnQueuesStep(st, cfg, step.ord, step.now, step.event);
      SinceStands(st, cfg, step.ord, step.now, step.event);
    }
  }

  /** In every run an unknown handle is waited for exactly until every agent has had
      the give-up time to register with this head. */
  lemma UnknownExactly(cfg: Config, start: nat, steps: seq<Step>, now: nat, h: Handle)
    requires SaneRun(cfg, start, steps)
    requires var st := After(cfg, start, steps); if h.PgRef? then h.pg !in st.pgs else h.call !in st.refs
    ensures GetNow(After(cfg, start, steps), cfg, now, h) == if now < start + cfg.deadAfterMs then Pends else Unknown
  {
    hide After, SaneRun;
    EveryRunAnswers(cfg, start, steps, |steps|);
    assert steps[..|steps|] == steps;
  }

  // ---------------------------------------------------------------- calls

  /** The call had a row at every point from just after step `i` up to `k`. */
  ghost predicate Kept(cfg: Config, start: nat, steps: seq<Step>, r: RefId, i: nat, k: nat)
    requires k <= |steps|
  {
    forall j :: i < j <= k ==> r in After(cfg, start, steps[..j]).refs
  }

  /** What the step does to a pending call: its own result, or that its actor died. */
  ghost function Verdict(st: State, cfg: Config, now: nat, e: Event, r: RefId): Res
    requires r in st.refs && st.refs[r].actor in st.actors
  {
    var a := st.refs[r].actor;
    if e.ActorResult? && e.ref == r then (if e.ok || e.payload != [] || !e.error then Done(e.ok, e.payload) else Failed)
    else if Live(st.actors[a]) && Dies(st, cfg, now, e, a) then Failed
    else if e.Register? && st.actors[a].agent == e.agent && !Reports(e, r) && !HeldHere(st, r) then Failed
    else Pends
  }

  /** Over one step: an answer given stands, and a pending call gets the step's
      verdict. */
  lemma AnswerStep(cfg: Config, start: nat, steps: seq<Step>, r: RefId, k: nat, now: nat)
    requires SaneRun(cfg, start, steps) && k < |steps|
    requires r in After(cfg, start, steps[..k]).refs && r in After(cfg, start, steps[..k + 1]).refs
    ensures var st := After(cfg, start, steps[..k]); var was := GetNow(st, cfg, now, CallRef(r));
            st.refs[r].actor in st.actors &&
            GetNow(After(cfg, start, steps[..k + 1]), cfg, now, CallRef(r)) ==
              if was != Pends then was else Verdict(st, cfg, steps[k].now, steps[k].event, r)
  {
    hide After, Apply, Dies, Reports, HeldHere, IsOrder, OwnQueues;
    EveryRunAnswers(cfg, start, steps, k);
    assert SaneAt(cfg, start, steps, k);
    LastStep(cfg, start, steps, k);
    CallsExactly(After(cfg, start, steps[..k]), cfg, steps[k].ord, steps[k].now, steps[k].event, r);
  }

  /** The answers at `k` are the first verdict given since the call's row was made
      just before `i`, or the answer it was made with. */
  lemma {:induction false} AnswersExactly(cfg: Config, start: nat, steps: seq<Step>, r: RefId, i: nat, k: nat, now: nat)
    requires SaneRun(cfg, start, steps) && i <= k <= |steps|
    requires forall j :: i <= j <= k ==> r in After(cfg, start, steps[..j]).refs
    requires GetNow(After(cfg, start, steps[..i]), cfg, now, CallRef(r)) == Pends
    ensures forall j :: i <= j < k ==> var st := After(cfg, start, steps[..j]); r in st.refs && st.refs[r].actor in st.actors
    ensures GetNow(After(cfg, start, steps[..k]), cfg, now, CallRef(r)) == Pends <==>
              forall j :: i <= j < k ==> VerdictAt(cfg, start, steps, r, j) == Pends
    ensures forall j :: i <= j < k && VerdictAt(cfg, start, steps, r, j) != Pends &&
                        (forall l :: i <= l < j ==> VerdictAt(cfg, start, steps, r, l) == Pends) ==>
              GetNow(After(cfg, start, steps[..k]), cfg, now, CallRef(r)) == VerdictAt(cfg, start, steps, r, j)
    decreases k
  {
    hide After, Verdict, GetNow;
    if i < k {
      AnswersExactly(cfg, start, steps, r, i, k - 1, now);
      AnswerStep(cfg, start, steps, r, k - 1, now);
      var last := VerdictAt(cfg, start, steps, r, k - 1);
      assert last == VerdictAt(cfg, start, steps, r, k - 1);
    }
  }

  /** The verdict of step `j`. */
  ghost function VerdictAt(cfg: Config, start: nat, steps: seq<Step>, r: RefId, j: nat): Res
    requires j < |steps|
  {
    var st := After(cfg, start, steps[..j]);
    if r in st.refs && st.refs[r].actor in st.actors then Verdict(st, cfg, steps[j].now, steps[j].event, r) else Unknown
  }

  /** End to end: a result reported while its call is pending is what `ref_get` answers
      at every later point while the call has its row, as died exactly for an error
      without a payload, and `ref_wait` counts it. */
  lemma ResultAnswered(cfg: Config, start: nat, steps: seq<Step>, r: RefId, i: nat, k: nat, now: nat)
    requires SaneRun(cfg, start, steps) && i < k <= |steps|
    requires steps[i].event.ActorResult? && steps[i].event.ref == r
    requires forall j :: i <= j <= k ==> r in After(cfg, start, steps[..j]).refs
    requires After(cfg, start, steps[..i]).refs[r].state == Waiting
    ensures var e := steps[i].event; var st := After(cfg, start, steps[..k]);
            GetNow(st, cfg, now, CallRef(r)) == (if !e.ok && e.payload == [] && e.error then Failed else Done(e.ok, e.payload)) &&
            WaitCounts(st, cfg, now, CallRef(r))
  {
    hide After;
    AnswersExactly(cfg, start, steps, r, i, k, now);
    assert VerdictAt(cfg, start, steps, r, i) != Pends;
    WaitAgreesWithGet(After(cfg, start, steps[..k]), cfg, now, CallRef(r));
  }

  // ------------------------------------------------------------ dead actors

  /** Step `j` was a registration that brought in the call of an actor already dead,
      filed under that agent. */
  ghost predicate BroughtLate(cfg: Config, start: nat, steps: seq<Step>, r: RefId, j: nat)
    requires j < |steps|
  {
    var st := After(cfg, start, steps[..j]); var e := steps[j].event;
    e.Register? && Reports(e, r) && r !in st.refs &&
    r.actor in st.actors && !Live(st.actors[r.actor]) && st.actors[r.actor].agent == e.agent
  }

  /** Step `j` ends a call of a dead actor: its result, or its agent registering without
      reporting it. */
  ghost predicate EndsLate(cfg: Config, start: nat, steps: seq<Step>, r: RefId, j: nat)
    requires j < |steps|
  {
    var st := After(cfg, start, steps[..j]); var e := steps[j].event;
    (e.ActorResult? && e.ref == r) ||
    (e.Register? && r.actor in st.actors && st.actors[r.actor].agent == e.agent && !Reports(e, r))
  }

  /** Brought in late at `j`, and since then neither dropped nor ended. */
  ghost predicate Lingers(cfg: Config, start: nat, steps: seq<Step>, r: RefId, j: nat, k: nat)
    requires k <= |steps|
  {
    j < k && BroughtLate(cfg, start, steps, r, j) && Kept(cfg, start, steps, r, j, k) &&
    forall i :: j < i < k ==> !EndsLate(cfg, start, steps, r, i)
  }

  /** A call whose actor is dead after a step is pending exactly if the step brought it
      in late, or it was pending on the dead actor and the step does not end it. */
  lemma DeadCallStep(cfg: Config, start: nat, steps: seq<Step>, r: RefId, k: nat)
    requires SaneRun(cfg, start, steps) && k < |steps|
    requires var st' := After(cfg, start, steps[..k + 1]);
             r in st'.refs && r.actor in st'.actors && !Live(st'.actors[r.actor])
    ensures var st := After(cfg, start, steps[..k]); var st' := After(cfg, start, steps[..k + 1]);
            st'.refs[r].state == Waiting <==>
              BroughtLate(cfg, start, steps, r, k) ||
              (r in st.refs && r.actor in st.actors && !Live(st.actors[r.actor]) && st.refs[r].state == Waiting &&
               !EndsLate(cfg, start, steps, r, k))
  {
    hide After, Apply, Asks, Reports, IsOrder, OwnQueues;
    EveryRunAnswers(cfg, start, steps, k);
    assert SaneAt(cfg, start, steps, k);
    LastStep(cfg, start, steps, k);
    var st := After(cfg, start, steps[..k]);
    var step := steps[k];
    if r in st.refs {
      CallsExactly(st, cfg, step.ord, step.now, step.event, r);
      ActorsExactly(st, cfg, step.ord, step.now, step.event, r.actor);
    } else {
      NewCallLate(st, cfg, step, r);
    }
  }

  /** In every step of every run, an actor live before and dead after has no pending call
      left, however it died and whoever reported the call. */
  lemma DeathEndsCalls(cfg: Config, start: nat, steps: seq<Step>, a: ActorId, r: RefId, k: nat)
    requires SaneRun(cfg, start, steps) && k < |steps| && r.actor == a
    requires var st := After(cfg, start, steps[..k]); a in st.actors && Live(st.actors[a])
    requires var st' := After(cfg, start, steps[..k + 1]); a in st'.actors && !Live(st'.actors[a]) && r in st'.refs
    ensures After(cfg, start, steps[..k + 1]).refs[r].state != Waiting
  {
    hide After;
    DeadCallStep(cfg, start, steps, r, k);
  }

  /** A call made in a step whose actor is dead after it is pending exactly if the
      actor was dead before and its agent reported the call. */
  lemma NewCallLate(st: State, cfg: Config, step: Step, r: RefId)
    requires IsOrder(step.ord) && Sane(st, step.event) && RowsHold(st) && OwnQueues(st) && r !in st.refs
    requires var st' := Apply(st, cfg, step.ord, step.now, step.event);
             r in st'.refs && r.actor in st'.actors && !Live(st'.actors[r.actor])
    ensures var e := step.event;
            Apply(st, cfg, step.ord, step.now, e).refs[r].state == Waiting <==>
              e.Register? && Reports(e, r) && r.actor in st.actors && !Live(st.actors[r.actor]) &&
              st.actors[r.actor].agent == e.agent
  {
    hide Apply, Reports, IsOrder, OwnQueues, RowsHold;
    QuietRows(st);
    CallMadeExactly(st, cfg, step.ord, step.now, step.event, r);
    if r.actor in st.actors {
      ActorsExactly(st, cfg, step.ord, step.now, step.event, r.actor);
    } else {
      ActorMadeExactly(st, cfg, step.ord, step.now, step.event, r.actor);
    }
  }

  lemma QuietRows(st: State)
    requires RowsHold(st)
    ensures Quiet(st)
  {
  }

  /** Lingering one step further. */
  lemma LingersOn(cfg: Config, start: nat, steps: seq<Step>, r: RefId, j: nat, k: nat)
    requires 0 < k <= |steps| && j < k - 1
    ensures Lingers(cfg, start, steps, r, j, k) <==>
            Lingers(cfg, start, steps, r, j, k - 1) && r in After(cfg, start, steps[..k]).refs &&
            !EndsLate(cfg, start, steps, r, k - 1)
  {
    hide After, BroughtLate, EndsLate;
  }

  lemma LingersFirst(cfg: Config, start: nat, steps: seq<Step>, r: RefId, k: nat)
    requires 0 < k <= |steps| && r in After(cfg, start, steps[..k]).refs
    ensures Lingers(cfg, start, steps, r, k - 1, k) <==> BroughtLate(cfg, start, steps, r, k - 1)
  {
    hide After, BroughtLate, EndsLate;
  }

  lemma LingersKept(cfg: Config, start: nat, steps: seq<Step>, r: RefId, j: nat, k: nat)
    requires k <= |steps| && Lingers(cfg, start, steps, r, j, k)
    ensures j < k && BroughtLate(cfg, start, steps, r, j) && Kept(cfg, start, steps, r, j, k)
  {
  }

  /** Over every run, a call of a dead actor is pending exactly if a registration made
      after the death brought it in, and since then nothing ended or dropped it. The
      death itself ends every call pending then. */
  lemma {:induction false} DeadCallsExactly(cfg: Config, start: nat, steps: seq<Step>, r: RefId, k: nat)
    requires SaneRun(cfg, start, steps) && k <= |steps|
    requires var st := After(cfg, start, steps[..k]); r in st.refs && r.actor in st.actors && !Live(st.actors[r.actor])
    ensures After(cfg, start, steps[..k]).refs[r].state == Waiting <==> exists j: nat :: Lingers(cfg, start, steps, r, j, k)
    decreases k
  {
    hide After, BroughtLate, EndsLate, Lingers, SaneRun;
    if k == 0 {
      StartsBare(cfg, start, steps);
    } else {
      DeadCallStep(cfg, start, steps, r, k - 1);
      LingersFirst(cfg, start, steps, r, k);
      if j: nat :| Lingers(cfg, start, steps, r, j, k) && j < k - 1 {
        LingersOn(cfg, start, steps, r, j, k);
        LingersKept(cfg, start, steps, r, j, k - 1);
        LateStaysDead(cfg, start, steps, r, j, k - 1);
        DeadCallsExactly(cfg, start, steps, r, k - 1);
      } else {
        LingersNow(cfg, start, steps, r, k);
        if After(cfg, start, steps[..k]).refs[r].state == Waiting && !BroughtLate(cfg, start, steps, r, k - 1) {
          DeadCallsExactly(cfg, start, steps, r, k - 1);
          var j: nat :| Lingers(cfg, start, steps, r, j, k - 1);
          LingersKept(cfg, start, steps, r, j, k - 1);
          LingersOn(cfg, start, steps, r, j, k);
        }
      }
    }
  }

  lemma StartsBare(cfg: Config, start: nat, steps: seq<Step>)
    ensures After(cfg, start, steps[..0]).refs == map[]
  {
    assert steps[..0] == [];
  }

  lemma LingersNow(cfg: Config, start: nat, steps: seq<Step>, r: RefId, k: nat)
    requires 0 < k <= |steps| && forall j: nat :: Lingers(cfg, start, steps, r, j, k) ==> j >= k - 1
    ensures forall j: nat :: Lingers(cfg, start, steps, r, j, k) ==> j == k - 1
  {
  }

  /** While such a call has its row, its actor stays the dead one it was. */
  lemma LateStaysDead(cfg: Config, start: nat, steps: seq<Step>, r: RefId, j: nat, k: nat)
    requires SaneRun(cfg, start, steps) && j < k <= |steps| && BroughtLate(cfg, start, steps, r, j)
    requires Kept(cfg, start, steps, r, j, k)
    ensures var st := After(cfg, start, steps[..k]); r.actor in st.actors && !Live(st.actors[r.actor])
  {
    hide After;
    forall i | j <= i <= k ensures r.actor in After(cfg, start, steps[..i]).actors {
      EveryRunAnswers(cfg, start, steps, i);
    }
    DeadStaysDead(cfg, start, steps, r.actor, j, k);
  }

  // ---- a run in which one lingers

  const OWED := RefId(7, 3)

  /** An actor is brought in, its agent's link is lost, it is killed meanwhile, and its
      agent comes back reporting a call the head does not know. */
  function Late(ord: Order): seq<Step> {
    [Step(0, ord, Register(1, 0, 0, [], [Resumed(7, 0, [], 5, [])], [], 0)),
     Step(1, ord, LinkLost(1, 1)),
     Step(2, ord, ActorKill(7, false)),
     Step(3, ord, Register(1, 0, 0, [], [Resumed(7, 0, [], 5, [OWED])], [], 0))]
  }

  predicate Hosts7(st: State) {
    st.refs == map[] && st.actors.Keys == {7} && st.actors[7].agent == 1
  }

  lemma LateAdopts(cfg: Config, ord: Order)
    requires IsOrder(ord)
    ensures var s := Apply(Fresh(0), cfg, ord, 0, Register(1, 0, 0, [], [Resumed(7, 0, [], 5, [])], [], 0));
            Hosts7(s) && Live(s.actors[7]) && s.agents.Keys == {1} && s.agents[1].seqNo == 1
  {
    hide Registered, IsOrder, FlushFrames;
    var back := Resumed(7, 0, [], 5, []);
    BareRegister(Fresh(0), cfg, ord, 0, 1, 0, 0, [], [back], 0);
    assert [back][..0] == [];
  }

  lemma LateLoses(st: State, cfg: Config, ord: Order)
    requires Hosts7(st) && Live(st.actors[7]) && st.agents.Keys == {1} && st.agents[1].seqNo == 1
    ensures var s := Apply(st, cfg, ord, 1, LinkLost(1, 1)); Hosts7(s) && Live(s.actors[7]) && !AgentUp(s, 1)
  {
  }

  lemma LateKills(st: State, cfg: Config, ord: Order)
    requires Hosts7(st) && Live(st.actors[7]) && !AgentUp(st, 1)
    ensures var s := Apply(st, cfg, ord, 2, ActorKill(7, false)); Hosts7(s) && !Live(s.actors[7])
  {
    hide TryPlace;
    TryPlaceOnlyPlaces(Bury(st, 2, 7), cfg, ord);
  }

  lemma LateUpTo(cfg: Config, ord: Order)
    requires IsOrder(ord)
    ensures var st := After(cfg, 0, Late(ord)[..3]); Hosts7(st) && !Live(st.actors[7])
  {
    hide Apply, After, IsOrder, Hosts7, AgentUp;
    var steps := Late(ord);
    LateStart(cfg, steps);
    LastStep(cfg, 0, steps, 0);
    LateAdopts(cfg, ord);
    LastStep(cfg, 0, steps, 1);
    LateLoses(After(cfg, 0, steps[..1]), cfg, ord);
    LastStep(cfg, 0, steps, 2);
    LateKills(After(cfg, 0, steps[..2]), cfg, ord);
  }

  lemma LateStart(cfg: Config, steps: seq<Step>)
    ensures After(cfg, 0, steps[..0]) == Fresh(0)
  {
    assert steps[..0] == [];
  }

  /** For every configuration and map order, that call is pending on an actor that is
      dead. */
  lemma LateCallLingers(cfg: Config, ord: Order)
    requires IsOrder(ord)
    ensures SaneRun(cfg, 0, Late(ord))
    ensures var st := After(cfg, 0, Late(ord));
            OWED in st.refs && st.refs[OWED].state == Waiting && 7 in st.actors && !Live(st.actors[7])
  {
    hide After, Apply, IsOrder, OwnQueues;
    var steps := Late(ord);
    LateUpTo(cfg, ord);
    forall i | 0 <= i < |steps| ensures SaneAt(cfg, 0, steps, i) {
    }
    assert steps[..4] == steps;
    LastStep(cfg, 0, steps, 3);
    EveryRunAnswers(cfg, 0, steps, 3);
    var st, e := After(cfg, 0, steps[..3]), steps[3].event;
    assert OWED in e.resume[0].pending && Resumes(e.resume, 7);
    assert Reports(e, OWED);
    CallMadeExactly(st, cfg, ord, 3, e, OWED);
    ActorsExactly(st, cfg, ord, 3, e, 7);
    DeadCallStep(cfg, 0, steps, OWED, 3);
  }

  // ---------------------------------------------------------------- groups

  /** A group's ref answers done exactly while it is placed, failed exactly while it is
      removed, and waits while it is pending. */
  lemma GroupAnswers(st: State, cfg: Config, now: nat, p: PgId)
    requires p in st.pgs
    ensures var r := GetNow(st, cfg, now, PgRef(p));
            (r == Done(true, []) <==> st.pgs[p].state == Created) && (r == Failed <==> st.pgs[p].state == Removed) &&
            (r == Pends <==> st.pgs[p].state == Pending)
  {
  }

  /** Step `j` removes the group. */
  ghost predicate RemovedAt(cfg: Config, start: nat, steps: seq<Step>, p: PgId, j: nat)
    requires j < |steps|
  {
    var st := After(cfg, start, steps[..j]);
    p in st.pgs && Removes(st, cfg, steps[j].now, steps[j].event, p)
  }

  /** Over every run, while a group asked for at step `i` has its row, its ref answers
      failed exactly if some step since removed it. */
  lemma {:induction false} GroupFailedExactly(cfg: Config, start: nat, steps: seq<Step>, p: PgId, i: nat, k: nat, now: nat)
    requires SaneRun(cfg, start, steps) && i < k <= |steps|
    requires p !in After(cfg, start, steps[..i]).pgs && forall j :: i < j <= k ==> p in After(cfg, start, steps[..j]).pgs
    ensures GetNow(After(cfg, start, steps[..k]), cfg, now, PgRef(p)) == Failed <==>
              exists j :: i < j < k && RemovedAt(cfg, start, steps, p, j)
    decreases k
  {
    hide After, Apply, IsOrder, Removes;
    var st := After(cfg, start, steps[..k - 1]);
    var step := steps[k - 1];
    assert SaneAt(cfg, start, steps, k - 1);
    LastStep(cfg, start, steps, k - 1);
    if k == i + 1 {
      GroupMadeExactly(st, cfg, step.ord, step.now, step.event, p);
    } else {
      GroupFailedExactly(cfg, start, steps, p, i, k - 1, now);
      GroupsExactly(st, cfg, step.ord, step.now, step.event, p);
      if RemovedAt(cfg, start, steps, p, k - 1) {
        assert i < k - 1 < k;
      }
    }
  }
}
