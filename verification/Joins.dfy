/** What a registration leaves the head knowing about the agent's actors and
    calls. */
module Joins {
  import opened Basics
  import opened Topology
  import opened Tables
  import opened Placement
  import opened Head
  import opened Deaths
  import opened Safety
  import opened Rows
  import opened Calls
  import opened Effects

  predicate Resumes(resume: seq<Resumed>, a: ActorId) {
    exists k :: 0 <= k < |resume| && resume[k].actor == a
  }

  /** An actor filed under an agent. */
  predicate FiledUnder(st: State, a: ActorId, agent: AgentId) {
    a in st.actors && st.actors[a].agent == agent
  }

  /** The tables once the actors the agent omitted are dead. */
  ghost function Counted(st: State, cfg: Config, ord: Order, now: nat, agent: AgentId, group: Group, node: NodeId,
                         gpus: seq<nat>, resume: seq<Resumed>, unacked: seq<RefId>): State {
    var s := TakeOn(st, agent, group, node, gpus, resume, unacked);
    MarkAll(s, cfg, ord, now, ord(Missing(s, agent, resume)))
  }

  lemma SettledFromCounted(st: State, cfg: Config, ord: Order, now: nat, agent: AgentId, group: Group, node: NodeId,
                           gpus: seq<nat>, resume: seq<Resumed>, unacked: seq<RefId>)
    ensures Settled(st, cfg, ord, now, agent, group, node, gpus, resume, unacked) ==
            FailLost(Counted(st, cfg, ord, now, agent, group, node, gpus, resume, unacked), agent, Reported(resume, unacked))
  {
  }

  // ---------------------------------------------------------------- rows

  ghost predicate RowsAfterTakeOn(st: State, s: State, agent: AgentId, resume: seq<Resumed>) {
    (forall a :: a in st.actors ==> a in s.actors && s.actors[a] == st.actors[a]) &&
    (forall a :: a in s.actors && a !in st.actors ==>
       Resumes(resume, a) && s.actors[a].agent == agent && Live(s.actors[a]) && s.actors[a].queued == []) &&
    (forall a :: Resumes(resume, a) ==> a in s.actors)
  }

  lemma TakeOnRowsAre(st: State, agent: AgentId, group: Group, node: NodeId, gpus: seq<nat>, resume: seq<Resumed>, unacked: seq<RefId>)
    ensures RowsAfterTakeOn(st, TakeOn(st, agent, group, node, gpus, resume, unacked), agent, resume)
  {
    hide Adopt, AdoptRefs, Reported;
    var s := RegisterRow(st, agent, group, node, gpus);
    AdoptMeans(s.actors, resume, group, agent, node);
    AdoptRefsFrame(s.(actors := Adopt(s.actors, resume, group, agent, node)), agent, Reported(resume, unacked));
  }

  /** Rows after the registration: none lost, what the agent resumed is here and
      as live as it was, and what is filed under other agents is untouched. */
  ghost predicate RowsJoined(st: State, st': State, agent: AgentId, resume: seq<Resumed>) {
    (forall a :: a in st.actors ==> a in st'.actors && SameActor(st.actors[a], st'.actors[a])) &&
    (forall a :: a in st'.actors && a !in st.actors ==> Resumes(resume, a) && st'.actors[a].agent == agent) &&
    (forall a :: Resumes(resume, a) ==> a in st'.actors && (a !in st.actors ==> Live(st'.actors[a]))) &&
    (forall a :: LiveHere(st, a) && (st.actors[a].agent != agent || Resumes(resume, a)) ==> LiveHere(st', a)) &&
    (forall a :: LiveHere(st', a) && a in st.actors ==> Live(st.actors[a]))
  }

  lemma CountedRows(st: State, cfg: Config, ord: Order, now: nat, agent: AgentId, group: Group, node: NodeId,
                    gpus: seq<nat>, resume: seq<Resumed>, unacked: seq<RefId>)
    requires IsOrder(ord)
    ensures RowsJoined(st, Counted(st, cfg, ord, now, agent, group, node, gpus, resume, unacked), agent, resume)
  {
    var s := TakeOn(st, agent, group, node, gpus, resume, unacked);
    var ids := ord(Missing(s, agent, resume));
    assert SetOf(ids) == Missing(s, agent, resume);
    hide TakeOn, IsOrder, MarkAll;
    TakeOnRowsAre(st, agent, group, node, gpus, resume, unacked);
    MarkAllDied(s, cfg, ord, now, ids);
    var c := MarkAll(s, cfg, ord, now, ids);
    assert RowsDied(s.actors, c.actors, Missing(s, agent, resume), now);
    hide Died;
    JoinedFrom(st, s, c, agent, resume, now);
  }

  lemma JoinedFrom(st: State, s: State, c: State, agent: AgentId, resume: seq<Resumed>, now: nat)
    requires RowsAfterTakeOn(st, s, agent, resume) && RowsDied(s.actors, c.actors, Missing(s, agent, resume), now)
    ensures RowsJoined(st, c, agent, resume)
  {
    forall a | LiveHere(st, a) && (st.actors[a].agent != agent || Resumes(resume, a)) ensures LiveHere(c, a) {
      assert a !in Missing(s, agent, resume);
    }
    forall a | Resumes(resume, a) && a !in st.actors ensures a in c.actors && Live(c.actors[a]) {
      assert a !in Missing(s, agent, resume);
    }
  }

  // ---------------------------------------------------------------- calls

  /** Calls after the omitted are dead: known calls are as they were unless their
      actor was omitted, and every reported call of this agent's is here. */
  ghost predicate CallsCounted(st: State, c: State, agent: AgentId, resume: seq<Resumed>, known: seq<RefId>) {
    (forall r :: Owed(st, r) && r.actor in c.actors && Live(c.actors[r.actor]) ==> WaitsFor(c, r)) &&
    (forall r :: r in known && FiledUnder(c, r.actor, agent) ==> r in c.refs) &&
    (forall r :: r in known && r !in st.refs && r in c.refs && LiveHere(c, r.actor) ==> WaitsFor(c, r)) &&
    (forall r :: r in c.refs ==> r in st.refs || r in known) &&
    st.nextRef <= c.nextRef
  }

  lemma CountedCalls(st: State, cfg: Config, ord: Order, now: nat, agent: AgentId, group: Group, node: NodeId,
                     gpus: seq<nat>, resume: seq<Resumed>, unacked: seq<RefId>)
    requires RowsHold(st) && IsOrder(ord)
    ensures var c := Counted(st, cfg, ord, now, agent, group, node, gpus, resume, unacked);
            CallsCounted(st, c, agent, resume, Reported(resume, unacked)) && RowsHold(c)
  {
    var r := RegisterRow(st, agent, group, node, gpus);
    AdoptMeans(r.actors, resume, group, agent, node);
    var t := r.(actors := Adopt(r.actors, resume, group, agent, node));
    assert RefRows(t);
    hide Adopt, AdoptRefs, Reported, MarkAll, IsOrder;
    var s := TakeOn(st, agent, group, node, gpus, resume, unacked);
    TakeOnRows(st, agent, group, node, gpus, resume, unacked);
    CallsTaken(st, t, s, agent, Reported(resume, unacked));
    hide TakeOn, RowsHold, Missing;
    var ids := ord(Missing(s, agent, resume));
    MarkAllDied(s, cfg, ord, now, ids);
    var c := MarkAll(s, cfg, ord, now, ids);
    DiedOnward(s, c, SetOf(ids), now);
    CountedFrom(st, s, c, agent, resume, Reported(resume, unacked), SetOf(ids), now);
  }

  /** Calls just after the reported ones are taken on. */
  ghost predicate CallsAdopted(st: State, s: State, agent: AgentId, known: seq<RefId>) {
    (forall r :: r in st.refs ==> r in s.refs && s.refs[r] == st.refs[r]) &&
    (forall r :: r in s.refs ==> s.refs[r].actor == r.actor) &&
    (forall r :: r in s.refs && r !in st.refs ==> r in known && WaitsFor(s, r)) &&
    (forall r :: r in known && FiledUnder(s, r.actor, agent) ==> r in s.refs) &&
    st.nextRef <= s.nextRef
  }

  lemma CallsTaken(st: State, t: State, s: State, agent: AgentId, known: seq<RefId>)
    requires RefRows(t) && t.refs == st.refs && t.nextRef == st.nextRef && s == AdoptRefs(t, agent, known)
    ensures CallsAdopted(st, s, agent, known)
  {
    AdoptRefsMeans(t, agent, known);
  }

  lemma CountedFrom(st: State, s: State, c: State, agent: AgentId, resume: seq<Resumed>, known: seq<RefId>, ids: set<ActorId>, now: nat)
    requires CallsAdopted(st, s, agent, known) && Died(s, c, ids, now)
    ensures CallsCounted(st, c, agent, resume, known)
  {
    hide OnlyPlaced, OnlyKills;
    assert forall a :: FiledUnder(c, a, agent) ==> FiledUnder(s, a, agent);
    forall r | WaitsFor(s, r) && LiveHere(c, r.actor) ensures WaitsFor(c, r) {
      assert s.refs[r].actor == r.actor;
    }
  }

  predicate QueuedFor(st: State, r: RefId) {
    r.actor in st.actors && exists k :: 0 <= k < |st.actors[r.actor].queued| && st.actors[r.actor].queued[k].ref == r
  }

  /** Calls after the registration. One that was owed is still waited for while
      its actor lives, if its actor is elsewhere, or the agent reported it, or it
      was held here. One reported and new is waited for. */
  ghost predicate CallsJoined(st: State, st': State, agent: AgentId, known: seq<RefId>) {
    (forall r :: Owed(st, r) && LiveHere(st', r.actor) && (!FiledUnder(st', r.actor, agent) || r in known || QueuedFor(st, r)) ==>
       WaitsFor(st', r)) &&
    (forall r :: r in known && FiledUnder(st', r.actor, agent) ==> r in st'.refs) &&
    (forall r :: r in known && r !in st.refs && r in st'.refs && LiveHere(st', r.actor) ==> WaitsFor(st', r)) &&
    (forall r :: r in st'.refs ==> r in st.refs || r in known)
  }

  lemma SettledCalls(st: State, c: State, agent: AgentId, resume: seq<Resumed>, known: seq<RefId>)
    requires CallsCounted(st, c, agent, resume, known) && RowsHold(c)
    requires QueuesHere(st, c)
    ensures CallsJoined(st, FailLost(c, agent, known), agent, known)
  {
    var t := FailLost(c, agent, known);
    forall r | WaitsFor(c, r) && (!FiledUnder(c, r.actor, agent) || r in known || (LiveHere(c, r.actor) && QueuedFor(st, r) && Owed(st, r)))
      ensures WaitsFor(t, r)
    {
      assert c.refs[r].actor == r.actor;
      if FiledUnder(c, r.actor, agent) && r !in known {
        assert c.actors[r.actor].queued == st.actors[r.actor].queued;
        var k :| 0 <= k < |st.actors[r.actor].queued| && st.actors[r.actor].queued[k].ref == r;
        assert c.actors[r.actor].queued[k].ref == r;
        assert QueuedOn(c, agent, r);
      }
    }
  }

  /** Queues of actors still live are as they were. */
  ghost predicate QueuesHere(st: State, c: State) {
    forall a :: LiveHere(c, a) && a in st.actors ==> c.actors[a].queued == st.actors[a].queued
  }

  lemma CountedQueues(st: State, cfg: Config, ord: Order, now: nat, agent: AgentId, group: Group, node: NodeId,
                      gpus: seq<nat>, resume: seq<Resumed>, unacked: seq<RefId>)
    ensures QueuesHere(st, Counted(st, cfg, ord, now, agent, group, node, gpus, resume, unacked))
  {
    hide TakeOn, MarkAll, Missing;
    var s := TakeOn(st, agent, group, node, gpus, resume, unacked);
    TakeOnRowsAre(st, agent, group, node, gpus, resume, unacked);
    MarkAllDied(s, cfg, ord, now, ord(Missing(s, agent, resume)));
  }

  /** Frames a registration adds: on the new connection, kills, and calls that
      were held for live actors of the agent. */
  ghost predicate FramesJoined(st: State, st': State, agent: AgentId) {
    |st.sent| <= |st'.sent| && st'.sent[..|st.sent|] == st.sent &&
    forall i :: |st.sent| <= i < |st'.sent| ==>
      st'.sent[i].agent == agent && st'.sent[i].conn == st.nextSeq &&
      (st'.sent[i].msg.Kill? ||
       (st'.sent[i].msg.Dispatch? && QueuedAt(st, st'.sent[i].msg.actor, st'.sent[i].msg.call) &&
        LiveHere(st', st'.sent[i].msg.actor) && FiledUnder(st', st'.sent[i].msg.actor, agent)))
  }

  /** Calls still held are for actors of other agents, and were held before. */
  ghost predicate QueuesJoined(st: State, st': State, agent: AgentId) {
    forall a :: a in st'.actors && st'.actors[a].queued != [] ==>
      a in st.actors && st'.actors[a].queued == st.actors[a].queued && st'.actors[a].agent != agent
  }

  ghost predicate CountersJoined(st: State, st': State, agent: AgentId, group: Group, node: NodeId, gpus: seq<nat>) {
    st'.agents == RegisterRow(st, agent, group, node, gpus).agents && st.nextRef <= st'.nextRef &&
    st'.nextSeq == st.nextSeq + 1 && st'.accepted == st.accepted
  }

  lemma DrainedAre(t: State, ord: Order, agent: AgentId)
    requires GoodQueues(t) && IsOrder(ord)
    ensures var d := Drains(t, ord(DrainIds(t, agent)));
            forall k :: 0 <= k < |d| ==> d[k].Dispatch? && Draining(t, agent, d[k].actor) && QueuedAt(t, d[k].actor, d[k].call)
  {
    var ids := ord(DrainIds(t, agent));
    assert NoDup(ids) && forall a :: a in ids ==> Draining(t, agent, a);
    hide IsOrder, GoodQueues;
    DrainsMean(t, ids);
  }

  lemma FlushFramesAre(st: State, t: State, ord: Order, agent: AgentId, kills: seq<HeadMsg>, through: nat)
    requires Handing(t) && IsOrder(ord) && t.sent == st.sent && QueuesKept(st.actors, t.actors)
    requires forall i :: 0 <= i < |kills| ==> kills[i].Kill?
    ensures FramesJoined(st, Flush(t, ord, agent, st.nextSeq, kills, through), agent)
  {
    DrainedAre(t, ord, agent);
    var d := Drains(t, ord(DrainIds(t, agent)));
    var f := Flush(t, ord, agent, st.nextSeq, kills, through);
    FlushSent(t, ord, agent, st.nextSeq, kills, through);
    hide Handing, IsOrder, Drains, DrainIds, Flush;
    assert f.sent[..|st.sent|] == st.sent;
    forall i | |st.sent| <= i < |f.sent|
      ensures f.sent[i].agent == agent && f.sent[i].conn == st.nextSeq
      ensures f.sent[i].msg.Kill? ||
              (f.sent[i].msg.Dispatch? && QueuedAt(st, f.sent[i].msg.actor, f.sent[i].msg.call) &&
               LiveHere(f, f.sent[i].msg.actor) && FiledUnder(f, f.sent[i].msg.actor, agent))
    {
      var k := i - |st.sent|;
      if k >= |kills| {
        var m := d[k - |kills|];
        assert f.sent[i].msg == m && Draining(t, agent, m.actor) && QueuedAt(t, m.actor, m.call);
        assert t.actors[m.actor].queued != [];
      }
    }
  }

  lemma FlushQueuesAre(st: State, t: State, ord: Order, agent: AgentId, conn: nat, kills: seq<HeadMsg>, through: nat)
    requires QueuesKept(st.actors, t.actors) && Quiet(t)
    ensures QueuesJoined(st, Flush(t, ord, agent, conn, kills, through), agent)
  {
    hide Drains;
  }

  lemma FlushRowsAre(st: State, t: State, ord: Order, agent: AgentId, conn: nat, kills: seq<HeadMsg>, through: nat, resume: seq<Resumed>)
    requires RowsJoined(st, t, agent, resume)
    ensures RowsJoined(st, Flush(t, ord, agent, conn, kills, through), agent, resume)
  {
    hide Drains;
    var f := Flush(t, ord, agent, conn, kills, through);
    assert f.actors.Keys == t.actors.Keys;
    assert forall a :: a in t.actors ==> SameActor(t.actors[a], f.actors[a]) && Live(t.actors[a]) == Live(f.actors[a]);
  }

  lemma FlushCallsAre(st: State, t: State, f: State, agent: AgentId, known: seq<RefId>)
    requires CallsJoined(st, t, agent, known) && f.refs == t.refs && f.actors.Keys == t.actors.Keys
    requires forall a :: a in t.actors ==> SameActor(t.actors[a], f.actors[a]) && Live(t.actors[a]) == Live(f.actors[a])
    ensures CallsJoined(st, f, agent, known)
  {
  }

  ghost predicate JoinedAs(st: State, st': State, agent: AgentId, group: Group, node: NodeId, gpus: seq<nat>,
                           resume: seq<Resumed>, known: seq<RefId>) {
    RowsJoined(st, st', agent, resume) && CallsJoined(st, st', agent, known) && FramesJoined(st, st', agent) &&
    QueuesJoined(st, st', agent) && CountersJoined(st, st', agent, group, node, gpus)
  }

  lemma SettledCounters(st: State, cfg: Config, ord: Order, now: nat, agent: AgentId, group: Group, node: NodeId,
                        gpus: seq<nat>, resume: seq<Resumed>, unacked: seq<RefId>)
    ensures var t := Settled(st, cfg, ord, now, agent, group, node, gpus, resume, unacked);
            t.sent == st.sent && CountersJoined(st, t, agent, group, node, gpus)
  {
    hide Adopt, AdoptRefs, Reported, MarkAll, Missing, Lost;
    var r := RegisterRow(st, agent, group, node, gpus);
    AdoptRefsFrame(r.(actors := Adopt(r.actors, resume, group, agent, node)), agent, Reported(resume, unacked));
    var s := TakeOn(st, agent, group, node, gpus, resume, unacked);
    MarkAllQuiet(s, cfg, ord, now, ord(Missing(s, agent, resume)));
  }

  /** Declaring actors dead writes nothing. */
  lemma {:induction false} MarkAllQuiet(st: State, cfg: Config, ord: Order, now: nat, ids: seq<ActorId>)
    ensures var c := MarkAll(st, cfg, ord, now, ids);
            c.sent == st.sent && c.agents == st.agents && c.nextRef == st.nextRef && c.nextSeq == st.nextSeq &&
            c.accepted == st.accepted
    decreases |ids|
  {
    hide TryPlace;
    if ids != [] {
      var n := |ids| - 1;
      MarkAllQuiet(st, cfg, ord, now, ids[..n]);
      TryPlaceOnlyPlaces(Bury(MarkAll(st, cfg, ord, now, ids[..n]), now, ids[n]), cfg, ord);
    }
  }

  /** All a registration does to actors, calls, queues and frames. */
  lemma JoinEffects(st: State, cfg: Config, ord: Order, now: nat, agent: AgentId, group: Group, node: NodeId,
                    gpus: seq<nat>, resume: seq<Resumed>, unacked: seq<RefId>, through: nat)
    requires RowsHold(st) && Handing(st) && IsOrder(ord)
    ensures JoinedAs(st, Registered(st, cfg, ord, now, agent, group, node, gpus, resume, unacked, through),
                     agent, group, node, gpus, resume, Reported(resume, unacked))
  {
    hide RowsHold, Handing, IsOrder, Counted, Settled, Flush, TryPlace, Kills, Reported, RowsJoined, CallsJoined, FramesJoined,
         QueuesJoined, CountersJoined, CallsCounted, QueuesHere, HandsNothing, FailLost;
    var known := Reported(resume, unacked);
    var c := Counted(st, cfg, ord, now, agent, group, node, gpus, resume, unacked);
    CountedRows(st, cfg, ord, now, agent, group, node, gpus, resume, unacked);
    CountedCalls(st, cfg, ord, now, agent, group, node, gpus, resume, unacked);
    CountedQueues(st, cfg, ord, now, agent, group, node, gpus, resume, unacked);
    SettledCalls(st, c, agent, resume, known);
    var t := Settled(st, cfg, ord, now, agent, group, node, gpus, resume, unacked);
    SettledFromCounted(st, cfg, ord, now, agent, group, node, gpus, resume, unacked);
    FailLostFrame(c, agent, known);
    RowsCarry(st, c, t, agent, resume);
    SettledIs(st, cfg, ord, now, agent, group, node, gpus, resume, unacked);
    SettledCounters(st, cfg, ord, now, agent, group, node, gpus, resume, unacked);
    HandingKept(st, t);
    HandsKeepsQueues(st, t);
    KillsAreKills(st, resume);
    var f := Flush(t, ord, agent, st.nextSeq, Kills(st, resume), through);
    FlushFramesAre(st, t, ord, agent, Kills(st, resume), through);
    RowsGiveQuiet(t);
    FlushQueuesAre(st, t, ord, agent, st.nextSeq, Kills(st, resume), through);
    FlushRowsAre(st, t, ord, agent, st.nextSeq, Kills(st, resume), through, resume);
    FlushKeepsRest(t, ord, agent, st.nextSeq, Kills(st, resume), through);
    FlushCallsAre(st, t, f, agent, known);
    CountersCarry(st, t, f, agent, group, node, gpus);
    RegisteredIs(st, cfg, ord, now, agent, group, node, gpus, resume, unacked, through);
    TryPlaceOnlyPlaces(f, cfg, ord);
    PlacedCarry(st, f, TryPlace(f, cfg, ord), agent, group, node, gpus, resume, known);
  }

  lemma RowsCarry(st: State, c: State, t: State, agent: AgentId, resume: seq<Resumed>)
    requires RowsJoined(st, c, agent, resume) && t.actors == c.actors
    ensures RowsJoined(st, t, agent, resume)
  {
  }

  lemma RowsGiveQuiet(st: State)
    requires RowsHold(st)
    ensures Quiet(st)
  {
  }

  lemma FlushKeepsRest(t: State, ord: Order, agent: AgentId, conn: nat, kills: seq<HeadMsg>, through: nat)
    ensures var f := Flush(t, ord, agent, conn, kills, through);
            f.refs == t.refs && f.actors.Keys == t.actors.Keys && f.agents == t.agents && f.nextRef == t.nextRef &&
            f.nextSeq == t.nextSeq && f.accepted == t.accepted &&
            forall a :: a in t.actors ==> SameActor(t.actors[a], f.actors[a]) && Live(t.actors[a]) == Live(f.actors[a])
  {
    hide Drains;
  }

  lemma CountersCarry(st: State, t: State, f: State, agent: AgentId, group: Group, node: NodeId, gpus: seq<nat>)
    requires CountersJoined(st, t, agent, group, node, gpus)
    requires f.agents == t.agents && f.nextRef == t.nextRef && f.nextSeq == t.nextSeq && f.accepted == t.accepted
    ensures CountersJoined(st, f, agent, group, node, gpus)
  {
  }

  lemma PlacedCarry(st: State, f: State, st': State, agent: AgentId, group: Group, node: NodeId, gpus: seq<nat>,
                    resume: seq<Resumed>, known: seq<RefId>)
    requires st' == f.(pgs := st'.pgs) && JoinedAs(st, f, agent, group, node, gpus, resume, known)
    ensures JoinedAs(st, st', agent, group, node, gpus, resume, known)
  {
    assert RowsJoined(st, st', agent, resume) && QueuesJoined(st, st', agent);
    assert CallsJoined(st, st', agent, known) by {
      hide RowsJoined, FramesJoined, QueuesJoined, CountersJoined;
    }
    assert FramesJoined(st, st', agent) by {
      hide RowsJoined, CallsJoined, QueuesJoined, CountersJoined;
    }
  }

  /** A connection that takes every frame is given exactly the kills and the held
      calls, after all that was written before. */
  lemma AllFramesOut(st: State, cfg: Config, ord: Order, now: nat, agent: AgentId, group: Group, node: NodeId,
                     gpus: seq<nat>, resume: seq<Resumed>, unacked: seq<RefId>, through: nat)
    requires through >= |FlushFrames(st, cfg, ord, now, agent, group, node, gpus, resume, unacked)|
    ensures Registered(st, cfg, ord, now, agent, group, node, gpus, resume, unacked, through).sent ==
            st.sent + OnConn(agent, st.nextSeq, FlushFrames(st, cfg, ord, now, agent, group, node, gpus, resume, unacked))
  {
    hide Kills, TryPlace, Settled, Drains;
    var t := Settled(st, cfg, ord, now, agent, group, node, gpus, resume, unacked);
    SettledCounters(st, cfg, ord, now, agent, group, node, gpus, resume, unacked);
    RegisteredIs(st, cfg, ord, now, agent, group, node, gpus, resume, unacked, through);
    var f := Flush(t, ord, agent, st.nextSeq, Kills(st, resume), through);
    TryPlaceOnlyPlaces(f, cfg, ord);
    var frames := FlushFrames(st, cfg, ord, now, agent, group, node, gpus, resume, unacked);
    assert frames[..|frames|] == frames;
  }

  /** Frame `i` of the history was written to the agent's new connection by this
      step and hands the call over. */
  ghost predicate HandsOver(st: State, st': State, agent: AgentId, r: RefId, i: nat) {
    |st.sent| <= i < |st'.sent| && st'.sent[i].agent == agent && st'.sent[i].conn == st.nextSeq &&
    st'.sent[i].msg.Dispatch? && st'.sent[i].msg.call.ref == r
  }

  /** After a registration over a connection that takes every frame, a call of that
      agent still waiting was reported by the agent, or was held here and has been
      written to the new connection. */
  lemma NothingLeftBehind(st: State, cfg: Config, ord: Order, now: nat, agent: AgentId, group: Group, node: NodeId,
                          gpus: seq<nat>, resume: seq<Resumed>, unacked: seq<RefId>, through: nat, r: RefId)
    requires RowsHold(st) && Handing(st) && IsOrder(ord)
    requires through >= |FlushFrames(st, cfg, ord, now, agent, group, node, gpus, resume, unacked)|
    requires var st' := Registered(st, cfg, ord, now, agent, group, node, gpus, resume, unacked, through);
             r in st'.refs && st'.refs[r].state == Waiting && r.actor in st'.actors && st'.actors[r.actor].agent == agent
    ensures var st' := Registered(st, cfg, ord, now, agent, group, node, gpus, resume, unacked, through);
            r in Reported(resume, unacked) || exists i :: HandsOver(st, st', agent, r, i)
  {
    hide FlushFrames, Registered, Reported, RowsHold, Handing;
    WaitingIsFlushed(st, cfg, ord, now, agent, group, node, gpus, resume, unacked, through, r);
    if r !in Reported(resume, unacked) {
      AllFramesOut(st, cfg, ord, now, agent, group, node, gpus, resume, unacked, through);
      var frames := FlushFrames(st, cfg, ord, now, agent, group, node, gpus, resume, unacked);
      var i :| 0 <= i < |frames| && frames[i].Dispatch? && frames[i].call.ref == r;
      assert HandsOver(st, Registered(st, cfg, ord, now, agent, group, node, gpus, resume, unacked, through), agent, r, |st.sent| + i);
    }
  }
}
