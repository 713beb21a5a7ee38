/** Rows that point at rows, and what never comes back: invariants of every step
    that do not concern devices. */
module Rows {
  import opened Basics
  import opened Topology
  import opened Chains
  import opened Claims
  import opened Tables
  import opened Placement
  import opened Head
  import opened Deaths
  import opened Safety

  /** Every actor's agent has a row. */
  ghost predicate AgentRows(st: State) {
    forall a :: a in st.actors ==> st.actors[a].agent in st.agents
  }

  /** Every call's actor has a row, and no call's number is still to be given. */
  ghost predicate RefRows(st: State) {
    forall r :: r in st.refs ==> st.refs[r].actor == r.actor && r.actor in st.actors && r.n < st.nextRef
  }

  /** A dead actor holds no call. */
  ghost predicate Quiet(st: State) {
    forall a :: a in st.actors && !Live(st.actors[a]) ==> st.actors[a].queued == []
  }

  ghost predicate RowsHold(st: State) {
    AgentRows(st) && RefRows(st) && Quiet(st)
  }

  // ------------------------------------------------------------- onward

  predicate SameActor(x: Actor, y: Actor) {
    x.name == y.name && x.group == y.group && x.agent == y.agent && x.node == y.node && x.gpuIds == y.gpuIds &&
    x.owner == y.owner && x.madeIn == y.madeIn
  }

  /** An actor's row keeps what it was made with, and a dead row changes no more. */
  ghost predicate ActorsOnward(m: map<ActorId, Actor>, m': map<ActorId, Actor>) {
    forall a :: a in m && a in m' ==> SameActor(m[a], m'[a]) && (!Live(m[a]) ==> m'[a] == m[a])
  }

  /** A group's row keeps what it was asked for with. A created group keeps its
      bundles and never waits again, and a removed one stays removed. */
  ghost predicate PgsOnward(m: map<PgId, Pg>, m': map<PgId, Pg>) {
    forall p :: p in m && p in m' ==>
      SamePg(m[p], m'[p]) &&
      (m[p].state == Created ==> m'[p].state != Pending && m'[p].assignment == m[p].assignment) &&
      (m[p].state == Removed ==> m'[p].state == Removed && m'[p].assignment == m[p].assignment)
  }

  /** A resolved call changes no more. */
  ghost predicate RefsOnward(m: map<RefId, Ref>, m': map<RefId, Ref>) {
    forall r :: r in m && r in m' ==>
      m'[r].actor == m[r].actor && m'[r].owner == m[r].owner && (m[r].state != Waiting ==> m'[r] == m[r])
  }

  ghost predicate Onward(st: State, st': State) {
    ActorsOnward(st.actors, st'.actors) && PgsOnward(st.pgs, st'.pgs) && RefsOnward(st.refs, st'.refs)
  }

  /** Two parts of one step compose when the middle has every row of both ends. */
  lemma OnwardTrans(s0: State, s1: State, s2: State)
    requires Onward(s0, s1) && Onward(s1, s2)
    requires s0.actors.Keys <= s1.actors.Keys || s2.actors.Keys <= s1.actors.Keys
    requires s0.pgs.Keys <= s1.pgs.Keys || s2.pgs.Keys <= s1.pgs.Keys
    requires s0.refs.Keys <= s1.refs.Keys || s2.refs.Keys <= s1.refs.Keys
    ensures Onward(s0, s2)
  {
  }

  lemma OnwardSelf(st: State, st': State)
    requires st'.actors == st.actors && st'.pgs == st.pgs && st'.refs == st.refs
    ensures Onward(st, st')
  {
  }

  lemma DiedOnward(st: State, st': State, ids: set<ActorId>, now: nat)
    requires Died(st, st', ids, now)
    ensures Onward(st, st')
    ensures st'.actors.Keys == st.actors.Keys && st'.pgs.Keys == st.pgs.Keys && st'.refs.Keys == st.refs.Keys
    ensures RowsHold(st) ==> RowsHold(st')
  {
    assert forall r :: r in st.refs ==> st'.refs[r].actor == st.refs[r].actor;
  }

  lemma TryPlaceOnward(st: State, cfg: Config, ord: Order)
    ensures var st' := TryPlace(st, cfg, ord);
            Onward(st, st') && st'.pgs.Keys == st.pgs.Keys && st' == st.(pgs := st'.pgs)
    ensures RowsHold(st) ==> RowsHold(TryPlace(st, cfg, ord))
  {
    hide TryPlace;
    TryPlaceOnlyPlaces(st, cfg, ord);
  }

  // -------------------------------------------------- step by step

  lemma CreatePgRows(st: State, cfg: Config, ord: Order, now: nat, client: ClientId, pg: PgId, bundles: seq<nat>, claim: Option<Name>)
    requires RowsHold(st) && pg !in st.pgs
    ensures var st' := CreatePg(st, cfg, ord, now, client, pg, bundles, claim); RowsHold(st') && Onward(st, st')
  {
    hide TryPlace;
    var row := Pg(ClientGroup(st, client), client, bundles, claim, NoBundles(|bundles|), Pending, now, None);
    var s := st.(pgs := st.pgs[pg := row]);
    TryPlaceOnward(s, cfg, ord);
    OnwardTrans(st, s, TryPlace(s, cfg, ord));
  }

  lemma RemovePgRows(st: State, cfg: Config, ord: Order, now: nat, pg: PgId)
    requires RowsHold(st)
    ensures var st' := RemovePg(st, cfg, ord, now, pg); RowsHold(st') && Onward(st, st')
  {
    hide TryPlace;
    var s := if pg in st.pgs then st.(pgs := st.pgs[pg := RemovedRow(st.pgs[pg], now)]) else st;
    TryPlaceOnward(s, cfg, ord);
    OnwardTrans(st, s, TryPlace(s, cfg, ord));
  }

  lemma MadeRows(st: State, a: ActorId, row: Actor, sent: seq<Sent>)
    requires RowsHold(st) && a !in st.actors && row.agent in st.agents && row.queued == []
    ensures var st' := st.(actors := st.actors[a := row], sent := sent); RowsHold(st') && Onward(st, st')
  {
  }

  lemma CreateActorRows(st: State, cfg: Config, ord: Order, now: nat, client: ClientId, a: ActorId, name: Name,
                        numGpus: nat, pg: PgId, index: nat, delivered: bool)
    requires RowsHold(st) && a !in st.actors
    ensures var st' := CreateActor(st, cfg, ord, now, client, a, name, numGpus, pg, index, delivered);
            RowsHold(st') && Onward(st, st')
  {
    hide MarkDead, Died, RowsHold, Onward;
    var group := ClientGroup(st, client);
    if Creatable(st, group, name, numGpus, pg, index) {
      var b := st.pgs[pg].assignment[index].value;
      var row := Actor(name, group, b.agent, b.node, b.gpuIds, client, Spawning, [], Some(pg));
      var made := st.(actors := st.actors[a := row]);
      MadeRows(st, a, row, st.sent);
      MadeRows(st, a, row, Write(made, b.agent, Spawn(a, name, client, b.gpuIds)).sent);
      MarkDeadDied(made, cfg, ord, now, a);
      DiedOnward(made, MarkDead(made, cfg, ord, now, a), {a}, now);
      OnwardTrans(st, made, MarkDead(made, cfg, ord, now, a));
    } else {
      OnwardSelf(st, st);
    }
  }

  /** A new call's row is new, and its actor's row changes only by the call it
      may hold. */
  lemma CallAdds(st: State, st': State, rid: RefId, state: RefState, client: ClientId)
    requires RowsHold(st) && rid == RefId(rid.actor, st.nextRef) && rid.actor in st.actors
    requires st'.refs == st.refs[rid := Ref(state, rid.actor, client)] && st'.nextRef == st.nextRef + 1
    requires st'.agents == st.agents && st'.pgs == st.pgs && st'.actors.Keys == st.actors.Keys
    requires forall a :: a in st.actors ==>
               st'.actors[a] == st.actors[a] ||
               (Live(st.actors[a]) && st'.actors[a] == st.actors[a].(queued := st'.actors[a].queued))
    ensures RowsHold(st') && Onward(st, st')
  {
    assert rid !in st.refs;
  }

  lemma CallRows(st: State, client: ClientId, a: ActorId, body: nat, delivered: bool)
    requires RowsHold(st)
    ensures var st' := MakeCall(st, client, a, body, delivered); RowsHold(st') && Onward(st, st')
  {
    hide RowsHold, Onward, MakeCall;
    var st' := MakeCall(st, client, a, body, delivered);
    CallFrame(st, client, a, body, delivered);
    if FateOf(st, a, delivered) in {Hold, SendFails} {
      QueueOnly(st.actors, a, Call(RefId(a, st.nextRef), body));
    }
    if a in st.actors {
      var rid := RefId(a, st.nextRef);
      CallAdds(st, st', rid, FirstState(FateOf(st, a, delivered)), client);
    } else {
      UntouchedRows(st, st');
    }
  }

  lemma GreetRows(st: State, cfg: Config, ord: Order, now: nat, client: ClientId, group: Group, node: NodeId,
                  session: bool, reached: set<ActorId>)
    requires RowsHold(st) && IsOrder(ord)
    ensures var st' := Greet(st, cfg, ord, now, client, group, node, session, reached); RowsHold(st') && Onward(st, st')
  {
    hide KillAll, Died;
    var s := st.(clients := st.clients[client := HelloRow(st, client, group, node, session)]);
    var ids := ord(Orphans(st, group, client));
    KillAllDied(s, cfg, ord, now, ids, reached);
    DiedOnward(s, KillAll(s, cfg, ord, now, ids, reached), SetOf(ids), now);
    OnwardTrans(st, s, KillAll(s, cfg, ord, now, ids, reached));
  }

  lemma ReapStartRows(st: State, client: ClientId, now: nat)
    requires RowsHold(st)
    ensures var s := ReapStart(st, client, now);
            RowsHold(s) && Onward(st, s) && s.actors == st.actors && s.refs == st.refs && s.pgs.Keys == st.pgs.Keys
  {
  }

  lemma DropRefs(st: State, client: ClientId)
    requires RowsHold(st)
    ensures var s := st.(refs := RefsOfOthers(st.refs, client)); RowsHold(s) && Onward(st, s) && s.refs.Keys <= st.refs.Keys
  {
  }

  lemma ReapRows(st: State, cfg: Config, ord: Order, now: nat, client: ClientId, token: Option<nat>, reached: set<ActorId>)
    requires RowsHold(st)
    ensures var st' := Reap(st, cfg, ord, now, client, token, reached); RowsHold(st') && Onward(st, st')
  {
    var idle := st.(reapPending := st.reapPending - {client});
    assert RowsHold(idle) && Onward(st, idle) && Onward(st, st);
    hide KillAll, Died, TryPlace, RowsHold, Onward, ReapStart;
    if Reaps(st, client, token) {
      var s := ReapStart(st, client, now);
      ReapStartRows(st, client, now);
      var ids := ord(OwnedBy(st, client));
      KillAllDied(s, cfg, ord, now, ids, reached);
      var killed := KillAll(s, cfg, ord, now, ids, reached);
      DiedOnward(s, killed, SetOf(ids), now);
      var t := killed.(refs := RefsOfOthers(killed.refs, client));
      DropRefs(killed, client);
      TryPlaceOnward(t, cfg, ord);
      OnwardTrans(st, s, killed);
      OnwardTrans(killed, t, TryPlace(t, cfg, ord));
      OnwardTrans(st, killed, TryPlace(t, cfg, ord));
    }
  }

  lemma CloseSessionRows(st: State, cfg: Config, ord: Order, now: nat, client: ClientId, reached: set<ActorId>)
    requires RowsHold(st)
    ensures var st' := CloseSession(st, cfg, ord, now, client, reached); RowsHold(st') && Onward(st, st')
  {
    hide Reap;
    var s := st.(clients := st.clients - {client});
    ReapRows(s, cfg, ord, now, client, None, reached);
  }

  // --------------------------------------------------------- registration

  /** Adoption of calls: those known stay, those new wait on an actor of this
      agent, and the counter is past them all. */
  lemma {:induction false} AdoptRefsMeans(st: State, agent: AgentId, rs: seq<RefId>)
    requires RefRows(st)
    ensures var s := AdoptRefs(st, agent, rs);
            RefRows(s) && s == st.(refs := s.refs, nextRef := s.nextRef) && st.nextRef <= s.nextRef &&
            (forall r :: r in st.refs ==> r in s.refs && s.refs[r] == st.refs[r]) &&
            (forall r :: r in s.refs && r !in st.refs ==>
               r in rs && st.actors[r.actor].agent == agent && s.refs[r] == Ref(Waiting, r.actor, st.actors[r.actor].owner)) &&
            (forall r :: r in rs && r.actor in st.actors && st.actors[r.actor].agent == agent ==> r in s.refs)
    decreases |rs|
  {
    if rs != [] {
      var n := |rs| - 1;
      AdoptRefsMeans(st, agent, rs[..n]);
      AdoptRefMeans(AdoptRefs(st, agent, rs[..n]), agent, rs[n]);
      assert rs == rs[..n] + [rs[n]];
      hide AdoptRef, RefRows;
      var s, t := AdoptRefs(st, agent, rs[..n]), AdoptRefs(st, agent, rs);
      assert t == AdoptRef(s, agent, rs[n]);
      forall r | r in t.refs && r !in st.refs
        ensures r in rs && r.actor in st.actors && st.actors[r.actor].agent == agent
        ensures t.refs[r] == Ref(Waiting, r.actor, st.actors[r.actor].owner)
      {
        if r in s.refs {
          assert t.refs[r] == s.refs[r];
        }
      }
    }
  }

  lemma AdoptRefMeans(st: State, agent: AgentId, q: RefId)
    requires RefRows(st)
    ensures var s := AdoptRef(st, agent, q);
            RefRows(s) && s == st.(refs := s.refs, nextRef := s.nextRef) && st.nextRef <= s.nextRef &&
            (forall r :: r in st.refs ==> r in s.refs && s.refs[r] == st.refs[r]) &&
            (forall r :: r in s.refs && r !in st.refs ==>
               r == q && q.actor in st.actors && st.actors[q.actor].agent == agent &&
               s.refs[q] == Ref(Waiting, q.actor, st.actors[q.actor].owner)) &&
            (q.actor in st.actors && st.actors[q.actor].agent == agent ==> q in s.refs)
  {
  }

  lemma TakeOnRows(st: State, agent: AgentId, group: Group, node: NodeId, gpus: seq<nat>, resume: seq<Resumed>, unacked: seq<RefId>)
    requires RowsHold(st)
    ensures var s := TakeOn(st, agent, group, node, gpus, resume, unacked);
            RowsHold(s) && Onward(st, s) && st.actors.Keys <= s.actors.Keys && st.refs.Keys <= s.refs.Keys && s.pgs == st.pgs
  {
    hide Adopt, AdoptRefs, Reported;
    var s := RegisterRow(st, agent, group, node, gpus);
    AdoptMeans(s.actors, resume, group, agent, node);
    var t := s.(actors := Adopt(s.actors, resume, group, agent, node));
    assert RefRows(t);
    AdoptRefsMeans(t, agent, Reported(resume, unacked));
  }

  lemma FailLostRows(st: State, agent: AgentId, known: seq<RefId>)
    requires RowsHold(st)
    ensures var s := FailLost(st, agent, known); RowsHold(s) && Onward(st, s) && s.refs.Keys == st.refs.Keys
  {
    hide Lost;
    var s := FailLost(st, agent, known);
    forall r | r in st.refs && s.refs[r] != st.refs[r] ensures st.refs[r].state == Waiting {
      LostWaits(st, agent, known, r);
    }
  }

  lemma LostWaits(st: State, agent: AgentId, known: seq<RefId>, r: RefId)
    requires Lost(st, agent, known, r)
    ensures r in st.refs && st.refs[r].state == Waiting
  {
  }

  lemma FlushRows(st: State, ord: Order, agent: AgentId, conn: nat, kills: seq<HeadMsg>, through: nat)
    requires RowsHold(st)
    ensures var s := Flush(st, ord, agent, conn, kills, through);
            RowsHold(s) && Onward(st, s) && s.actors.Keys == st.actors.Keys && s.refs == st.refs && s.pgs == st.pgs
  {
    hide Drains;
  }

  lemma RegisterRows(st: State, cfg: Config, ord: Order, now: nat, agent: AgentId, group: Group, node: NodeId,
                     gpus: seq<nat>, resume: seq<Resumed>, unacked: seq<RefId>, through: nat)
    requires RowsHold(st)
    ensures var st' := Registered(st, cfg, ord, now, agent, group, node, gpus, resume, unacked, through);
            RowsHold(st') && Onward(st, st')
  {
    hide RowsHold, Onward, TakeOn, MarkAll, Flush, TryPlace, Reported, Missing, Kills, Died, FailLost;
    var s := TakeOn(st, agent, group, node, gpus, resume, unacked);
    TakeOnRows(st, agent, group, node, gpus, resume, unacked);
    var ids := ord(Missing(s, agent, resume));
    var alive := MarkAll(s, cfg, ord, now, ids);
    MarkAllDied(s, cfg, ord, now, ids);
    DiedOnward(s, alive, SetOf(ids), now);
    OnwardTrans(st, s, alive);
    var settled := FailLost(alive, agent, Reported(resume, unacked));
    FailLostRows(alive, agent, Reported(resume, unacked));
    FailLostFrame(alive, agent, Reported(resume, unacked));
    OnwardTrans(st, alive, settled);
    var flushed := Flush(settled, ord, agent, st.nextSeq, Kills(st, resume), through);
    FlushRows(settled, ord, agent, st.nextSeq, Kills(st, resume), through);
    OnwardTrans(st, settled, flushed);
    TryPlaceOnward(flushed, cfg, ord);
    OnwardTrans(st, flushed, TryPlace(flushed, cfg, ord));
  }

  lemma FailLostFrame(st: State, agent: AgentId, known: seq<RefId>)
    ensures var s := FailLost(st, agent, known); s == st.(refs := s.refs)
  {
  }

  // ---------------------------------------------------------------- sweep

  lemma HistoryRows(st: State, cfg: Config, now: nat)
    requires RowsHold(st)
    ensures var s := SweepHistory(st, cfg, now); RowsHold(s) && Onward(st, s)
  {
    hide AnythingOld;
  }

  lemma SweepRows(st: State, cfg: Config, ord: Order, now: nat)
    requires RowsHold(st) && IsOrder(ord)
    ensures var st' := SweepAll(st, cfg, ord, now); RowsHold(st') && Onward(st, st')
  {
    hide GiveUpAll, IsOrder, SweepHistory, Died, GivenUp, OnAgents;
    var s := st.(pgs := TimedOut(st.pgs, cfg, now));
    var f := Forget(s, cfg, now);
    assert RowsHold(f) && Onward(st, f);
    ForgetKeys(st, s, f, cfg, now);
    var agents := ord(GivenUp(s, cfg, now));
    GiveUpDied(f, cfg, ord, now, agents);
    var g := GiveUpAll(f, cfg, ord, now, agents);
    DiedOnward(f, g, OnAgents(f, SetOf(agents)), now);
    hide RowsHold, Onward, Forget, TimedOut;
    OnwardTrans(st, f, g);
    HistoryRows(g, cfg, now);
    OnwardTrans(st, g, SweepHistory(g, cfg, now));
  }

  lemma ForgetKeys(st: State, s: State, f: State, cfg: Config, now: nat)
    requires s == st.(pgs := TimedOut(st.pgs, cfg, now)) && f == Forget(s, cfg, now)
    ensures f.actors == st.actors && f.refs == st.refs && f.pgs.Keys == st.pgs.Keys
  {
  }

  /** Steps that touch none of these rows, but for an agent's own. */
  lemma UntouchedRows(st: State, st': State)
    requires RowsHold(st) && st'.actors == st.actors && st'.refs == st.refs && st'.pgs == st.pgs
    requires st.nextRef <= st'.nextRef && st'.agents.Keys == st.agents.Keys
    ensures RowsHold(st') && Onward(st, st')
  {
  }

  lemma RunningRow(st: State, a: ActorId, row: Actor)
    requires RowsHold(st) && a in st.actors && SameActor(st.actors[a], row) && Live(st.actors[a]) && Live(row)
    ensures var st' := st.(actors := st.actors[a := row]); RowsHold(st') && Onward(st, st')
  {
  }

  lemma SpawnedRows(st: State, a: ActorId)
    requires RowsHold(st)
    ensures RowsHold(Spawned(st, a)) && Onward(st, Spawned(st, a))
  {
    hide RowsHold, Onward;
    if a in st.actors && st.actors[a].state == Spawning {
      RunningRow(st, a, st.actors[a].(state := Running));
    } else {
      OnwardSelf(st, st);
    }
  }

  lemma ResolvedRow(st: State, r: RefId, row: Ref)
    requires RowsHold(st) && r in st.refs && st.refs[r].state == Waiting
    requires row.actor == st.refs[r].actor && row.owner == st.refs[r].owner
    ensures var st' := st.(refs := st.refs[r := row]); RowsHold(st') && Onward(st, st')
  {
  }

  lemma ResolveRows(st: State, r: RefId, ok: bool, payload: seq<nat>, error: bool)
    requires RowsHold(st)
    ensures var st' := Resolve(st, r, ok, payload, error); RowsHold(st') && Onward(st, st')
  {
    hide RowsHold, Onward;
    if r in st.refs && st.refs[r].state == Waiting {
      ResolvedRow(st, r, st.refs[r].(state := if !ok && payload == [] && error then ActorDied else Ready(ok, payload)));
    } else {
      OnwardSelf(st, st);
    }
  }

  lemma UntouchedSteps(st: State, now: nat, e: Event)
    ensures e.ClaimName? ==>
              var s := TakeClaim(st, e.client, e.name, e.shape, e.net);
              s == st.(claims := s.claims, claimGeneration := s.claimGeneration)
    ensures e.ConnClosed? ==> var s := CloseConn(st, e.client); s == st.(clients := s.clients)
    ensures e.LinkLost? ==>
              var s := LoseLink(st, now, e.agent, e.conn); s == st.(agents := s.agents) && s.agents.Keys == st.agents.Keys
  {
    hide Solve, ClientGroup;
    if e.LinkLost? {
      LoseLinkIs(st, now, e.agent, e.conn);
    }
  }

  lemma LoseLinkIs(st: State, now: nat, agent: AgentId, conn: nat)
    ensures var s := LoseLink(st, now, agent, conn); s == st.(agents := s.agents) && s.agents.Keys == st.agents.Keys
  {
  }

  // ------------------------------------------------------------- any step

  /** Every step keeps the rows pointing at rows, and nothing that ended comes
      back while its row lasts: dead actors, removed groups, resolved calls. */
  lemma StepRows(st: State, cfg: Config, ord: Order, now: nat, e: Event)
    requires RowsHold(st) && IsOrder(ord) && Sane(st, e)
    ensures var st' := Apply(st, cfg, ord, now, e); RowsHold(st') && Onward(st, st')
  {
    hide IsOrder, CreatePg, RemovePg, CreateActor, KillActor, Greet, CloseSession, Reap, Registered, MarkDead,
         SweepAll, MakeCall, TakeClaim, CloseConn, LoseLink, Spawned, Resolve, Died, RowsHold, Onward;
    UntouchedSteps(st, now, e);
    match e
    case PgCreate(client, pg, bundles, claim) => CreatePgRows(st, cfg, ord, now, client, pg, bundles, claim);
    case PgRemove(pg) => RemovePgRows(st, cfg, ord, now, pg);
    case ActorCreate(client, a, name, n, pg, i, ok) => CreateActorRows(st, cfg, ord, now, client, a, name, n, pg, i, ok);
    case ActorCall(client, a, body, ok) => CallRows(st, client, a, body, ok);
    case ActorKill(a, ok) =>
      KillActorDied(st, cfg, ord, now, a, ok);
      DiedOnward(st, KillActor(st, cfg, ord, now, a, ok), {a}, now);
    case ClaimName(client, name, shape, net) => UntouchedRows(st, TakeClaim(st, client, name, shape, net));
    case Hello(client, group, node, session, reached) => GreetRows(st, cfg, ord, now, client, group, node, session, reached);
    case SessionClosed(client, reached) => CloseSessionRows(st, cfg, ord, now, client, reached);
    case ConnClosed(client) => UntouchedRows(st, CloseConn(st, client));
    case ReapTimer(client, token, reached) => ReapRows(st, cfg, ord, now, client, Some(token), reached);
    case Register(agent, group, node, gpus, resume, unacked, through) =>
      RegisterRows(st, cfg, ord, now, agent, group, node, gpus, resume, unacked, through);
    case LinkLost(agent, conn) => UntouchedRows(st, LoseLink(st, now, agent, conn));
    case SpawnResult(a, ok) =>
      MarkDeadDied(st, cfg, ord, now, a);
      DiedOnward(st, MarkDead(st, cfg, ord, now, a), {a}, now);
      SpawnedRows(st, a);
    case ActorResult(r, ok, payload, error) => ResolveRows(st, r, ok, payload, error);
    case ActorExit(a) =>
      MarkDeadDied(st, cfg, ord, now, a);
      DiedOnward(st, MarkDead(st, cfg, ord, now, a), {a}, now);
    case Sweep => SweepRows(st, cfg, ord, now);
    case FabricsDerived(islands, tagged) => UntouchedRows(st, st.(islands := islands, tagged := tagged));
  }
}
