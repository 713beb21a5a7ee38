/** Calls across link losses: each is handed to its agent at most once, in the
    order it was accepted, and none is left waiting that nobody holds. */
module Calls {
  import opened Basics
  import opened Topology
  import opened Chains
  import opened Tables
  import opened Placement
  import opened Head
  import opened Deaths
  import opened Safety
  import opened Rows
  import opened Runs

  // ------------------------------------------------------------ invariants

  predicate Hands(f: Sent, a: ActorId) {
    f.msg.Dispatch? && f.msg.actor == a
  }

  /** Calls handed to one actor carry growing numbers. */
  ghost predicate HandedInOrder(sent: seq<Sent>) {
    forall i, j :: 0 <= i < j < |sent| && sent[i].msg.Dispatch? && Hands(sent[j], sent[i].msg.actor) ==>
      sent[i].msg.call.ref.n < sent[j].msg.call.ref.n
  }

  predicate KnownCall(st: State, a: ActorId, call: Call) {
    call.ref.actor == a && call.ref.n < st.nextRef && call.ref in st.accepted
  }

  ghost predicate HandedKnown(st: State) {
    forall i :: 0 <= i < |st.sent| && st.sent[i].msg.Dispatch? ==> KnownCall(st, st.sent[i].msg.actor, st.sent[i].msg.call)
  }

  /** A queue holds accepted calls in order, all newer than any handed over. */
  ghost predicate GoodQueue(st: State, a: ActorId, queue: seq<Call>) {
    (forall k :: 0 <= k < |queue| ==> KnownCall(st, a, queue[k])) &&
    (forall k, l :: 0 <= k < l < |queue| ==> queue[k].ref.n < queue[l].ref.n) &&
    (forall i, k :: 0 <= i < |st.sent| && Hands(st.sent[i], a) && 0 <= k < |queue| ==>
       st.sent[i].msg.call.ref.n < queue[k].ref.n)
  }

  ghost predicate GoodQueues(st: State) {
    forall a :: a in st.actors ==> GoodQueue(st, a, st.actors[a].queued)
  }

  /** Calls are held only for an agent that is away, or whose connection has
      refused a write. */
  ghost predicate HeldWhileAway(st: State) {
    forall a :: a in st.actors && st.actors[a].queued != [] && AgentUp(st, st.actors[a].agent) ==>
      st.agents[st.actors[a].agent].seqNo in st.failed
  }

  ghost predicate AcceptedInOrder(st: State) {
    (forall i :: 0 <= i < |st.accepted| ==> st.accepted[i].n < st.nextRef) &&
    (forall i, j :: 0 <= i < j < |st.accepted| ==> st.accepted[i].n < st.accepted[j].n)
  }

  ghost predicate Handing(st: State) {
    HandedInOrder(st.sent) && HandedKnown(st) && GoodQueues(st) && AcceptedInOrder(st)
  }

  /** A connection that failed one write fails the rest. */
  ghost predicate Steady(st: State, e: Event) {
    e.ActorCall? && e.delivered && e.actor in st.actors && AgentUp(st, st.actors[e.actor].agent) ==>
      st.agents[st.actors[e.actor].agent].seqNo !in st.failed
  }

  // ------------------------------------------------- steps that hand nothing

  ghost predicate NoCallsAdded(sent: seq<Sent>, sent': seq<Sent>) {
    |sent| <= |sent'| && sent'[..|sent|] == sent &&
    forall i :: |sent| <= i < |sent'| ==> !sent'[i].msg.Dispatch?
  }

  /** Queues are emptied or kept. */
  ghost predicate QueuesKept(m: map<ActorId, Actor>, m': map<ActorId, Actor>) {
    forall a :: a in m' && m'[a].queued != [] ==> a in m && m'[a].queued == m[a].queued && m'[a].agent == m[a].agent
  }

  ghost predicate HandsNothing(st: State, st': State) {
    NoCallsAdded(st.sent, st'.sent) && QueuesKept(st.actors, st'.actors) &&
    st.nextRef <= st'.nextRef && st'.accepted == st.accepted
  }

  lemma HandingKept(st: State, st': State)
    requires Handing(st) && HandsNothing(st, st')
    ensures Handing(st')
  {
    assert forall i :: 0 <= i < |st.sent| ==> st'.sent[i] == st'.sent[..|st.sent|][i];
    forall a | a in st'.actors ensures GoodQueue(st', a, st'.actors[a].queued) {
      if st'.actors[a].queued != [] {
        assert GoodQueue(st, a, st.actors[a].queued);
      }
    }
  }

  /** Agents up after were up before over the same connection. */
  ghost predicate NobodyNewUp(st: State, st': State) {
    st.failed <= st'.failed &&
    forall g :: AgentUp(st', g) ==> AgentUp(st, g) && st'.agents[g].seqNo == st.agents[g].seqNo
  }

  lemma HeldKept(st: State, st': State)
    requires HeldWhileAway(st) && QueuesKept(st.actors, st'.actors) && NobodyNewUp(st, st')
    ensures HeldWhileAway(st')
  {
  }

  lemma HandsNothingTrans(s0: State, s1: State, s2: State)
    requires HandsNothing(s0, s1) && HandsNothing(s1, s2)
    ensures HandsNothing(s0, s2)
  {
    assert s2.sent[..|s1.sent|][..|s0.sent|] == s2.sent[..|s0.sent|];
    forall i | |s0.sent| <= i < |s2.sent| ensures !s2.sent[i].msg.Dispatch? {
      if i < |s1.sent| {
        assert s2.sent[i] == s2.sent[..|s1.sent|][i];
      }
    }
  }

  lemma DiedHandsNothing(st: State, st': State, ids: set<ActorId>, now: nat)
    requires Died(st, st', ids, now)
    ensures HandsNothing(st, st') && NobodyNewUp(st, st')
  {
    forall i | |st.sent| <= i < |st'.sent| ensures !st'.sent[i].msg.Dispatch? {
      assert st'.sent[i].msg.Kill?;
    }
    forall a | a in st'.actors && st'.actors[a].queued != []
      ensures a in st.actors && st'.actors[a].queued == st.actors[a].queued && st'.actors[a].agent == st.actors[a].agent
    {
    }
  }

  lemma TryPlaceHandsNothing(st: State, cfg: Config, ord: Order)
    ensures HandsNothing(st, TryPlace(st, cfg, ord)) && NobodyNewUp(st, TryPlace(st, cfg, ord))
  {
    hide TryPlace;
    TryPlaceOnlyPlaces(st, cfg, ord);
  }

  lemma MarkDeadHandsNothing(st: State, cfg: Config, ord: Order, now: nat, a: ActorId)
    ensures HandsNothing(st, MarkDead(st, cfg, ord, now, a)) && NobodyNewUp(st, MarkDead(st, cfg, ord, now, a))
  {
    hide MarkDead, Died, HandsNothing, NobodyNewUp;
    MarkDeadDied(st, cfg, ord, now, a);
    DiedHandsNothing(st, MarkDead(st, cfg, ord, now, a), {a}, now);
  }

  lemma UpTrans(s0: State, s1: State, s2: State)
    requires NobodyNewUp(s0, s1) && NobodyNewUp(s1, s2)
    ensures NobodyNewUp(s0, s2)
  {
  }

  lemma CreateActorHandsNothing(st: State, cfg: Config, ord: Order, now: nat, client: ClientId, a: ActorId, name: Name,
                                numGpus: nat, pg: PgId, index: nat, delivered: bool)
    requires a !in st.actors
    ensures var st' := CreateActor(st, cfg, ord, now, client, a, name, numGpus, pg, index, delivered);
            HandsNothing(st, st') && NobodyNewUp(st, st')
  {
    hide MarkDead;
    var group := ClientGroup(st, client);
    if Creatable(st, group, name, numGpus, pg, index) {
      var b := st.pgs[pg].assignment[index].value;
      var row := Actor(name, group, b.agent, b.node, b.gpuIds, client, Spawning, [], Some(pg));
      var made := st.(actors := st.actors[a := row]);
      MarkDeadHandsNothing(made, cfg, ord, now, a);
      HandsNothingTrans(st, made, MarkDead(made, cfg, ord, now, a));
    }
  }

  lemma GreetHandsNothing(st: State, cfg: Config, ord: Order, now: nat, client: ClientId, group: Group, node: NodeId,
                          session: bool, reached: set<ActorId>)
    ensures var st' := Greet(st, cfg, ord, now, client, group, node, session, reached);
            HandsNothing(st, st') && NobodyNewUp(st, st')
  {
    var s := st.(clients := st.clients[client := HelloRow(st, client, group, node, session)]);
    assert HandsNothing(st, s) && NobodyNewUp(st, s) && HandsNothing(st, st) && NobodyNewUp(st, st);
    hide KillAll, Died, HandsNothing, NobodyNewUp, HelloRow;
    var ids := ord(Orphans(st, group, client));
    KillAllDied(s, cfg, ord, now, ids, reached);
    var st' := KillAll(s, cfg, ord, now, ids, reached);
    DiedHandsNothing(s, st', SetOf(ids), now);
    HandsNothingTrans(st, s, st');
    UpTrans(st, s, st');
  }

  lemma ReapHandsNothing(st: State, cfg: Config, ord: Order, now: nat, client: ClientId, token: Option<nat>, reached: set<ActorId>)
    ensures var st' := Reap(st, cfg, ord, now, client, token, reached); HandsNothing(st, st') && NobodyNewUp(st, st')
  {
    var s := ReapStart(st, client, now);
    assert HandsNothing(st, s) && NobodyNewUp(st, s);
    hide KillAll, TryPlace, ReapStart;
    if Reaps(st, client, token) {
      var ids := ord(OwnedBy(st, client));
      KillAllDied(s, cfg, ord, now, ids, reached);
      var killed := KillAll(s, cfg, ord, now, ids, reached);
      DiedHandsNothing(s, killed, SetOf(ids), now);
      var t := killed.(refs := RefsOfOthers(killed.refs, client));
      assert HandsNothing(killed, t) && NobodyNewUp(killed, t);
      hide HandsNothing, NobodyNewUp;
      TryPlaceHandsNothing(t, cfg, ord);
      HandsNothingTrans(st, s, killed);
      HandsNothingTrans(st, killed, t);
      HandsNothingTrans(st, t, TryPlace(t, cfg, ord));
      UpTrans(st, s, killed);
      UpTrans(st, killed, t);
      UpTrans(st, t, TryPlace(t, cfg, ord));
    }
  }

  lemma CloseSessionHandsNothing(st: State, cfg: Config, ord: Order, now: nat, client: ClientId, reached: set<ActorId>)
    ensures var st' := CloseSession(st, cfg, ord, now, client, reached); HandsNothing(st, st') && NobodyNewUp(st, st')
  {
    hide Reap;
    var s := st.(clients := st.clients - {client});
    ReapHandsNothing(s, cfg, ord, now, client, None, reached);
  }

  lemma HistoryHandsNothing(st: State, cfg: Config, now: nat)
    ensures var st' := SweepHistory(st, cfg, now); HandsNothing(st, st') && NobodyNewUp(st, st')
  {
    hide AnythingOld;
  }

  lemma SweepHandsNothing(st: State, cfg: Config, ord: Order, now: nat)
    requires IsOrder(ord)
    ensures var st' := SweepAll(st, cfg, ord, now); HandsNothing(st, st') && NobodyNewUp(st, st')
  {
    hide GiveUpAll, IsOrder, Died, GivenUp, OnAgents, SweepHistory, TimedOut;
    var s := st.(pgs := TimedOut(st.pgs, cfg, now));
    var f := Forget(s, cfg, now);
    assert HandsNothing(st, f) && NobodyNewUp(st, f);
    hide HandsNothing, NobodyNewUp, Forget;
    var agents := ord(GivenUp(s, cfg, now));
    var g := GiveUpAll(f, cfg, ord, now, agents);
    GiveUpDied(f, cfg, ord, now, agents);
    DiedHandsNothing(f, g, OnAgents(f, SetOf(agents)), now);
    HistoryHandsNothing(g, cfg, now);
    HandsNothingTrans(st, f, g);
    HandsNothingTrans(st, g, SweepHistory(g, cfg, now));
    UpTrans(st, f, g);
    UpTrans(st, g, SweepHistory(g, cfg, now));
  }

  lemma SameHanding(st: State, st': State)
    requires st'.sent == st.sent && st'.accepted == st.accepted && st'.nextRef == st.nextRef && st'.failed == st.failed
    requires st'.actors == st.actors && st'.agents == st.agents
    ensures HandsNothing(st, st') && NobodyNewUp(st, st')
  {
  }

  lemma PgsHandNothing(st: State, cfg: Config, ord: Order, pgs: map<PgId, Pg>)
    ensures var st' := TryPlace(st.(pgs := pgs), cfg, ord); HandsNothing(st, st') && NobodyNewUp(st, st')
  {
    hide TryPlace;
    TryPlaceHandsNothing(st.(pgs := pgs), cfg, ord);
  }

  lemma LoseLinkHandsNothing(st: State, now: nat, agent: AgentId, conn: nat)
    ensures HandsNothing(st, LoseLink(st, now, agent, conn)) && NobodyNewUp(st, LoseLink(st, now, agent, conn))
  {
  }

  lemma SpawnedHandsNothing(st: State, a: ActorId)
    ensures HandsNothing(st, Spawned(st, a)) && NobodyNewUp(st, Spawned(st, a))
  {
  }

  lemma SmallHandsNothing(st: State, cfg: Config, ord: Order, now: nat, e: Event)
    requires e.PgCreate? || e.PgRemove? || e.ActorKill? || e.SpawnResult? || e.ActorExit? || e.ClaimName? ||
             e.ConnClosed? || e.LinkLost? || e.ActorResult? || e.FabricsDerived?
    ensures HandsNothing(st, Apply(st, cfg, ord, now, e)) && NobodyNewUp(st, Apply(st, cfg, ord, now, e))
  {
    hide TryPlace, MarkDead, Died, HandsNothing, NobodyNewUp, TakeClaim, CloseConn, LoseLink, Resolve, Spawned, KillActor;
    UntouchedSteps(st, now, e);
    match e
    case PgCreate(client, pg, bundles, claim) =>
      var row := Pg(ClientGroup(st, client), client, bundles, claim, NoBundles(|bundles|), Pending, now, None);
      PgsHandNothing(st, cfg, ord, st.pgs[pg := row]);
    case PgRemove(pg) =>
      PgsHandNothing(st, cfg, ord, if pg in st.pgs then st.pgs[pg := RemovedRow(st.pgs[pg], now)] else st.pgs);
    case ActorKill(a, ok) =>
      KillActorDied(st, cfg, ord, now, a, ok);
      DiedHandsNothing(st, KillActor(st, cfg, ord, now, a, ok), {a}, now);
    case SpawnResult(a, ok) =>
      MarkDeadHandsNothing(st, cfg, ord, now, a);
      SpawnedHandsNothing(st, a);
    case ActorExit(a) => MarkDeadHandsNothing(st, cfg, ord, now, a);
    case ClaimName(client, name, shape, net) => SameHanding(st, TakeClaim(st, client, name, shape, net));
    case ConnClosed(client) => SameHanding(st, CloseConn(st, client));
    case LinkLost(agent, conn) => LoseLinkHandsNothing(st, now, agent, conn);
    case ActorResult(r, ok, payload, error) =>
      ResolveIs(st, r, ok, payload, error);
      SameHanding(st, Resolve(st, r, ok, payload, error));
    case FabricsDerived(islands, tagged) => SameHanding(st, st.(islands := islands, tagged := tagged));
  }

  /** Only calls and registrations hand calls over or hold them. */
  lemma OthersHandNothing(st: State, cfg: Config, ord: Order, now: nat, e: Event)
    requires IsOrder(ord) && Sane(st, e) && !e.ActorCall? && !e.Register?
    ensures HandsNothing(st, Apply(st, cfg, ord, now, e)) && NobodyNewUp(st, Apply(st, cfg, ord, now, e))
  {
    hide IsOrder, CreateActor, Greet, CloseSession, Reap, SweepAll, HandsNothing, NobodyNewUp, CreatePg, RemovePg,
         KillActor, MarkDead, TakeClaim, CloseConn, LoseLink, Resolve, Spawned;
    match e
    case ActorCreate(client, a, name, n, pg, i, ok) => CreateActorHandsNothing(st, cfg, ord, now, client, a, name, n, pg, i, ok);
    case Hello(client, group, node, session, reached) => GreetHandsNothing(st, cfg, ord, now, client, group, node, session, reached);
    case SessionClosed(client, reached) => CloseSessionHandsNothing(st, cfg, ord, now, client, reached);
    case ReapTimer(client, token, reached) => ReapHandsNothing(st, cfg, ord, now, client, Some(token), reached);
    case Sweep => SweepHandsNothing(st, cfg, ord, now);
    case _ => SmallHandsNothing(st, cfg, ord, now, e);
  }

  // ---------------------------------------------------------------- a call

  /** A new call held: the newest of its queue. */
  lemma EnqueueKeeps(st: State, st': State, a: ActorId, call: Call)
    requires Handing(st) && a in st.actors && call.ref == RefId(a, st.nextRef)
    requires st'.sent == st.sent && st'.nextRef == st.nextRef + 1 && st'.accepted == st.accepted + [call.ref]
    requires st'.actors == st.actors[a := Enqueued(st.actors[a], call)]
    ensures Handing(st')
  {
    AcceptedMore(st, st', call.ref);
    forall x | x in st'.actors ensures GoodQueue(st', x, st'.actors[x].queued) {
      assert GoodQueue(st, x, st.actors[x].queued);
      QueueMore(st, st', x, st.actors[x].queued);
      if x == a {
        QueuePush(st', a, st.actors[a].queued, call);
      }
    }
  }

  lemma AcceptedMore(st: State, st': State, r: RefId)
    requires AcceptedInOrder(st) && HandedKnown(st) && r.n == st.nextRef && st'.nextRef == st.nextRef + 1
    requires st'.accepted == st.accepted + [r]
    ensures AcceptedInOrder(st') && (st'.sent == st.sent ==> HandedKnown(st'))
    ensures forall q :: q in st.accepted ==> q in st'.accepted
  {
    assert st'.accepted[..|st.accepted|] == st.accepted;
  }

  lemma QueueMore(st: State, st': State, a: ActorId, queue: seq<Call>)
    requires GoodQueue(st, a, queue) && st'.sent == st.sent && st.nextRef <= st'.nextRef
    requires forall q :: q in st.accepted ==> q in st'.accepted
    ensures GoodQueue(st', a, queue)
  {
  }

  lemma QueuePush(st: State, a: ActorId, queue: seq<Call>, call: Call)
    requires GoodQueue(st, a, queue) && KnownCall(st, a, call)
    requires forall k :: 0 <= k < |queue| ==> queue[k].ref.n < call.ref.n
    requires forall i :: 0 <= i < |st.sent| && Hands(st.sent[i], a) ==> st.sent[i].msg.call.ref.n < call.ref.n
    ensures GoodQueue(st, a, queue + [call])
  {
  }

  /** A new call sent: newer than anything handed over, and its queue is empty. */
  lemma SendKeeps(st: State, st': State, agent: AgentId, conn: nat, a: ActorId, call: Call)
    requires Handing(st) && a in st.actors && st.actors[a].queued == [] && call.ref == RefId(a, st.nextRef)
    requires st'.sent == st.sent + [Sent(agent, conn, Dispatch(a, call))]
    requires st'.nextRef == st.nextRef + 1 && st'.accepted == st.accepted + [call.ref] && st'.actors == st.actors
    ensures Handing(st')
  {
    AcceptedMore(st, st', call.ref);
    assert forall i :: 0 <= i < |st.sent| ==> st'.sent[i] == st.sent[i];
    forall i, j | 0 <= i < j < |st'.sent| && st'.sent[i].msg.Dispatch? && Hands(st'.sent[j], st'.sent[i].msg.actor)
      ensures st'.sent[i].msg.call.ref.n < st'.sent[j].msg.call.ref.n
    {
      assert KnownCall(st, st.sent[i].msg.actor, st.sent[i].msg.call);
    }
    forall x | x in st'.actors ensures GoodQueue(st', x, st'.actors[x].queued) {
      assert GoodQueue(st, x, st.actors[x].queued);
    }
  }

  lemma CallIdle(st: State, client: ClientId, a: ActorId, body: nat, delivered: bool)
    requires FateOf(st, a, delivered) == NoActor || FateOf(st, a, delivered) == TooLate
    ensures HandsNothing(st, MakeCall(st, client, a, body, delivered))
  {
  }

  lemma CallQueued(st: State, client: ClientId, a: ActorId, body: nat, delivered: bool)
    requires FateOf(st, a, delivered) == Hold || FateOf(st, a, delivered) == SendFails
    ensures var st' := MakeCall(st, client, a, body, delivered); var call := Call(RefId(a, st.nextRef), body);
            st'.sent == st.sent && st'.nextRef == st.nextRef + 1 && st'.accepted == st.accepted + [call.ref] &&
            st'.actors == st.actors[a := Enqueued(st.actors[a], call)]
  {
    match FateOf(st, a, delivered)
    case Hold =>
    case SendFails =>
  }

  lemma CallSent(st: State, client: ClientId, a: ActorId, body: nat, delivered: bool)
    requires FateOf(st, a, delivered) == Goes
    ensures var st' := MakeCall(st, client, a, body, delivered); var call := Call(RefId(a, st.nextRef), body);
            var agent := st.actors[a].agent;
            st'.sent == st.sent + [Sent(agent, st.agents[agent].seqNo, Dispatch(a, call))] &&
            st'.nextRef == st.nextRef + 1 && st'.accepted == st.accepted + [call.ref] && st'.actors == st.actors
  {
  }

  lemma CallHands(st: State, client: ClientId, a: ActorId, body: nat, delivered: bool)
    requires Handing(st) && HeldWhileAway(st) && Steady(st, ActorCall(client, a, body, delivered))
    ensures Handing(MakeCall(st, client, a, body, delivered))
  {
    hide Handing, MakeCall, HandsNothing;
    var st' := MakeCall(st, client, a, body, delivered);
    var call := Call(RefId(a, st.nextRef), body);
    if FateOf(st, a, delivered) == Goes {
      CallSent(st, client, a, body, delivered);
      var agent := st.actors[a].agent;
      SendKeeps(st, st', agent, st.agents[agent].seqNo, a, call);
    } else if FateOf(st, a, delivered) in {Hold, SendFails} {
      CallQueued(st, client, a, body, delivered);
      EnqueueKeeps(st, st', a, call);
    } else {
      CallIdle(st, client, a, body, delivered);
      HandingKept(st, st');
    }
  }

  lemma CallHolds(st: State, client: ClientId, a: ActorId, body: nat, delivered: bool)
    requires HeldWhileAway(st)
    ensures HeldWhileAway(MakeCall(st, client, a, body, delivered))
  {
    match FateOf(st, a, delivered)
    case NoActor =>
    case TooLate =>
    case Hold =>
    case SendFails =>
    case Goes =>
  }

  // --------------------------------------------------------- registration

  lemma AdoptRefsQuiet(st: State, agent: AgentId, group: Group, node: NodeId, gpus: seq<nat>, resume: seq<Resumed>, unacked: seq<RefId>)
    ensures HandsNothing(st, TakeOn(st, agent, group, node, gpus, resume, unacked))
  {
    hide Adopt, AdoptRefs, Reported;
    var s := RegisterRow(st, agent, group, node, gpus);
    AdoptMeans(s.actors, resume, group, agent, node);
    AdoptRefsFrame(s.(actors := Adopt(s.actors, resume, group, agent, node)), agent, Reported(resume, unacked));
  }

  /** The tables just before the held calls go out. */
  ghost function Settled(st: State, cfg: Config, ord: Order, now: nat, agent: AgentId, group: Group, node: NodeId,
                         gpus: seq<nat>, resume: seq<Resumed>, unacked: seq<RefId>): State {
    var s := TakeOn(st, agent, group, node, gpus, resume, unacked);
    FailLost(MarkAll(s, cfg, ord, now, ord(Missing(s, agent, resume))), agent, Reported(resume, unacked))
  }

  lemma SettledIs(st: State, cfg: Config, ord: Order, now: nat, agent: AgentId, group: Group, node: NodeId,
                  gpus: seq<nat>, resume: seq<Resumed>, unacked: seq<RefId>)
    requires RowsHold(st)
    ensures var t := Settled(st, cfg, ord, now, agent, group, node, gpus, resume, unacked);
            HandsNothing(st, t) && RowsHold(t) &&
            t.failed == st.failed && t.agents == RegisterRow(st, agent, group, node, gpus).agents
  {
    hide HandsNothing, RowsHold, TakeOn, MarkAll, Reported, Missing, Died, FailLost, Onward;
    var s := TakeOn(st, agent, group, node, gpus, resume, unacked);
    AdoptRefsQuiet(st, agent, group, node, gpus, resume, unacked);
    TakeOnRows(st, agent, group, node, gpus, resume, unacked);
    TakeOnAgents(st, agent, group, node, gpus, resume, unacked);
    var ids := ord(Missing(s, agent, resume));
    var alive := MarkAll(s, cfg, ord, now, ids);
    MarkAllDied(s, cfg, ord, now, ids);
    DiedOnward(s, alive, SetOf(ids), now);
    DiedHandsNothing(s, alive, SetOf(ids), now);
    DiedAgents(s, alive, SetOf(ids), now);
    var t := FailLost(alive, agent, Reported(resume, unacked));
    FailLostRows(alive, agent, Reported(resume, unacked));
    FailLostFrame(alive, agent, Reported(resume, unacked));
    RefsHandNothing(alive, t.refs);
    HandsNothingTrans(st, s, alive);
    HandsNothingTrans(st, alive, t);
  }

  lemma RefsHandNothing(st: State, refs: map<RefId, Ref>)
    ensures HandsNothing(st, st.(refs := refs))
  {
  }

  lemma DiedAgents(st: State, st': State, ids: set<ActorId>, now: nat)
    requires Died(st, st', ids, now)
    ensures st'.agents == st.agents && st'.failed == st.failed && st'.clients == st.clients
  {
  }

  lemma TakeOnAgents(st: State, agent: AgentId, group: Group, node: NodeId, gpus: seq<nat>, resume: seq<Resumed>, unacked: seq<RefId>)
    ensures var s := TakeOn(st, agent, group, node, gpus, resume, unacked);
            s.agents == RegisterRow(st, agent, group, node, gpus).agents && s.failed == st.failed && s.clients == st.clients
  {
    hide Adopt, AdoptRefs, Reported;
    var s := RegisterRow(st, agent, group, node, gpus);
    AdoptRefsFrame(s.(actors := Adopt(s.actors, resume, group, agent, node)), agent, Reported(resume, unacked));
  }

  predicate QueuedAt(st: State, a: ActorId, call: Call) {
    a in st.actors && call in st.actors[a].queued
  }

  lemma DrainsLast(st: State, ids: seq<ActorId>)
    requires ids != [] && ids[|ids| - 1] in st.actors
    ensures var a := ids[|ids| - 1]; Drains(st, ids) == Drains(st, ids[..|ids| - 1]) + DispatchesOf(a, st.actors[a].queued)
  {
  }

  /** Each drained frame is a queued call of one of the actors. */
  lemma {:induction false} DrainsQueued(st: State, ids: seq<ActorId>, i: nat)
    requires i < |Drains(st, ids)| && forall a :: a in ids ==> a in st.actors
    ensures var m := Drains(st, ids)[i]; m.Dispatch? && m.actor in ids && QueuedAt(st, m.actor, m.call)
    decreases |ids|
  {
    var n := |ids| - 1;
    DrainsLast(st, ids);
    var d0 := Drains(st, ids[..n]);
    hide Drains;
    if i < |d0| {
      DrainsQueued(st, ids[..n], i);
    } else {
      var queue := st.actors[ids[n]].queued;
      assert Drains(st, ids)[i] == Dispatch(ids[n], queue[i - |d0|]);
    }
  }

  /** Every queued call of the actors is drained. */
  lemma {:induction false} DrainsAll(st: State, ids: seq<ActorId>, a: ActorId, k: nat) returns (i: nat)
    requires a in ids && (forall x :: x in ids ==> x in st.actors) && k < |st.actors[a].queued|
    ensures i < |Drains(st, ids)| && Drains(st, ids)[i] == Dispatch(a, st.actors[a].queued[k])
    decreases |ids|
  {
    var n := |ids| - 1;
    DrainsLast(st, ids);
    hide Drains;
    if ids[n] == a {
      i := |Drains(st, ids[..n])| + k;
    } else {
      i := DrainsAll(st, ids[..n], a, k);
    }
  }

  /** The drained frames of one actor keep its queue's order. */
  lemma {:induction false} DrainsOrdered(st: State, ids: seq<ActorId>, i: nat, j: nat)
    requires NoDup(ids) && GoodQueues(st) && (forall a :: a in ids ==> a in st.actors) && i < j < |Drains(st, ids)|
    requires Drains(st, ids)[i].actor == Drains(st, ids)[j].actor
    requires Drains(st, ids)[i].Dispatch? && Drains(st, ids)[j].Dispatch?
    ensures Drains(st, ids)[i].call.ref.n < Drains(st, ids)[j].call.ref.n
    decreases |ids|
  {
    var n := |ids| - 1;
    DrainsLast(st, ids);
    DropLast(ids);
    var a := ids[n];
    assert GoodQueue(st, a, st.actors[a].queued);
    var d0 := Drains(st, ids[..n]);
    hide Drains, GoodQueues;
    if j < |d0| {
      DrainsOrdered(st, ids[..n], i, j);
    } else if i < |d0| {
      DrainsQueued(st, ids[..n], i);
    } else {
      assert i - |d0| < j - |d0|;
    }
  }

  /** The drained frames: every queued call of the actors drained, each actor's in
      its queue's order. */
  lemma DrainsMean(st: State, ids: seq<ActorId>)
    requires NoDup(ids) && GoodQueues(st) && forall a :: a in ids ==> a in st.actors
    ensures var d := Drains(st, ids);
            (forall i :: 0 <= i < |d| ==> d[i].Dispatch? && d[i].actor in ids && QueuedAt(st, d[i].actor, d[i].call)) &&
            (forall i, j :: 0 <= i < j < |d| && d[i].actor == d[j].actor ==> d[i].call.ref.n < d[j].call.ref.n) &&
            (forall a, c :: a in ids && QueuedAt(st, a, c) ==> Dispatch(a, c) in d)
  {
    hide Drains, GoodQueues, NoDup;
    var d := Drains(st, ids);
    forall i | 0 <= i < |d| ensures d[i].Dispatch? && d[i].actor in ids && QueuedAt(st, d[i].actor, d[i].call) {
      DrainsQueued(st, ids, i);
    }
    forall i, j | 0 <= i < j < |d| && d[i].actor == d[j].actor ensures d[i].call.ref.n < d[j].call.ref.n {
      DrainsOrdered(st, ids, i, j);
    }
    forall a, c | a in ids && QueuedAt(st, a, c) ensures Dispatch(a, c) in d {
      var k :| 0 <= k < |st.actors[a].queued| && st.actors[a].queued[k] == c;
      var i := DrainsAll(st, ids, a, k);
    }
  }

  /** Handing held calls over keeps the order: the frames are newer than any
      before, and the queues they came from are empty. */
  lemma FlushKeeps(st: State, ord: Order, agent: AgentId, conn: nat, kills: seq<HeadMsg>, through: nat)
    requires Handing(st) && IsOrder(ord)
    requires forall i :: 0 <= i < |kills| ==> kills[i].Kill?
    ensures Handing(Flush(st, ord, agent, conn, kills, through))
  {
    var ids := ord(DrainIds(st, agent));
    assert NoDup(ids) && forall a :: a in ids ==> Draining(st, agent, a);
    hide IsOrder, HandedInOrder, HandedKnown, AcceptedInOrder;
    DrainsMean(st, ids);
    var d := Drains(st, ids);
    var st' := Flush(st, ord, agent, conn, kills, through);
    FlushSent(st, ord, agent, conn, kills, through);
    forall i | |st.sent| <= i < |st'.sent| && st'.sent[i].msg.Dispatch?
      ensures 0 <= i - |st.sent| - |kills| < |d| && st'.sent[i].msg == d[i - |st.sent| - |kills|]
      ensures Draining(st, agent, st'.sent[i].msg.actor) && QueuedAt(st, st'.sent[i].msg.actor, st'.sent[i].msg.call)
    {
      assert i - |st.sent| >= |kills|;
    }
    hide Drains, Flush, GoodQueues;
    FlushInOrder(st, st', kills, d);
    FlushQueues(st, st', agent, conn);
  }

  lemma FlushSent(st: State, ord: Order, agent: AgentId, conn: nat, kills: seq<HeadMsg>, through: nat)
    ensures var st' := Flush(st, ord, agent, conn, kills, through); var d := Drains(st, ord(DrainIds(st, agent)));
            |st.sent| <= |st'.sent| <= |st.sent| + |kills| + |d| &&
            (forall i :: 0 <= i < |st.sent| ==> st'.sent[i] == st.sent[i]) &&
            (forall i :: |st.sent| <= i < |st'.sent| ==>
               st'.sent[i] == Sent(agent, conn, if i - |st.sent| < |kills| then kills[i - |st.sent|] else d[i - |st.sent| - |kills|])) &&
            st'.nextRef == st.nextRef && st'.accepted == st.accepted && st'.actors == Emptied(st, agent)
  {
    hide Drains, DrainIds, Emptied;
    var d := Drains(st, ord(DrainIds(st, agent)));
    var frames := kills + d;
    var k := if through < |frames| then through else |frames|;
    var st' := Flush(st, ord, agent, conn, kills, through);
    assert st'.sent == st.sent + OnConn(agent, conn, frames[..k]);
    forall i | |st.sent| <= i < |st'.sent| ensures st'.sent[i] == Sent(agent, conn, frames[i - |st.sent|]) {
    }
  }

  lemma FlushInOrder(st: State, st': State, kills: seq<HeadMsg>, d: seq<HeadMsg>)
    requires Handing(st) && |st.sent| <= |st'.sent|
    requires forall i :: 0 <= i < |st.sent| ==> st'.sent[i] == st.sent[i]
    requires forall i :: 0 <= i < |d| ==> d[i].Dispatch?
    requires forall i, j :: 0 <= i < j < |d| && d[i].actor == d[j].actor ==> d[i].call.ref.n < d[j].call.ref.n
    requires forall i :: |st.sent| <= i < |st'.sent| && st'.sent[i].msg.Dispatch? ==>
               (0 <= i - |st.sent| - |kills| < |d| && st'.sent[i].msg == d[i - |st.sent| - |kills|] &&
                QueuedAt(st, st'.sent[i].msg.actor, st'.sent[i].msg.call))
    ensures HandedInOrder(st'.sent)
  {
    forall i, j | 0 <= i < j < |st'.sent| && st'.sent[i].msg.Dispatch? && Hands(st'.sent[j], st'.sent[i].msg.actor)
      ensures st'.sent[i].msg.call.ref.n < st'.sent[j].msg.call.ref.n
    {
      if i < |st.sent| <= j {
        var a := st'.sent[j].msg.actor;
        assert GoodQueue(st, a, st.actors[a].queued);
        var k :| 0 <= k < |st.actors[a].queued| && st.actors[a].queued[k] == st'.sent[j].msg.call;
        assert Hands(st.sent[i], a);
      }
    }
  }

  lemma FlushQueues(st: State, st': State, agent: AgentId, conn: nat)
    requires Handing(st) && |st.sent| <= |st'.sent|
    requires st'.nextRef == st.nextRef && st'.accepted == st.accepted && st'.actors == Emptied(st, agent)
    requires forall i :: 0 <= i < |st.sent| ==> st'.sent[i] == st.sent[i]
    requires forall i :: |st.sent| <= i < |st'.sent| && st'.sent[i].msg.Dispatch? ==>
               Draining(st, agent, st'.sent[i].msg.actor) && QueuedAt(st, st'.sent[i].msg.actor, st'.sent[i].msg.call)
    ensures HandedKnown(st') && GoodQueues(st') && AcceptedInOrder(st')
  {
    forall i | 0 <= i < |st'.sent| && st'.sent[i].msg.Dispatch?
      ensures KnownCall(st', st'.sent[i].msg.actor, st'.sent[i].msg.call)
    {
      if i < |st.sent| {
        assert KnownCall(st, st.sent[i].msg.actor, st.sent[i].msg.call);
      } else {
        var a := st'.sent[i].msg.actor;
        assert GoodQueue(st, a, st.actors[a].queued);
        var k :| 0 <= k < |st.actors[a].queued| && st.actors[a].queued[k] == st'.sent[i].msg.call;
      }
    }
    forall a | a in st'.actors ensures GoodQueue(st', a, st'.actors[a].queued) {
      if !Draining(st, agent, a) {
        assert GoodQueue(st, a, st.actors[a].queued);
      }
    }
  }

  lemma {:induction false} KillsAreKills(st: State, resume: seq<Resumed>)
    ensures forall i :: 0 <= i < |Kills(st, resume)| ==> Kills(st, resume)[i].Kill?
    decreases |resume|
  {
    if resume != [] { KillsAreKills(st, resume[..|resume| - 1]); }
  }

  lemma RegisterKeeps(st: State, cfg: Config, ord: Order, now: nat, agent: AgentId, group: Group, node: NodeId,
                      gpus: seq<nat>, resume: seq<Resumed>, unacked: seq<RefId>, through: nat)
    requires Handing(st) && HeldWhileAway(st) && RowsHold(st) && IsOrder(ord)
    ensures var st' := Registered(st, cfg, ord, now, agent, group, node, gpus, resume, unacked, through);
            Handing(st') && HeldWhileAway(st')
  {
    hide Handing, HeldWhileAway, RowsHold, IsOrder, HandsNothing, Settled, Flush, TryPlace, NobodyNewUp, Kills;
    var t := Settled(st, cfg, ord, now, agent, group, node, gpus, resume, unacked);
    SettledIs(st, cfg, ord, now, agent, group, node, gpus, resume, unacked);
    HandingKept(st, t);
    KillsAreKills(st, resume);
    var f := Flush(t, ord, agent, st.nextSeq, Kills(st, resume), through);
    FlushKeeps(t, ord, agent, st.nextSeq, Kills(st, resume), through);
    FlushHeld(st, t, ord, agent, group, node, gpus, Kills(st, resume), through);
    TryPlaceHandsNothing(f, cfg, ord);
    HandingKept(f, TryPlace(f, cfg, ord));
    HandsKeepsQueues(f, TryPlace(f, cfg, ord));
    HeldKept(f, TryPlace(f, cfg, ord));
    RegisteredIs(st, cfg, ord, now, agent, group, node, gpus, resume, unacked, through);
  }

  lemma HandsKeepsQueues(st: State, st': State)
    requires HandsNothing(st, st')
    ensures QueuesKept(st.actors, st'.actors)
  {
  }

  lemma RegisteredIs(st: State, cfg: Config, ord: Order, now: nat, agent: AgentId, group: Group, node: NodeId,
                     gpus: seq<nat>, resume: seq<Resumed>, unacked: seq<RefId>, through: nat)
    ensures Registered(st, cfg, ord, now, agent, group, node, gpus, resume, unacked, through) ==
            TryPlace(Flush(Settled(st, cfg, ord, now, agent, group, node, gpus, resume, unacked), ord, agent, st.nextSeq,
                           Kills(st, resume), through), cfg, ord)
  {
  }

  /** After the flush no actor of the agent has a call left, so calls are still
      held only for agents away. */
  lemma FlushHeld(st: State, t: State, ord: Order, agent: AgentId, group: Group, node: NodeId, gpus: seq<nat>,
                  kills: seq<HeadMsg>, through: nat)
    requires HeldWhileAway(st) && RowsHold(t) && HandsNothing(st, t)
    requires t.failed == st.failed && t.agents == RegisterRow(st, agent, group, node, gpus).agents
    ensures HeldWhileAway(Flush(t, ord, agent, st.nextSeq, kills, through))
  {
    hide Drains, AgentRows, RefRows;
    var f := Flush(t, ord, agent, st.nextSeq, kills, through);
    forall a | a in f.actors && f.actors[a].queued != [] && AgentUp(f, f.actors[a].agent)
      ensures f.agents[f.actors[a].agent].seqNo in f.failed
    {
      assert f.actors[a] == t.actors[a] && t.actors[a].agent != agent;
    }
  }

  // ------------------------------------------------------------- every run

  lemma StepKeepsCalls(st: State, cfg: Config, ord: Order, now: nat, e: Event)
    requires Handing(st) && HeldWhileAway(st) && RowsHold(st) && IsOrder(ord) && Sane(st, e) && Steady(st, e)
    ensures var st' := Apply(st, cfg, ord, now, e); Handing(st') && HeldWhileAway(st')
  {
    hide Handing, HeldWhileAway, RowsHold, IsOrder, Sane, HandsNothing, NobodyNewUp, Steady;
    if e.ActorCall? {
      CallHands(st, e.client, e.actor, e.body, e.delivered);
      CallHolds(st, e.client, e.actor, e.body, e.delivered);
    } else if e.Register? {
      RegisterKeeps(st, cfg, ord, now, e.agent, e.group, e.node, e.gpus, e.resume, e.unacked, e.through);
    } else {
      hide Apply;
      OthersHandNothing(st, cfg, ord, now, e);
      HandingKept(st, Apply(st, cfg, ord, now, e));
      HandsKeepsQueues(st, Apply(st, cfg, ord, now, e));
      HeldKept(st, Apply(st, cfg, ord, now, e));
    }
  }

  ghost predicate SteadyRun(cfg: Config, start: nat, steps: seq<Step>) {
    SaneRun(cfg, start, steps) &&
    forall i :: 0 <= i < |steps| ==> Steady(After(cfg, start, steps[..i]), steps[i].event)
  }

  lemma {:induction false} EveryRunHandsInOrder(cfg: Config, start: nat, steps: seq<Step>)
    requires SteadyRun(cfg, start, steps)
    ensures Handing(After(cfg, start, steps)) && HeldWhileAway(After(cfg, start, steps))
    decreases |steps|
  {
    hide Apply, Steady;
    if steps != [] {
      var n := |steps| - 1;
      SanePrefix(cfg, start, steps, n);
      forall i | 0 <= i < n ensures Steady(After(cfg, start, steps[..n][..i]), steps[..n][i].event) {
        assert steps[..n][..i] == steps[..i];
        assert Steady(After(cfg, start, steps[..i]), steps[i].event);
      }
      EveryRunHandsInOrder(cfg, start, steps[..n]);
      EveryRunHolds(cfg, start, steps[..n]);
      assert SaneAt(cfg, start, steps, n) && Steady(After(cfg, start, steps[..n]), steps[n].event);
      hide Handing, HeldWhileAway, Blank, NoStall, RowsHold, SaneRun, Sane, IsOrder;
      StepKeepsCalls(After(cfg, start, steps[..n]), cfg, steps[n].ord, steps[n].now, steps[n].event);
    }
  }

  /** One call was accepted before another. */
  ghost predicate AcceptedBefore(st: State, r: RefId, s: RefId) {
    exists p, q :: 0 <= p < q < |st.accepted| && st.accepted[p] == r && st.accepted[q] == s
  }

  lemma OrderOfHanding(st: State, i: nat, j: nat)
    requires Handing(st) && i < j < |st.sent| && st.sent[i].msg.Dispatch? && Hands(st.sent[j], st.sent[i].msg.actor)
    ensures AcceptedBefore(st, st.sent[i].msg.call.ref, st.sent[j].msg.call.ref)
  {
    hide GoodQueues;
    var x, y := st.sent[i].msg, st.sent[j].msg;
    assert KnownCall(st, x.actor, x.call) && KnownCall(st, y.actor, y.call);
    var p :| 0 <= p < |st.accepted| && st.accepted[p] == x.call.ref;
    var q :| 0 <= q < |st.accepted| && st.accepted[q] == y.call.ref;
    assert x.call.ref.n < y.call.ref.n;
    assert p < q;
  }

  /** Across any number of link losses, two calls handed over for one actor are
      two different calls, both accepted, and were accepted in that order. */
  lemma HandedOnceInOrder(cfg: Config, start: nat, steps: seq<Step>, i: nat, j: nat)
    requires SteadyRun(cfg, start, steps)
    requires var sent := After(cfg, start, steps).sent;
             i < j < |sent| && sent[i].msg.Dispatch? && Hands(sent[j], sent[i].msg.actor)
    ensures var st := After(cfg, start, steps);
            st.sent[i].msg.call.ref != st.sent[j].msg.call.ref &&
            AcceptedBefore(st, st.sent[i].msg.call.ref, st.sent[j].msg.call.ref)
  {
    EveryRunHandsInOrder(cfg, start, steps);
    hide After, SteadyRun, GoodQueues, HeldWhileAway, HandedKnown, AcceptedInOrder;
    OrderOfHanding(After(cfg, start, steps), i, j);
  }

  // ---------------------------------------- what a registration leaves waiting

  /** The frames a registration writes, if the connection takes them all. */
  ghost function FlushFrames(st: State, cfg: Config, ord: Order, now: nat, agent: AgentId, group: Group, node: NodeId,
                             gpus: seq<nat>, resume: seq<Resumed>, unacked: seq<RefId>): seq<HeadMsg> {
    var t := Settled(st, cfg, ord, now, agent, group, node, gpus, resume, unacked);
    Kills(st, resume) + Drains(t, ord(DrainIds(t, agent)))
  }

  lemma SettledWaits(st: State, agent: AgentId, known: seq<RefId>, r: RefId)
    requires RowsHold(st)
    requires var t := FailLost(st, agent, known);
             r in t.refs && t.refs[r].state == Waiting && t.actors[r.actor].agent == agent && r !in known
    ensures exists a, c :: Draining(st, agent, a) && QueuedAt(st, a, c) && c.ref == r
  {
    assert st.refs[r].actor == r.actor;
    assert QueuedOn(st, agent, r);
    var a :| a in st.actors && st.actors[a].agent == agent &&
             exists i :: 0 <= i < |st.actors[a].queued| && st.actors[a].queued[i].ref == r;
    var i :| 0 <= i < |st.actors[a].queued| && st.actors[a].queued[i].ref == r;
    var c := st.actors[a].queued[i];
    assert Draining(st, agent, a) && QueuedAt(st, a, c);
  }

  /** After a registration, a call of that agent still waiting was reported by
      the agent, or was held here and is among the frames to write. */
  lemma WaitingIsFlushed(st: State, cfg: Config, ord: Order, now: nat, agent: AgentId, group: Group, node: NodeId,
                          gpus: seq<nat>, resume: seq<Resumed>, unacked: seq<RefId>, through: nat, r: RefId)
    requires RowsHold(st) && Handing(st) && IsOrder(ord)
    requires var st' := Registered(st, cfg, ord, now, agent, group, node, gpus, resume, unacked, through);
             r in st'.refs && st'.refs[r].state == Waiting && r.actor in st'.actors && st'.actors[r.actor].agent == agent
    ensures r in Reported(resume, unacked) || HandedIn(FlushFrames(st, cfg, ord, now, agent, group, node, gpus, resume, unacked), r)
  {
    hide Kills, TryPlace, RowsHold, Handing, HandsNothing, Reported, MarkAll, TakeOn, Missing;
    var t := Settled(st, cfg, ord, now, agent, group, node, gpus, resume, unacked);
    SettledIs(st, cfg, ord, now, agent, group, node, gpus, resume, unacked);
    HandingKept(st, t);
    RegisteredIs(st, cfg, ord, now, agent, group, node, gpus, resume, unacked, through);
    var f := Flush(t, ord, agent, st.nextSeq, Kills(st, resume), through);
    TryPlaceOnlyPlaces(f, cfg, ord);
    if r !in Reported(resume, unacked) {
      var s := TakeOn(st, agent, group, node, gpus, resume, unacked);
      var alive := MarkAll(s, cfg, ord, now, ord(Missing(s, agent, resume)));
      MarkedRows(st, cfg, ord, now, agent, group, node, gpus, resume, unacked);
      SettledWaits(alive, agent, Reported(resume, unacked), r);
      var a, c :| Draining(alive, agent, a) && QueuedAt(alive, a, c) && c.ref == r;
      DrainedIsHanded(t, ord, agent, Kills(st, resume), a, c);
    }
  }

  /** Among the frames, one hands the call over. */
  ghost predicate HandedIn(frames: seq<HeadMsg>, r: RefId) {
    exists i :: 0 <= i < |frames| && frames[i].Dispatch? && frames[i].call.ref == r
  }

  lemma MarkedRows(st: State, cfg: Config, ord: Order, now: nat, agent: AgentId, group: Group, node: NodeId,
                   gpus: seq<nat>, resume: seq<Resumed>, unacked: seq<RefId>)
    requires RowsHold(st)
    ensures var s := TakeOn(st, agent, group, node, gpus, resume, unacked);
            RowsHold(MarkAll(s, cfg, ord, now, ord(Missing(s, agent, resume))))
  {
    hide RowsHold, TakeOn, MarkAll, Missing, Died;
    var s := TakeOn(st, agent, group, node, gpus, resume, unacked);
    TakeOnRows(st, agent, group, node, gpus, resume, unacked);
    var ids := ord(Missing(s, agent, resume));
    MarkAllDied(s, cfg, ord, now, ids);
    DiedOnward(s, MarkAll(s, cfg, ord, now, ids), SetOf(ids), now);
  }

  lemma DrainedIsHanded(t: State, ord: Order, agent: AgentId, kills: seq<HeadMsg>, a: ActorId, c: Call)
    requires Handing(t) && IsOrder(ord) && Draining(t, agent, a) && QueuedAt(t, a, c)
    ensures HandedIn(kills + Drains(t, ord(DrainIds(t, agent))), c.ref)
  {
    var ids := ord(DrainIds(t, agent));
    DrainsMean(t, ids);
    var d := Drains(t, ids);
    assert Dispatch(a, c) in d;
    var k :| 0 <= k < |d| && d[k] == Dispatch(a, c);
    assert (kills + d)[|kills| + k] == Dispatch(a, c);
  }
}
