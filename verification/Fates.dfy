/** What becomes of every row in every step, exactly: which groups are removed, which
    actors die, which calls end and how, and which rows are dropped, each from the
    event and the rows before it. */
module Fates {
  import opened Basics
  import opened Topology
  import opened Chains
  import opened Tables
  import opened Placement
  import opened Head
  import opened Deaths
  import opened Safety
  import opened Rows
  import opened Joins
  import opened Sessions

  /** The event reaps the client: its session closed with no grace to wait out, or
      the timer of the disconnect now pending ran out and it has no session again. */
  predicate Reaping(st: State, cfg: Config, e: Event, client: ClientId) {
    match e
    case SessionClosed(c, _) => c == client && cfg.graceMs == 0
    case ReapTimer(c, token, _) =>
      c == client && c in st.reapPending && st.reapPending[c] == token && !(c in st.clients && st.clients[c].hasSession)
    case _ => false
  }

  // --------------------------------------------------- parts of a registration

  /** The stages of a registration: the reported actors and calls taken on, the
      omitted actors dead, the lost calls failed, the queues of the agent emptied,
      and a placement pass. */
  ghost predicate Staged(st: State, s: State, c: State, st': State, agent: AgentId, resume: seq<Resumed>, known: seq<RefId>,
                         now: nat) {
    s.pgs == st.pgs && (RefRows(st) ==> CallsAdopted(st, s, agent, known)) && RowsAfterTakeOn(st, s, agent, resume) &&
    Died(s, c, Missing(s, agent, resume), now) && (forall a :: a in Missing(s, agent, resume) ==> !Live(c.actors[a])) &&
    st'.actors == Emptied(c, agent) && st'.refs == FailLost(c, agent, known).refs && OnlyPlaced(c.pgs, st'.pgs)
  }

  lemma Stages(st: State, cfg: Config, ord: Order, now: nat, e: Event)
    requires e.Register? && IsOrder(ord)
    ensures Staged(st, TakeOn(st, e.agent, e.group, e.node, e.gpus, e.resume, e.unacked),
                   Joins.Counted(st, cfg, ord, now, e.agent, e.group, e.node, e.gpus, e.resume, e.unacked),
                   Apply(st, cfg, ord, now, e), e.agent, e.resume, Reported(e.resume, e.unacked), now)
  {
    hide MarkAll, TryPlace, Kills, Drains, RowsAfterTakeOn, CallsAdopted, Died, OnlyPlaced;
    var s := TakeOn(st, e.agent, e.group, e.node, e.gpus, e.resume, e.unacked);
    var c := Joins.Counted(st, cfg, ord, now, e.agent, e.group, e.node, e.gpus, e.resume, e.unacked);
    var ids := ord(Missing(s, e.agent, e.resume));
    assert SetOf(ids) == Missing(s, e.agent, e.resume);
    hide IsOrder;
    TakeOnPgs(st, e.agent, e.group, e.node, e.gpus, e.resume, e.unacked);
    hide TakeOn;
    TakeOnRowsAre(st, e.agent, e.group, e.node, e.gpus, e.resume, e.unacked);
    if RefRows(st) { TakeOnCalls(st, e.agent, e.group, e.node, e.gpus, e.resume, e.unacked); }
    MarkAllDied(s, cfg, ord, now, ids);
    forall a | a in Missing(s, e.agent, e.resume) ensures a in c.actors && !Live(c.actors[a]) {
      MarkAllKills(s, cfg, ord, now, ids, a);
    }
    var f := Flush(FailLost(c, e.agent, Reported(e.resume, e.unacked)), ord, e.agent, st.nextSeq, Kills(st, e.resume), e.through);
    TryPlaceOnlyPlaces(f, cfg, ord);
  }

  lemma TakeOnPgs(st: State, agent: AgentId, group: Group, node: NodeId, gpus: seq<nat>, resume: seq<Resumed>, unacked: seq<RefId>)
    ensures TakeOn(st, agent, group, node, gpus, resume, unacked).pgs == st.pgs
  {
    hide Adopt, AdoptRefs, Reported;
    var r := RegisterRow(st, agent, group, node, gpus);
    AdoptRefsFrame(r.(actors := Adopt(r.actors, resume, group, agent, node)), agent, Reported(resume, unacked));
  }

  lemma TakeOnCalls(st: State, agent: AgentId, group: Group, node: NodeId, gpus: seq<nat>, resume: seq<Resumed>, unacked: seq<RefId>)
    requires RefRows(st)
    ensures CallsAdopted(st, TakeOn(st, agent, group, node, gpus, resume, unacked), agent, Reported(resume, unacked))
  {
    hide Adopt, AdoptRefs, Reported;
    var r := RegisterRow(st, agent, group, node, gpus);
    AdoptMeans(r.actors, resume, group, agent, node);
    var t := r.(actors := Adopt(r.actors, resume, group, agent, node));
    assert RefRows(t);
    CallsTaken(st, t, TakeOn(st, agent, group, node, gpus, resume, unacked), agent, Reported(resume, unacked));
  }

  lemma {:induction false} MarkAllKills(st: State, cfg: Config, ord: Order, now: nat, ids: seq<ActorId>, a: ActorId)
    requires a in ids && a in st.actors
    ensures var c := MarkAll(st, cfg, ord, now, ids); a in c.actors && !Live(c.actors[a])
    decreases |ids|
  {
    hide MarkDead;
    var n := |ids| - 1;
    var s := MarkAll(st, cfg, ord, now, ids[..n]);
    MarkAllDied(st, cfg, ord, now, ids[..n]);
    MarkDeadDied(s, cfg, ord, now, ids[n]);
    if ids[n] != a { MarkAllKills(st, cfg, ord, now, ids[..n], a); }
  }

  // ---------------------------------------------------------------- groups

  /** Whether the step removes the group: asked to, waited too long for a place, or
      its owner's reap. */
  predicate Removes(st: State, cfg: Config, now: nat, e: Event, p: PgId)
    requires p in st.pgs
  {
    e == PgRemove(p) || (e.Sweep? && st.pgs[p].state == Pending && st.pgs[p].createdMs + cfg.pgTimeoutMs < now) ||
    Reaping(st, cfg, e, st.pgs[p].owner)
  }

  /** Whether the step drops the group's row: removed long enough ago, its owner
      gone. */
  predicate DropsGroup(st: State, cfg: Config, now: nat, e: Event, p: PgId)
    requires p in st.pgs
  {
    e.Sweep? && st.pgs[p].state == Removed && st.pgs[p].owner !in st.clients &&
    st.pgs[p].removedMs.Some? && st.pgs[p].removedMs.value + cfg.keepMs < now
  }

  /** Groups in `gone` are removed, and otherwise only placed. */
  ghost predicate RemovedAre(pgs: map<PgId, Pg>, pgs': map<PgId, Pg>, gone: set<PgId>, now: nat) {
    pgs.Keys <= pgs'.Keys &&
    forall p :: p in pgs ==>
      SamePg(pgs[p], pgs'[p]) && (pgs'[p].state == Removed <==> pgs[p].state == Removed || p in gone) &&
      (p !in gone && pgs[p].state == Removed ==> pgs'[p] == pgs[p]) &&
      (p in gone && pgs[p].state != Removed ==> pgs'[p].removedMs == Some(now))
  }

  ghost predicate GroupsGo(st: State, cfg: Config, now: nat, e: Event, pgs': map<PgId, Pg>) {
    RemovedAre(st.pgs, pgs', (set p | p in st.pgs && Removes(st, cfg, now, e, p)), now)
  }

  lemma RemovedPlaced(pgs: map<PgId, Pg>, mid: map<PgId, Pg>, pgs': map<PgId, Pg>, gone: set<PgId>,
                      now: nat)
    requires RemovedAre(pgs, mid, gone, now) && OnlyPlaced(mid, pgs')
    ensures RemovedAre(pgs, pgs', gone, now)
  {
  }

  /** A step that removes no group. */
  lemma NoneGo(st: State, cfg: Config, now: nat, e: Event, pgs': map<PgId, Pg>)
    requires OnlyPlaced(st.pgs, pgs') && !e.PgRemove? && !e.Sweep? && !e.SessionClosed? && !e.ReapTimer?
    ensures GroupsGo(st, cfg, now, e, pgs')
  {
  }

  lemma CreatePgGoes(st: State, cfg: Config, ord: Order, now: nat, e: Event)
    requires e.PgCreate? && e.pg !in st.pgs
    ensures GroupsGo(st, cfg, now, e, Apply(st, cfg, ord, now, e).pgs)
  {
    hide TryPlace;
    var row := Pg(ClientGroup(st, e.client), e.client, e.bundles, e.claim, NoBundles(|e.bundles|), Pending, now, None);
    TryPlaceOnlyPlaces(st.(pgs := st.pgs[e.pg := row]), cfg, ord);
  }

  lemma RemovePgGoes(st: State, cfg: Config, ord: Order, now: nat, e: Event)
    requires e.PgRemove?
    ensures GroupsGo(st, cfg, now, e, Apply(st, cfg, ord, now, e).pgs)
  {
    hide TryPlace, RemovedAre, OnlyPlaced;
    var gone := set p | p in st.pgs && Removes(st, cfg, now, e, p);
    if e.pg in st.pgs {
      assert gone == {e.pg};
      var s := st.(pgs := st.pgs[e.pg := RemovedRow(st.pgs[e.pg], now)]);
      TryPlaceOnlyPlaces(s, cfg, ord);
      OneRemoved(st.pgs, e.pg, now);
      RemovedPlaced(st.pgs, s.pgs, TryPlace(s, cfg, ord).pgs, gone, now);
    } else {
      assert gone == {};
      TryPlaceOnlyPlaces(st, cfg, ord);
      RemovedNone(st.pgs, now);
      RemovedPlaced(st.pgs, st.pgs, TryPlace(st, cfg, ord).pgs, gone, now);
    }
  }

  lemma OneRemoved(pgs: map<PgId, Pg>, p: PgId, now: nat)
    requires p in pgs
    ensures RemovedAre(pgs, pgs[p := RemovedRow(pgs[p], now)], {p}, now)
  {
  }

  lemma CreateActorPlaces(st: State, cfg: Config, ord: Order, now: nat, client: ClientId, a: ActorId, name: Name,
                          numGpus: nat, pg: PgId, index: nat, delivered: bool)
    ensures OnlyPlaced(st.pgs, CreateActor(st, cfg, ord, now, client, a, name, numGpus, pg, index, delivered).pgs)
  {
    hide MarkDead;
    var group := ClientGroup(st, client);
    if Creatable(st, group, name, numGpus, pg, index) {
      var b := st.pgs[pg].assignment[index].value;
      var row := Actor(name, group, b.agent, b.node, b.gpuIds, client, Spawning, [], Some(pg));
      MarkDeadDied(st.(actors := st.actors[a := row]), cfg, ord, now, a);
    }
  }

  lemma GreetPlaces(st: State, cfg: Config, ord: Order, now: nat, client: ClientId, group: Group, node: NodeId,
                    session: bool, reached: set<ActorId>)
    ensures OnlyPlaced(st.pgs, Greet(st, cfg, ord, now, client, group, node, session, reached).pgs)
  {
    hide KillAll, Driven, HelloRow;
    var s := st.(clients := st.clients[client := HelloRow(st, client, group, node, session)]);
    KillAllDied(s, cfg, ord, now, ord(Orphans(st, group, client)), reached);
  }

  function OwnedGroups(st: State, client: ClientId): set<PgId> {
    set p | p in st.pgs && st.pgs[p].owner == client
  }

  /** A reap removes its client's groups, and no other. */
  lemma ReapGoes(st: State, cfg: Config, ord: Order, now: nat, client: ClientId, token: Option<nat>, reached: set<ActorId>)
    ensures RemovedAre(st.pgs, Reap(st, cfg, ord, now, client, token, reached).pgs,
                       if Reaps(st, client, token) then OwnedGroups(st, client) else {}, now)
  {
    hide KillAll, TryPlace, Released;
    if Reaps(st, client, token) {
      var ids := ord(OwnedBy(st, client));
      var s := ReapStart(st, client, now);
      KillAllDied(s, cfg, ord, now, ids, reached);
      var killed := KillAll(s, cfg, ord, now, ids, reached);
      var gone := OwnedGroups(st, client);
      assert RemovedAre(st.pgs, s.pgs, gone, now);
      RemovedPlaced(st.pgs, s.pgs, killed.pgs, gone, now);
      var t := killed.(refs := RefsOfOthers(killed.refs, client));
      TryPlaceOnlyPlaces(t, cfg, ord);
      RemovedPlaced(st.pgs, t.pgs, TryPlace(t, cfg, ord).pgs, gone, now);
    }
  }

  lemma ClosedGoes(st: State, cfg: Config, ord: Order, now: nat, e: Event)
    requires e.SessionClosed?
    ensures GroupsGo(st, cfg, now, e, Apply(st, cfg, ord, now, e).pgs)
  {
    hide Reap, RemovedAre;
    var gone := set p | p in st.pgs && Removes(st, cfg, now, e, p);
    RemovedNone(st.pgs, now);
    var s := st.(clients := st.clients - {e.client});
    ReapGoes(s, cfg, ord, now, e.client, None, e.reached);
    assert cfg.graceMs == 0 ==> gone == OwnedGroups(s, e.client);
    assert cfg.graceMs != 0 ==> gone == {};
  }

  lemma TimerGoes(st: State, cfg: Config, ord: Order, now: nat, e: Event)
    requires e.ReapTimer?
    ensures GroupsGo(st, cfg, now, e, Apply(st, cfg, ord, now, e).pgs)
  {
    hide Reap, RemovedAre;
    var gone := set p | p in st.pgs && Removes(st, cfg, now, e, p);
    ReapGoes(st, cfg, ord, now, e.client, Some(e.token), e.reached);
    var goes := Reaps(st, e.client, Some(e.token));
    assert goes ==> gone == OwnedGroups(st, e.client);
    assert !goes ==> gone == {};
  }

  lemma RemovedNone(pgs: map<PgId, Pg>, now: nat)
    ensures RemovedAre(pgs, pgs, {}, now)
  {
  }

  /** The tables of a sweep before the old rows go. */
  ghost function GaveUp(st: State, cfg: Config, ord: Order, now: nat): State {
    var s := st.(pgs := TimedOut(st.pgs, cfg, now));
    GiveUpAll(Forget(s, cfg, now), cfg, ord, now, ord(GivenUp(s, cfg, now)))
  }

  lemma SweepGoes(st: State, cfg: Config, ord: Order, now: nat)
    requires IsOrder(ord)
    ensures GroupsGo(st, cfg, now, Sweep, GaveUp(st, cfg, ord, now).pgs)
  {
    hide GiveUpAll, IsOrder, GivenUp;
    var s := st.(pgs := TimedOut(st.pgs, cfg, now));
    var f := Forget(s, cfg, now);
    GiveUpDied(f, cfg, ord, now, ord(GivenUp(s, cfg, now)));
    var gone := set p | p in st.pgs && Removes(st, cfg, now, Sweep, p);
    assert RemovedAre(st.pgs, s.pgs, gone, now);
    hide RemovedAre, TimedOut;
    RemovedPlaced(st.pgs, f.pgs, GaveUp(st, cfg, ord, now).pgs, gone, now);
  }

  lemma RegisterPlaces(st: State, cfg: Config, ord: Order, now: nat, e: Event)
    requires e.Register? && IsOrder(ord)
    ensures OnlyPlaced(st.pgs, Apply(st, cfg, ord, now, e).pgs)
  {
    hide Apply, TakeOn, Joins.Counted, IsOrder, Emptied, FailLost, Missing, RowsAfterTakeOn;
    Stages(st, cfg, ord, now, e);
  }

  lemma OthersGo(st: State, cfg: Config, ord: Order, now: nat, e: Event)
    requires IsOrder(ord) && Sane(st, e) && !e.Sweep?
    ensures GroupsGo(st, cfg, now, e, Apply(st, cfg, ord, now, e).pgs)
  {
    hide IsOrder, CreatePg, RemovePg, CreateActor, KillActor, Greet, CloseSession, Reap, Registered, MarkDead, MakeCall,
         TakeClaim, LoseLink, CloseConn, Spawned, Resolve, OnlyPlaced, GroupsGo, Died;
    UntouchedSteps(st, now, e);
    SelfPlaced(st);
    match e
    case PgCreate(client, pg, bundles, claim) => CreatePgGoes(st, cfg, ord, now, e);
    case PgRemove(pg) => RemovePgGoes(st, cfg, ord, now, e);
    case SessionClosed(client, reached) => ClosedGoes(st, cfg, ord, now, e);
    case ReapTimer(client, token, reached) => TimerGoes(st, cfg, ord, now, e);
    case _ =>
      PlacesOnly(st, cfg, ord, now, e);
      NoneGo(st, cfg, now, e, Apply(st, cfg, ord, now, e).pgs);
  }

  lemma DiedPlaces(st: State, st': State, ids: set<ActorId>, now: nat)
    requires Died(st, st', ids, now)
    ensures OnlyPlaced(st.pgs, st'.pgs)
  {
  }

  lemma SpawnedSame(st: State, a: ActorId)
    ensures Spawned(st, a) == st.(actors := Spawned(st, a).actors)
  {
  }

  lemma PlacesOnly(st: State, cfg: Config, ord: Order, now: nat, e: Event)
    requires IsOrder(ord)
    requires !e.PgCreate? && !e.PgRemove? && !e.SessionClosed? && !e.ReapTimer? && !e.Sweep?
    ensures OnlyPlaced(st.pgs, Apply(st, cfg, ord, now, e).pgs)
  {
    hide IsOrder, CreateActor, KillActor, Greet, Registered, MarkDead, MakeCall, TakeClaim, LoseLink, CloseConn, Spawned,
         Resolve, OnlyPlaced, Died;
    UntouchedSteps(st, now, e);
    SelfPlaced(st);
    match e
    case ActorCreate(client, a, name, n, pg, i, ok) => CreateActorPlaces(st, cfg, ord, now, client, a, name, n, pg, i, ok);
    case ActorCall(client, a, body, ok) => CallFrame(st, client, a, body, ok);
    case ActorKill(a, ok) =>
      KillActorDied(st, cfg, ord, now, a, ok);
      DiedPlaces(st, KillActor(st, cfg, ord, now, a, ok), {a}, now);
    case Hello(client, group, node, session, reached) => GreetPlaces(st, cfg, ord, now, client, group, node, session, reached);
    case Register(agent, group, node, gpus, resume, unacked, through) => RegisterPlaces(st, cfg, ord, now, e);
    case SpawnResult(a, ok) =>
      SpawnedSame(st, a);
      MarkDeadDied(st, cfg, ord, now, a);
      DiedPlaces(st, MarkDead(st, cfg, ord, now, a), {a}, now);
    case ActorResult(r, ok, payload, error) => ResolveIs(st, r, ok, payload, error);
    case ActorExit(a) =>
      MarkDeadDied(st, cfg, ord, now, a);
      DiedPlaces(st, MarkDead(st, cfg, ord, now, a), {a}, now);
    case _ =>
  }

  /** In every step a group's row is dropped exactly when it was removed long enough
      ago and its owner is gone, and a group not removed before is removed after it,
      as of now, exactly when it was asked to be, waited too long for a place, or its
      own owner was reaped. */
  lemma GroupsExactly(st: State, cfg: Config, ord: Order, now: nat, e: Event, p: PgId)
    requires IsOrder(ord) && Sane(st, e) && p in st.pgs
    ensures var st' := Apply(st, cfg, ord, now, e);
            (p in st'.pgs <==> !DropsGroup(st, cfg, now, e, p)) &&
            (p in st'.pgs ==>
               (st'.pgs[p].state == Removed <==> st.pgs[p].state == Removed || Removes(st, cfg, now, e, p)) &&
               (st.pgs[p].state != Removed && st'.pgs[p].state == Removed ==> st'.pgs[p].removedMs == Some(now)))
  {
    if e.Sweep? {
      SweepGroups(st, cfg, ord, now, p);
    } else {
      hide Apply, IsOrder;
      OthersGo(st, cfg, ord, now, e);
    }
  }

  /** Before the old rows go, a sweep leaves the clients alone, and a group it timed
      out was removed just now. */
  lemma GaveUpGroups(st: State, cfg: Config, ord: Order, now: nat, p: PgId)
    requires IsOrder(ord) && p in st.pgs
    ensures var g := GaveUp(st, cfg, ord, now);
            g.clients == st.clients && p in g.pgs && g.pgs[p].owner == st.pgs[p].owner &&
            (st.pgs[p].state == Removed ==> g.pgs[p] == st.pgs[p]) &&
            (st.pgs[p].state != Removed && g.pgs[p].state == Removed ==> g.pgs[p].removedMs == Some(now))
  {
    hide GiveUpAll, IsOrder, GivenUp;
    var s := st.(pgs := TimedOut(st.pgs, cfg, now));
    GiveUpDied(Forget(s, cfg, now), cfg, ord, now, ord(GivenUp(s, cfg, now)));
  }

  lemma HistoryGroups(g: State, cfg: Config, now: nat, p: PgId)
    requires p in g.pgs
    ensures var st' := SweepHistory(g, cfg, now);
            (p in st'.pgs <==> !OldPg(g, cfg, now, p)) && (p in st'.pgs ==> st'.pgs[p] == g.pgs[p])
  {
    hide OldActor, OldAgent;
    if OldPg(g, cfg, now, p) {
      assert AnythingOld(g, cfg, now);
    }
  }

  lemma SweepGroups(st: State, cfg: Config, ord: Order, now: nat, p: PgId)
    requires IsOrder(ord) && p in st.pgs
    ensures var st' := SweepAll(st, cfg, ord, now);
            (p in st'.pgs <==> !DropsGroup(st, cfg, now, Sweep, p)) &&
            (p in st'.pgs ==>
               (st'.pgs[p].state == Removed <==> st.pgs[p].state == Removed || Removes(st, cfg, now, Sweep, p)) &&
               (st.pgs[p].state != Removed && st'.pgs[p].state == Removed ==> st'.pgs[p].removedMs == Some(now)))
  {
    hide IsOrder, GiveUpAll, SweepHistory, TimedOut, Forget, GivenUp;
    var g := GaveUp(st, cfg, ord, now);
    assert SweepAll(st, cfg, ord, now) == SweepHistory(g, cfg, now);
    hide GaveUp;
    SweepGoes(st, cfg, ord, now);
    GaveUpGroups(st, cfg, ord, now, p);
    HistoryGroups(g, cfg, now, p);
  }

  // ---------------------------------------------------------------- actors

  /** Another client of the group holds a session. */
  predicate DrivenByOther(st: State, group: Group, client: ClientId) {
    exists c :: c in st.clients && c != client && st.clients[c].group == group && st.clients[c].hasSession
  }

  /** The event asks for the actor's death: a kill, a new session for its group
      while its owner has neither a session nor a pending reap, or its owner's reap. */
  predicate Asks(st: State, cfg: Config, e: Event, a: ActorId)
    requires a in st.actors
  {
    var owner := st.actors[a].owner;
    match e
    case ActorKill(x, _) => x == a
    case Hello(client, group, _, session, _) =>
      session && !DrivenByOther(st, group, client) && st.actors[a].group == group && owner != client &&
      !(owner in st.clients && st.clients[owner].hasSession) && owner !in st.reapPending
    case _ => Reaping(st, cfg, e, owner)
  }

  /** Whether a live actor dies in the step. Asked to be killed it dies at once only
      with its agent down. Otherwise it is reported dead, is omitted by its agent's
      registration, or its agent has been away for the give-up time. */
  predicate Dies(st: State, cfg: Config, now: nat, e: Event, a: ActorId)
    requires a in st.actors
  {
    var agent := st.actors[a].agent;
    match e
    case ActorExit(x) => x == a
    case SpawnResult(x, ok) => x == a && !ok
    case Register(g, _, _, _, resume, _, _) => g == agent && !Resumes(resume, a)
    case Sweep => agent in st.agents && st.agents[agent].lostAt.Some? && Passed(st.agents[agent].lostAt.value, cfg.deadAfterMs, now)
    case _ => Asks(st, cfg, e, a) && !(agent in st.agents && st.agents[agent].alive)
  }

  /** `wait` has passed since `at`. A clock that ran back counts as no time. */
  predicate Passed(at: nat, wait: nat, now: nat) {
    at + wait <= now || wait == 0
  }

  /** Whether the step drops the actor's row: dead long enough, its owner gone. */
  predicate DropsActor(st: State, cfg: Config, now: nat, e: Event, a: ActorId)
    requires a in st.actors
  {
    e.Sweep? && st.actors[a].state.Dead? && st.actors[a].state.atMs + cfg.keepMs < now && st.actors[a].owner !in st.clients
  }

  /** The row is as it was, but for a queue, unless the actor dies, as of now. */
  ghost predicate RowGoes(st: State, st': State, a: ActorId, dies: bool, now: nat)
    requires a in st.actors
  {
    a in st'.actors && (Live(st'.actors[a]) <==> Live(st.actors[a]) && !dies) &&
    (Live(st.actors[a]) && !Live(st'.actors[a]) ==> st'.actors[a].state == Dead(now)) &&
    (Live(st'.actors[a]) ==> st'.actors[a] == st.actors[a].(queued := st'.actors[a].queued)) &&
    (!Live(st.actors[a]) ==> st'.actors[a] == st.actors[a])
  }

  /** Killing a list of actors: those live on it die at once exactly when their
      agent is down. */
  lemma KillAllGoes(st: State, cfg: Config, ord: Order, now: nat, ids: seq<ActorId>, reached: set<ActorId>, a: ActorId)
    requires a in st.actors
    ensures RowGoes(st, KillAll(st, cfg, ord, now, ids, reached), a, a in ids && !AgentUp(st, st.actors[a].agent), now)
  {
    hide KillAll;
    KillAllDied(st, cfg, ord, now, ids, reached);
    if a in ids && Live(st.actors[a]) {
      KillAllKills(st, cfg, ord, now, ids, reached, a);
      if AgentUp(st, st.actors[a].agent) { UpStaysLive(st, cfg, ord, now, ids, reached, a); }
    }
  }

  lemma GreetRowGoes(st: State, cfg: Config, ord: Order, now: nat, e: Event, a: ActorId)
    requires IsOrder(ord) && e.Hello? && a in st.actors
    ensures RowGoes(st, Apply(st, cfg, ord, now, e), a, Live(st.actors[a]) && Dies(st, cfg, now, e, a), now)
  {
    var s := st.(clients := st.clients[e.client := HelloRow(st, e.client, e.group, e.node, e.session)]);
    var ids := ord(Orphans(st, e.group, e.client));
    assert a in ids <==> Orphan(st, e.group, e.client, a);
    hide KillAll, IsOrder, HelloRow;
    KillAllGoes(s, cfg, ord, now, ids, e.reached, a);
  }

  lemma ReapRowGoes(st: State, cfg: Config, ord: Order, now: nat, client: ClientId, token: Option<nat>,
                    reached: set<ActorId>, a: ActorId)
    requires IsOrder(ord) && a in st.actors
    ensures RowGoes(st, Reap(st, cfg, ord, now, client, token, reached), a,
                    Reaps(st, client, token) && st.actors[a].owner == client && !AgentUp(st, st.actors[a].agent), now)
  {
    if Reaps(st, client, token) {
      var s := ReapStart(st, client, now);
      var ids := ord(OwnedBy(st, client));
      assert a in ids <==> st.actors[a].owner == client && Live(st.actors[a]);
      hide KillAll, TryPlace, IsOrder, ReapStart;
      ReapStartFrame(st, client, now);
      KillAllGoes(s, cfg, ord, now, ids, reached, a);
      var killed := KillAll(s, cfg, ord, now, ids, reached);
      TryPlaceOnlyPlaces(killed.(refs := RefsOfOthers(killed.refs, client)), cfg, ord);
    }
  }

  lemma CloseRowGoes(st: State, cfg: Config, ord: Order, now: nat, e: Event, a: ActorId)
    requires IsOrder(ord) && (e.SessionClosed? || e.ReapTimer?) && a in st.actors
    ensures RowGoes(st, Apply(st, cfg, ord, now, e), a, Live(st.actors[a]) && Dies(st, cfg, now, e, a), now)
  {
    hide Reap, IsOrder;
    if e.SessionClosed? {
      var s := st.(clients := st.clients - {e.client});
      ReapRowGoes(s, cfg, ord, now, e.client, None, e.reached, a);
    } else {
      ReapRowGoes(st, cfg, ord, now, e.client, Some(e.token), e.reached, a);
    }
  }

  lemma RegisterRowGoes(st: State, cfg: Config, ord: Order, now: nat, e: Event, a: ActorId)
    requires IsOrder(ord) && e.Register? && Quiet(st) && a in st.actors
    ensures RowGoes(st, Apply(st, cfg, ord, now, e), a, Live(st.actors[a]) && Dies(st, cfg, now, e, a), now)
  {
    hide Apply, TakeOn, Joins.Counted, IsOrder, FailLost, CallsAdopted, CallsDied, OnlyPlaced, OnlyKills;
    Stages(st, cfg, ord, now, e);
  }

  lemma CreateRowGoes(st: State, cfg: Config, ord: Order, now: nat, e: Event, a: ActorId)
    requires e.ActorCreate? && e.actor !in st.actors && a in st.actors
    ensures RowGoes(st, Apply(st, cfg, ord, now, e), a, false, now)
  {
    hide MarkDead;
    var group := ClientGroup(st, e.client);
    if Creatable(st, group, e.name, e.numGpus, e.pg, e.index) {
      var b := st.pgs[e.pg].assignment[e.index].value;
      var row := Actor(e.name, group, b.agent, b.node, b.gpuIds, e.client, Spawning, [], Some(e.pg));
      MarkDeadDied(st.(actors := st.actors[e.actor := row]), cfg, ord, now, e.actor);
    }
  }

  lemma {:induction false} GiveUpKills(st: State, cfg: Config, ord: Order, now: nat, agents: seq<AgentId>, a: ActorId)
    requires IsOrder(ord) && a in st.actors && st.actors[a].agent in agents
    ensures var s := GiveUpAll(st, cfg, ord, now, agents); a in s.actors && !Live(s.actors[a])
    decreases |agents|
  {
    hide MarkAll;
    var n := |agents| - 1;
    var s := GiveUpAll(st, cfg, ord, now, agents[..n]);
    GiveUpDied(st, cfg, ord, now, agents[..n]);
    var ids := ord(HostedBy(s, agents[n]));
    assert a in ids <==> a in HostedBy(s, agents[n]);
    hide IsOrder;
    MarkAllDied(s, cfg, ord, now, ids);
    if a in ids {
      MarkAllKills(s, cfg, ord, now, ids, a);
    } else if st.actors[a].agent in agents[..n] {
      GiveUpKills(st, cfg, ord, now, agents[..n], a);
    }
  }

  /** Before the old rows go, a sweep has ended exactly the live actors of agents
      away for the give-up time. */
  lemma GaveUpRows(st: State, cfg: Config, ord: Order, now: nat, a: ActorId)
    requires IsOrder(ord) && a in st.actors
    ensures RowGoes(st, GaveUp(st, cfg, ord, now), a, Dies(st, cfg, now, Sweep, a), now)
    ensures GaveUp(st, cfg, ord, now).actors[a].owner == st.actors[a].owner
  {
    var s := st.(pgs := TimedOut(st.pgs, cfg, now));
    var f := Forget(s, cfg, now);
    var agents := ord(GivenUp(s, cfg, now));
    assert st.actors[a].agent in agents <==> GivesUp(st, cfg, now, st.actors[a].agent);
    hide GiveUpAll, GivenUp, TimedOut;
    GiveUpDied(f, cfg, ord, now, agents);
    if st.actors[a].agent in agents { GiveUpKills(f, cfg, ord, now, agents, a); }
  }

  lemma HistoryActors(g: State, cfg: Config, now: nat, a: ActorId)
    requires a in g.actors
    ensures var st' := SweepHistory(g, cfg, now);
            (a in st'.actors <==> !OldActor(g, cfg, now, a)) && (a in st'.actors ==> st'.actors[a] == g.actors[a])
  {
    hide OldPg, OldAgent;
    if OldActor(g, cfg, now, a) {
      assert AnythingOld(g, cfg, now);
    }
  }

  lemma SweepRowGoes(st: State, cfg: Config, ord: Order, now: nat, e: Event, a: ActorId)
    requires IsOrder(ord) && e.Sweep? && a in st.actors
    ensures var st' := Apply(st, cfg, ord, now, e);
            (a in st'.actors <==> !DropsActor(st, cfg, now, e, a)) &&
            (a in st'.actors ==> RowGoes(st, st', a, Dies(st, cfg, now, e, a), now))
  {
    hide IsOrder, GiveUpAll, SweepHistory, TimedOut, Forget, GivenUp;
    var g := GaveUp(st, cfg, ord, now);
    assert SweepAll(st, cfg, ord, now) == SweepHistory(g, cfg, now);
    GaveUpClients(st, cfg, ord, now);
    hide GaveUp, SweepAll;
    GaveUpRows(st, cfg, ord, now, a);
    HistoryActors(g, cfg, now, a);
  }

  lemma GaveUpClients(st: State, cfg: Config, ord: Order, now: nat)
    requires IsOrder(ord)
    ensures GaveUp(st, cfg, ord, now).clients == st.clients
  {
    hide GiveUpAll, IsOrder, GivenUp, TimedOut;
    var s := st.(pgs := TimedOut(st.pgs, cfg, now));
    GiveUpDied(Forget(s, cfg, now), cfg, ord, now, ord(GivenUp(s, cfg, now)));
  }

  lemma MarkRowGoes(st: State, cfg: Config, ord: Order, now: nat, x: ActorId, a: ActorId)
    requires a in st.actors
    ensures RowGoes(st, MarkDead(st, cfg, ord, now, x), a, Live(st.actors[a]) && x == a, now)
  {
    hide MarkDead;
    MarkDeadDied(st, cfg, ord, now, x);
  }

  lemma KillRowGoes(st: State, cfg: Config, ord: Order, now: nat, x: ActorId, delivered: bool, a: ActorId)
    requires a in st.actors
    ensures RowGoes(st, KillActor(st, cfg, ord, now, x, delivered), a, Live(st.actors[a]) && x == a && !AgentUp(st, st.actors[a].agent), now)
  {
    hide MarkDead;
    MarkRowGoes(st, cfg, ord, now, x, a);
  }

  lemma OthersRowGoes(st: State, cfg: Config, ord: Order, now: nat, e: Event, a: ActorId)
    requires IsOrder(ord) && Sane(st, e) && !e.Sweep? && !(e.SpawnResult? && e.ok) && Quiet(st) && a in st.actors
    ensures RowGoes(st, Apply(st, cfg, ord, now, e), a, Live(st.actors[a]) && Dies(st, cfg, now, e, a), now)
  {
    hide IsOrder, CreatePg, RemovePg, CreateActor, KillActor, Greet, CloseSession, Reap, Registered, MarkDead, MakeCall,
         TakeClaim, LoseLink, CloseConn, Resolve, RowGoes, TryPlace, Resumes;
    UntouchedSteps(st, now, e);
    match e
    case PgCreate(client, pg, bundles, claim) => PgRowGoes(st, cfg, ord, now, e, a);
    case PgRemove(pg) => PgRowGoes(st, cfg, ord, now, e, a);
    case ActorCreate(client, x, name, n, pg, i, ok) => CreateRowGoes(st, cfg, ord, now, e, a);
    case ActorCall(client, x, body, ok) => CallRowGoes(st, client, x, body, ok, a, now);
    case ActorKill(x, ok) => KillRowGoes(st, cfg, ord, now, x, ok, a);
    case Hello(client, group, node, session, reached) => GreetRowGoes(st, cfg, ord, now, e, a);
    case SessionClosed(client, reached) => CloseRowGoes(st, cfg, ord, now, e, a);
    case ReapTimer(client, token, reached) => CloseRowGoes(st, cfg, ord, now, e, a);
    case Register(agent, group, node, gpus, resume, unacked, through) => RegisterRowGoes(st, cfg, ord, now, e, a);
    case SpawnResult(x, ok) => MarkRowGoes(st, cfg, ord, now, x, a);
    case ActorResult(r, ok, payload, error) =>
      ResolveIs(st, r, ok, payload, error);
      SameRowGoes(st, Resolve(st, r, ok, payload, error), a, now);
    case ActorExit(x) => MarkRowGoes(st, cfg, ord, now, x, a);
    case _ => SameRowGoes(st, Apply(st, cfg, ord, now, e), a, now);
  }

  lemma SameRowGoes(st: State, st': State, a: ActorId, now: nat)
    requires a in st.actors && st'.actors == st.actors
    ensures RowGoes(st, st', a, false, now)
  {
  }

  lemma PgRowGoes(st: State, cfg: Config, ord: Order, now: nat, e: Event, a: ActorId)
    requires (e.PgCreate? || e.PgRemove?) && a in st.actors
    ensures RowGoes(st, Apply(st, cfg, ord, now, e), a, false, now)
  {
    hide TryPlace;
    if e.PgCreate? {
      var row := Pg(ClientGroup(st, e.client), e.client, e.bundles, e.claim, NoBundles(|e.bundles|), Pending, now, None);
      TryPlaceOnlyPlaces(st.(pgs := st.pgs[e.pg := row]), cfg, ord);
    } else {
      TryPlaceOnlyPlaces(if e.pg in st.pgs then st.(pgs := st.pgs[e.pg := RemovedRow(st.pgs[e.pg], now)]) else st, cfg, ord);
    }
  }

  lemma CallRowGoes(st: State, client: ClientId, x: ActorId, body: nat, delivered: bool, a: ActorId, now: nat)
    requires a in st.actors
    ensures RowGoes(st, MakeCall(st, client, x, body, delivered), a, false, now)
  {
    hide MakeCall;
    CallFrame(st, client, x, body, delivered);
    if FateOf(st, x, delivered) in {Hold, SendFails} {
      QueueOnly(st.actors, x, Call(RefId(x, st.nextRef), body));
    }
  }

  lemma SpawnedRow(st: State, cfg: Config, ord: Order, now: nat, e: Event, a: ActorId)
    requires e.SpawnResult? && e.ok && a in st.actors
    ensures var st' := Apply(st, cfg, ord, now, e);
            a in st'.actors && !Dies(st, cfg, now, e, a) && (Live(st'.actors[a]) <==> Live(st.actors[a])) &&
            st'.actors[a] == st.actors[a].(state := if e.actor == a && st.actors[a].state == Spawning then Running
                                                    else st.actors[a].state)
  {
    hide Reaping, MarkDead;
    SpawnedIs(st, e.actor, a);
    hide Spawned;
  }

  lemma SpawnedIs(st: State, x: ActorId, a: ActorId)
    requires a in st.actors
    ensures var s := Spawned(st, x);
            a in s.actors && (Live(s.actors[a]) <==> Live(st.actors[a])) &&
            s.actors[a] == st.actors[a].(state := if x == a && st.actors[a].state == Spawning then Running else st.actors[a].state)
  {
  }

  /** In every step an actor's row is dropped exactly when it died long enough ago and
      its owner is gone, a live one is dead after it, as of now, exactly when the step
      ends it, one that stays live keeps its row but for its queue and being reported
      spawned, and a dead row stays as it is. */
  lemma ActorsExactly(st: State, cfg: Config, ord: Order, now: nat, e: Event, a: ActorId)
    requires IsOrder(ord) && Sane(st, e) && Quiet(st) && a in st.actors
    ensures var st' := Apply(st, cfg, ord, now, e);
            (a in st'.actors <==> !DropsActor(st, cfg, now, e, a)) &&
            (a in st'.actors ==>
               (Live(st'.actors[a]) <==> Live(st.actors[a]) && !Dies(st, cfg, now, e, a)) &&
               (Live(st.actors[a]) && !Live(st'.actors[a]) ==> st'.actors[a].state == Dead(now)) &&
               (Live(st'.actors[a]) ==>
                  st'.actors[a] == st.actors[a].(queued := st'.actors[a].queued,
                    state := if e == SpawnResult(a, true) && st.actors[a].state == Spawning then Running else st.actors[a].state)) &&
               (!Live(st.actors[a]) ==> st'.actors[a] == st.actors[a]))
  {
    hide Apply, IsOrder, Dies;
    if e.Sweep? {
      SweepRowGoes(st, cfg, ord, now, e, a);
    } else if e.SpawnResult? && e.ok {
      SpawnedRow(st, cfg, ord, now, e, a);
    } else {
      OthersRowGoes(st, cfg, ord, now, e, a);
    }
  }

  // ----------------------------------------------------------------- calls

  /** Each actor's queue holds calls of its own. */
  ghost predicate OwnQueues(st: State) {
    forall a, k :: a in st.actors && 0 <= k < |st.actors[a].queued| ==> st.actors[a].queued[k].ref.actor == a
  }

  /** The registration names the call as pending or as a result not yet sent. */
  predicate Reports(e: Event, r: RefId)
    requires e.Register?
  {
    r in e.unacked || exists k :: 0 <= k < |e.resume| && r in e.resume[k].pending
  }

  /** The call waits here for its agent. */
  predicate HeldHere(st: State, r: RefId) {
    r.actor in st.actors && exists k :: 0 <= k < |st.actors[r.actor].queued| && st.actors[r.actor].queued[k].ref == r
  }

  /** What a result says: the actor died exactly for an error without a payload. */
  function Told(ok: bool, payload: seq<nat>, error: bool): RefState {
    if ok || payload != [] || !error then Ready(ok, payload) else ActorDied
  }

  /** Whether the step drops the call's row: its maker reaped, or its actor's row
      dropped. */
  predicate DropsCall(st: State, cfg: Config, now: nat, e: Event, r: RefId)
    requires r in st.refs && st.refs[r].actor in st.actors
  {
    Reaping(st, cfg, e, st.refs[r].owner) || DropsActor(st, cfg, now, e, st.refs[r].actor)
  }

  /** What a call is after the step: a pending one ends by its result, with its
      actor, or when its agent registers and neither side holds it. */
  ghost function CallAfter(st: State, cfg: Config, now: nat, e: Event, r: RefId): RefState
    requires r in st.refs && st.refs[r].actor in st.actors
  {
    var a := st.refs[r].actor;
    if st.refs[r].state != Waiting then st.refs[r].state
    else if e.ActorResult? && e.ref == r then Told(e.ok, e.payload, e.error)
    else if Live(st.actors[a]) && Dies(st, cfg, now, e, a) then ActorDied
    else if e.Register? && st.actors[a].agent == e.agent && !Reports(e, r) && !HeldHere(st, r) then ActorDied
    else Waiting
  }

  lemma {:induction false} PendingsMean(resume: seq<Resumed>, r: RefId)
    ensures r in Pendings(resume) <==> exists k :: 0 <= k < |resume| && r in resume[k].pending
    decreases |resume|
  {
    if resume != [] {
      var n := |resume| - 1;
      PendingsMean(resume[..n], r);
      if r in Pendings(resume[..n]) {
        var k :| 0 <= k < n && r in resume[..n][k].pending;
        assert r in resume[k].pending;
      }
      if k :| 0 <= k < |resume| && r in resume[k].pending {
        if k < n { assert r in resume[..n][k].pending; }
      }
    }
  }

  lemma ReportedMeans(e: Event, r: RefId)
    requires e.Register?
    ensures r in Reported(e.resume, e.unacked) <==> Reports(e, r)
  {
    PendingsMean(e.resume, r);
  }

  /** A pending call ends with its actor, and no call is otherwise touched. */
  ghost predicate EndsWith(st: State, st': State, r: RefId)
    requires r in st.refs && st.refs[r].actor in st.actors
  {
    var a := st.refs[r].actor;
    a in st'.actors && r in st'.refs &&
    st'.refs[r] == st.refs[r].(state := if st.refs[r].state == Waiting && Live(st.actors[a]) && !Live(st'.actors[a]) then ActorDied
                                        else st.refs[r].state)
  }

  lemma DiedEnds(st: State, s: State, st': State, ids: set<ActorId>, now: nat, r: RefId)
    requires r in st.refs && st.refs[r].actor in st.actors && Died(s, st', ids, now)
    requires r in s.refs && s.refs[r] == st.refs[r] && st.refs[r].actor in s.actors &&
             Live(s.actors[st.refs[r].actor]) == Live(st.actors[st.refs[r].actor])
    ensures EndsWith(st, st', r)
  {
  }

  lemma SameEnds(st: State, st': State, r: RefId)
    requires r in st.refs && st.refs[r].actor in st.actors && r in st'.refs && st'.refs[r] == st.refs[r]
    requires st.refs[r].actor in st'.actors && Live(st'.actors[st.refs[r].actor]) == Live(st.actors[st.refs[r].actor])
    ensures EndsWith(st, st', r)
  {
  }

  lemma PgEnds(st: State, cfg: Config, ord: Order, now: nat, e: Event, r: RefId)
    requires (e.PgCreate? || e.PgRemove?) && r in st.refs && st.refs[r].actor in st.actors
    ensures EndsWith(st, Apply(st, cfg, ord, now, e), r)
  {
    hide TryPlace;
    if e.PgCreate? {
      var row := Pg(ClientGroup(st, e.client), e.client, e.bundles, e.claim, NoBundles(|e.bundles|), Pending, now, None);
      TryPlaceOnlyPlaces(st.(pgs := st.pgs[e.pg := row]), cfg, ord);
    } else {
      TryPlaceOnlyPlaces(if e.pg in st.pgs then st.(pgs := st.pgs[e.pg := RemovedRow(st.pgs[e.pg], now)]) else st, cfg, ord);
    }
  }

  lemma CreateEnds(st: State, cfg: Config, ord: Order, now: nat, e: Event, r: RefId)
    requires e.ActorCreate? && e.actor !in st.actors && r in st.refs && st.refs[r].actor in st.actors
    ensures EndsWith(st, Apply(st, cfg, ord, now, e), r)
  {
    hide MarkDead;
    var group := ClientGroup(st, e.client);
    if Creatable(st, group, e.name, e.numGpus, e.pg, e.index) {
      var b := st.pgs[e.pg].assignment[e.index].value;
      var row := Actor(e.name, group, b.agent, b.node, b.gpuIds, e.client, Spawning, [], Some(e.pg));
      MarkDeadDied(st.(actors := st.actors[e.actor := row]), cfg, ord, now, e.actor);
    }
  }

  lemma GreetEnds(st: State, cfg: Config, ord: Order, now: nat, e: Event, r: RefId)
    requires e.Hello? && r in st.refs && st.refs[r].actor in st.actors
    ensures EndsWith(st, Apply(st, cfg, ord, now, e), r)
  {
    hide KillAll, HelloRow, Driven, Died;
    var s := st.(clients := st.clients[e.client := HelloRow(st, e.client, e.group, e.node, e.session)]);
    var ids := ord(Orphans(st, e.group, e.client));
    KillAllDied(s, cfg, ord, now, ids, e.reached);
    DiedEnds(st, s, KillAll(s, cfg, ord, now, ids, e.reached), SetOf(ids), now, r);
  }

  /** A reap drops its client's calls, and the rest end with their actors. */
  lemma ReapEnds(st: State, cfg: Config, ord: Order, now: nat, client: ClientId, token: Option<nat>, reached: set<ActorId>,
                 r: RefId)
    requires r in st.refs && st.refs[r].actor in st.actors
    ensures var st' := Reap(st, cfg, ord, now, client, token, reached);
            if Reaps(st, client, token) && st.refs[r].owner == client then r !in st'.refs else EndsWith(st, st', r)
  {
    if Reaps(st, client, token) {
      var s := ReapStart(st, client, now);
      var ids := ord(OwnedBy(st, client));
      hide KillAll, TryPlace, ReapStart;
      ReapStartFrame(st, client, now);
      ReapStartCalls(st, client, now);
      KillAllDied(s, cfg, ord, now, ids, reached);
      var killed := KillAll(s, cfg, ord, now, ids, reached);
      DiedEnds(st, s, killed, SetOf(ids), now, r);
      TryPlaceOnlyPlaces(killed.(refs := RefsOfOthers(killed.refs, client)), cfg, ord);
    }
  }

  lemma ReapStartCalls(st: State, client: ClientId, now: nat)
    ensures ReapStart(st, client, now).refs == st.refs
  {
  }

  lemma CloseEnds(st: State, cfg: Config, ord: Order, now: nat, e: Event, r: RefId)
    requires (e.SessionClosed? || e.ReapTimer?) && r in st.refs && st.refs[r].actor in st.actors
    ensures var st' := Apply(st, cfg, ord, now, e);
            if Reaping(st, cfg, e, st.refs[r].owner) then r !in st'.refs else EndsWith(st, st', r)
  {
    hide Reap;
    if e.SessionClosed? {
      ReapEnds(st.(clients := st.clients - {e.client}), cfg, ord, now, e.client, None, e.reached, r);
    } else {
      ReapEnds(st, cfg, ord, now, e.client, Some(e.token), e.reached, r);
    }
  }

  lemma CallEnds(st: State, client: ClientId, x: ActorId, body: nat, delivered: bool, r: RefId)
    requires RefRows(st) && r in st.refs
    ensures EndsWith(st, MakeCall(st, client, x, body, delivered), r)
  {
    hide MakeCall;
    CallFrame(st, client, x, body, delivered);
    if FateOf(st, x, delivered) in {Hold, SendFails} {
      QueueOnly(st.actors, x, Call(RefId(x, st.nextRef), body));
    }
  }

  lemma QuietEnds(st: State, cfg: Config, ord: Order, now: nat, e: Event, r: RefId)
    requires Sane(st, e) && RefRows(st) && r in st.refs
    requires !e.Sweep? && !e.Register? && !e.ActorResult? && !e.SessionClosed? && !e.ReapTimer?
    ensures EndsWith(st, Apply(st, cfg, ord, now, e), r)
  {
    hide CreatePg, RemovePg, CreateActor, KillActor, Greet, MarkDead, MakeCall, TakeClaim, LoseLink, CloseConn, EndsWith, Died;
    UntouchedSteps(st, now, e);
    match e
    case PgCreate(client, pg, bundles, claim) => PgEnds(st, cfg, ord, now, e, r);
    case PgRemove(pg) => PgEnds(st, cfg, ord, now, e, r);
    case ActorCreate(client, x, name, n, pg, i, ok) => CreateEnds(st, cfg, ord, now, e, r);
    case ActorCall(client, x, body, ok) => CallEnds(st, client, x, body, ok, r);
    case ActorKill(x, ok) =>
      KillActorDied(st, cfg, ord, now, x, ok);
      DiedEnds(st, st, KillActor(st, cfg, ord, now, x, ok), {x}, now, r);
    case Hello(client, group, node, session, reached) => GreetEnds(st, cfg, ord, now, e, r);
    case SpawnResult(x, ok) =>
      MarkDeadDied(st, cfg, ord, now, x);
      DiedEnds(st, st, MarkDead(st, cfg, ord, now, x), {x}, now, r);
      SameEnds(st, Spawned(st, x), r);
    case ActorExit(x) =>
      MarkDeadDied(st, cfg, ord, now, x);
      DiedEnds(st, st, MarkDead(st, cfg, ord, now, x), {x}, now, r);
    case _ => SameEnds(st, Apply(st, cfg, ord, now, e), r);
  }

  lemma OthersEnd(st: State, cfg: Config, ord: Order, now: nat, e: Event, r: RefId)
    requires Sane(st, e) && RefRows(st) && r in st.refs
    requires !e.Sweep? && !e.Register? && !e.ActorResult?
    ensures var st' := Apply(st, cfg, ord, now, e);
            if Reaping(st, cfg, e, st.refs[r].owner) then r !in st'.refs else EndsWith(st, st', r)
  {
    hide Apply, EndsWith, Sane;
    if e.SessionClosed? || e.ReapTimer? {
      CloseEnds(st, cfg, ord, now, e, r);
    } else {
      QuietEnds(st, cfg, ord, now, e, r);
    }
  }

  /** A sweep drops the calls of the actors it drops, and the rest end with theirs. */
  lemma SweepEnds(st: State, cfg: Config, ord: Order, now: nat, r: RefId)
    requires IsOrder(ord) && RefRows(st) && r in st.refs
    ensures var st' := SweepAll(st, cfg, ord, now);
            (r in st'.refs <==> st.refs[r].actor in st'.actors) && (r in st'.refs ==> EndsWith(st, st', r))
  {
    hide GiveUpAll, IsOrder, GivenUp, TimedOut, Died, OldPg, OldAgent, AnythingOld;
    var s := st.(pgs := TimedOut(st.pgs, cfg, now));
    var f := Forget(s, cfg, now);
    var agents := ord(GivenUp(s, cfg, now));
    GiveUpDied(f, cfg, ord, now, agents);
    DiedEnds(st, f, GiveUpAll(f, cfg, ord, now, agents), OnAgents(f, SetOf(agents)), now, r);
  }

  /** A registration ends a call with its actor, or when neither side holds it. */
  lemma RegisterEnds(st: State, cfg: Config, ord: Order, now: nat, e: Event, r: RefId)
    requires IsOrder(ord) && e.Register? && RefRows(st) && OwnQueues(st) && r in st.refs
    ensures var st' := Apply(st, cfg, ord, now, e); var a := st.refs[r].actor;
            a in st'.actors && r in st'.refs &&
            st'.refs[r] == st.refs[r].(state :=
              if st.refs[r].state == Waiting && ((Live(st.actors[a]) && !Live(st'.actors[a])) ||
                   (st.actors[a].agent == e.agent && r !in Reported(e.resume, e.unacked) && !HeldHere(st, r)))
              then ActorDied else st.refs[r].state)
  {
    hide Apply, TakeOn, Joins.Counted, IsOrder, OnlyPlaced, OnlyKills, Reported;
    Stages(st, cfg, ord, now, e);
    var s := TakeOn(st, e.agent, e.group, e.node, e.gpus, e.resume, e.unacked);
    var c := Joins.Counted(st, cfg, ord, now, e.agent, e.group, e.node, e.gpus, e.resume, e.unacked);
    DiedEnds(st, s, c, Missing(s, e.agent, e.resume), now, r);
    if st.actors[r.actor].agent == e.agent && Live(st.actors[r.actor]) == Live(c.actors[r.actor]) {
      HeldStays(st, s, c, e.agent, e.resume, now, r);
    }
  }

  /** A call still pending once the omitted actors are dead is queued then exactly if
      it was held here. */
  lemma HeldStays(st: State, s: State, c: State, agent: AgentId, resume: seq<Resumed>, now: nat, r: RefId)
    requires RowsAfterTakeOn(st, s, agent, resume) && Died(s, c, Missing(s, agent, resume), now) && OwnQueues(st)
    requires r in st.refs && st.refs[r].actor == r.actor && r.actor in st.actors && st.actors[r.actor].agent == agent
    requires Live(st.actors[r.actor]) == Live(c.actors[r.actor])
    ensures QueuedOn(c, agent, r) <==> HeldHere(st, r)
  {
    hide CallsDied, DiedWithActor, OnlyPlaced, OnlyKills;
    assert c.actors[r.actor] == st.actors[r.actor];
    if QueuedOn(c, agent, r) {
      var a, k :| a in c.actors && c.actors[a].agent == agent && 0 <= k < |c.actors[a].queued| && c.actors[a].queued[k].ref == r;
      assert c.actors[a].queued == s.actors[a].queued;
      assert a in st.actors && st.actors[a].queued[k].ref.actor == a;
    }
  }

  /** What the step leaves of a call. */
  ghost predicate CallGoes(st: State, st': State, cfg: Config, now: nat, e: Event, r: RefId)
    requires r in st.refs && st.refs[r].actor in st.actors
  {
    (r in st'.refs <==> !DropsCall(st, cfg, now, e, r)) &&
    (r in st'.refs ==> st'.refs[r] == st.refs[r].(state := CallAfter(st, cfg, now, e, r)))
  }

  lemma SweepCall(st: State, cfg: Config, ord: Order, now: nat, r: RefId)
    requires IsOrder(ord) && RowsHold(st) && r in st.refs
    ensures CallGoes(st, SweepAll(st, cfg, ord, now), cfg, now, Sweep, r)
  {
    hide IsOrder, Dies, SweepAll;
    SweepEnds(st, cfg, ord, now, r);
    SweepRowGoes(st, cfg, ord, now, Sweep, st.refs[r].actor);
  }

  lemma RegisterCall(st: State, cfg: Config, ord: Order, now: nat, e: Event, r: RefId)
    requires IsOrder(ord) && e.Register? && RowsHold(st) && OwnQueues(st) && r in st.refs
    ensures CallGoes(st, Apply(st, cfg, ord, now, e), cfg, now, e, r)
  {
    hide IsOrder, Reports, HeldHere, Dies, Reported, Apply, OwnQueues;
    ActorsExactly(st, cfg, ord, now, e, st.refs[r].actor);
    ReportedMeans(e, r);
    RegisterEnds(st, cfg, ord, now, e, r);
  }

  lemma ResultCall(st: State, cfg: Config, now: nat, e: Event, r: RefId)
    requires e.ActorResult? && RefRows(st) && r in st.refs
    ensures CallGoes(st, Resolve(st, e.ref, e.ok, e.payload, e.error), cfg, now, e, r)
  {
  }

  lemma OtherCall(st: State, cfg: Config, ord: Order, now: nat, e: Event, r: RefId)
    requires IsOrder(ord) && Sane(st, e) && RowsHold(st) && r in st.refs && !e.Sweep? && !e.Register? && !e.ActorResult?
    ensures CallGoes(st, Apply(st, cfg, ord, now, e), cfg, now, e, r)
  {
    hide IsOrder, Dies, Apply;
    ActorsExactly(st, cfg, ord, now, e, st.refs[r].actor);
    OthersEnd(st, cfg, ord, now, e, r);
  }

  /** In every step a call's row is dropped exactly when its maker is reaped or its
      actor's row dropped, and otherwise is as `CallAfter` says. */
  lemma CallsExactly(st: State, cfg: Config, ord: Order, now: nat, e: Event, r: RefId)
    requires IsOrder(ord) && Sane(st, e) && RowsHold(st) && OwnQueues(st) && r in st.refs
    ensures var st' := Apply(st, cfg, ord, now, e);
            (r in st'.refs <==> !DropsCall(st, cfg, now, e, r)) &&
            (r in st'.refs ==> st'.refs[r] == st.refs[r].(state := CallAfter(st, cfg, now, e, r)))
  {
    hide IsOrder, DropsCall, CallAfter, SweepAll, Registered, Resolve, OwnQueues;
    if e.Sweep? {
      SweepCall(st, cfg, ord, now, r);
    } else if e.Register? {
      RegisterCall(st, cfg, ord, now, e, r);
    } else if e.ActorResult? {
      ResultCall(st, cfg, now, e, r);
    } else {
      hide Apply;
      OtherCall(st, cfg, ord, now, e, r);
    }
  }
}
