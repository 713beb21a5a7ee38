/** Who dies and which calls stop waiting in each step, and why: what the other
    end of an agent's link needs to know about the head. */
module Effects {
  import opened Basics
  import opened Topology
  import opened Tables
  import opened Placement
  import opened Head
  import opened Deaths
  import opened Rows
  import opened Calls

  /** The actors a step asks to be killed. */
  function KillsOf(st: State, cfg: Config, e: Event): set<ActorId> {
    match e
    case ActorKill(a, _) => if a in st.actors then {a} else {}
    case Hello(client, group, _, session, _) =>
      if session && !Driven(st, group, client) then Orphans(st, group, client) else {}
    case SessionClosed(client, _) => if cfg.graceMs == 0 then OwnedBy(st, client) else {}
    case ReapTimer(client, token, _) => if Reaps(st, client, Some(token)) then OwnedBy(st, client) else {}
    case _ => {}
  }

  /** The actors a step may declare dead: those it kills, those reported dead,
      and those of agents given up on. */
  function DeadlyFor(st: State, cfg: Config, now: nat, e: Event): set<ActorId> {
    match e
    case SpawnResult(a, ok) => if ok then {} else {a}
    case ActorExit(a) => {a}
    case Sweep => OnAgents(st, GivenUp(st, cfg, now))
    case _ => KillsOf(st, cfg, e)
  }

  function CallsOf(st: State, client: ClientId): set<RefId> {
    set r | r in st.refs && st.refs[r].owner == client
  }

  /** The calls a step drops with their reaped maker. */
  function ReapedBy(st: State, cfg: Config, e: Event): set<RefId> {
    match e
    case SessionClosed(client, _) => if cfg.graceMs == 0 then CallsOf(st, client) else {}
    case ReapTimer(client, token, _) => if Reaps(st, client, Some(token)) then CallsOf(st, client) else {}
    case _ => {}
  }

  /** The calls a step may stop waiting for, other than by a death. */
  function EndedBy(st: State, cfg: Config, e: Event): set<RefId> {
    if e.ActorResult? then {e.ref} else ReapedBy(st, cfg, e)
  }

  // ------------------------------------------------------------ tame steps

  predicate WaitsFor(st: State, r: RefId) {
    r in st.refs && st.refs[r].state == Waiting
  }

  /** A call pending on a live actor. */
  predicate Owed(st: State, r: RefId) {
    WaitsFor(st, r) && LiveHere(st, r.actor)
  }

  ghost predicate RowsTame(m: map<ActorId, Actor>, m': map<ActorId, Actor>, dead: set<ActorId>) {
    (forall a :: a in m' ==> a in m && SameActor(m[a], m'[a]) && (Live(m'[a]) ==> Live(m[a]))) &&
    (forall a :: a in m && Live(m[a]) && a !in dead ==> a in m' && Live(m'[a]))
  }

  predicate LiveHere(st: State, a: ActorId) {
    a in st.actors && Live(st.actors[a])
  }

  ghost predicate CallsTame(st: State, st': State, ended: set<RefId>) {
    (forall r :: r in st'.refs ==> r in st.refs) &&
    (forall r :: Owed(st, r) && r !in ended && LiveHere(st', r.actor) ==> WaitsFor(st', r))
  }

  ghost predicate OnlyKillsAdded(sent: seq<Sent>, sent': seq<Sent>) {
    |sent| <= |sent'| && sent'[..|sent|] == sent && forall i :: |sent| <= i < |sent'| ==> sent'[i].msg.Kill?
  }

  /** A step that makes no actor and no call: among live actors only those in
      `dead` may die, a call owed stops waiting only with its actor or in `ended`,
      and the frames it writes are kills. */
  ghost predicate Tame(st: State, st': State, dead: set<ActorId>, ended: set<RefId>) {
    RowsTame(st.actors, st'.actors, dead) && CallsTame(st, st', ended) && OnlyKillsAdded(st.sent, st'.sent) &&
    QueuesKept(st.actors, st'.actors) && st'.nextRef == st.nextRef && st'.accepted == st.accepted && st'.nextSeq == st.nextSeq
  }

  lemma TameTrans(s0: State, s1: State, s2: State, d: set<ActorId>, e: set<ActorId>, x: set<RefId>, y: set<RefId>)
    requires Tame(s0, s1, d, x) && Tame(s1, s2, e, y)
    ensures Tame(s0, s2, d + e, x + y)
  {
    assert s2.sent[..|s1.sent|][..|s0.sent|] == s2.sent[..|s0.sent|];
    forall i | |s0.sent| <= i < |s2.sent| ensures s2.sent[i].msg.Kill? {
      if i < |s1.sent| {
        assert s2.sent[i] == s2.sent[..|s1.sent|][i];
      }
    }
  }

  lemma TameMore(st: State, st': State, d: set<ActorId>, e: set<ActorId>, x: set<RefId>, y: set<RefId>)
    requires Tame(st, st', d, x) && d <= e && x <= y
    ensures Tame(st, st', e, y)
  {
  }

  /** Steps that leave rows, calls and frames alone. */
  lemma TameSame(st: State, st': State)
    requires st'.actors == st.actors && st'.refs == st.refs && st'.sent == st.sent && st'.nextRef == st.nextRef
    requires st'.accepted == st.accepted && st'.nextSeq == st.nextSeq
    ensures Tame(st, st', {}, {})
  {
  }

  lemma DiedTame(st: State, st': State, ids: set<ActorId>, now: nat)
    requires Died(st, st', ids, now) && RefRows(st)
    ensures Tame(st, st', ids, {}) && st'.agents == st.agents && RefRows(st')
  {
    forall i | |st.sent| <= i < |st'.sent| ensures st'.sent[i].msg.Kill? {
    }
    assert forall r :: r in st.refs ==> st'.refs[r].actor == st.refs[r].actor;
  }

  lemma TryPlaceTame(st: State, cfg: Config, ord: Order)
    ensures Tame(st, TryPlace(st, cfg, ord), {}, {}) && TryPlace(st, cfg, ord).agents == st.agents
  {
    hide TryPlace;
    TryPlaceOnlyPlaces(st, cfg, ord);
    TameSame(st, TryPlace(st, cfg, ord));
  }

  lemma MarkDeadTame(st: State, cfg: Config, ord: Order, now: nat, a: ActorId)
    requires RefRows(st)
    ensures var st' := MarkDead(st, cfg, ord, now, a); Tame(st, st', {a}, {}) && st'.agents == st.agents
  {
    hide MarkDead, Died, Tame;
    MarkDeadDied(st, cfg, ord, now, a);
    DiedTame(st, MarkDead(st, cfg, ord, now, a), {a}, now);
  }

  lemma GreetTame(st: State, cfg: Config, ord: Order, now: nat, client: ClientId, group: Group, node: NodeId,
                  session: bool, reached: set<ActorId>)
    requires RefRows(st) && IsOrder(ord)
    ensures var st' := Greet(st, cfg, ord, now, client, group, node, session, reached);
            Tame(st, st', KillsOf(st, cfg, Hello(client, group, node, session, reached)), {}) && st'.agents == st.agents
  {
    hide KillAll, Died, Tame, HelloRow, Driven;
    TameSame(st, st);
    var s := st.(clients := st.clients[client := HelloRow(st, client, group, node, session)]);
    TameSame(st, s);
    var ids := ord(Orphans(st, group, client));
    assert SetOf(ids) == Orphans(st, group, client);
    KillAllDied(s, cfg, ord, now, ids, reached);
    var st' := KillAll(s, cfg, ord, now, ids, reached);
    DiedTame(s, st', SetOf(ids), now);
    TameTrans(st, s, st', {}, SetOf(ids), {}, {});
    TameMore(st, st', {} + SetOf(ids), Orphans(st, group, client), {} + {}, {});
  }

  lemma DropTame(st: State, client: ClientId)
    ensures Tame(st, st.(refs := RefsOfOthers(st.refs, client)), {}, CallsOf(st, client))
  {
  }

  /** A reap that goes ahead: the client's live actors and its calls. */
  lemma ReapTame(st: State, cfg: Config, ord: Order, now: nat, client: ClientId, token: Option<nat>, reached: set<ActorId>)
    requires RowsHold(st) && IsOrder(ord)
    ensures var st' := Reap(st, cfg, ord, now, client, token, reached);
            st'.agents == st.agents &&
            (if Reaps(st, client, token) then Tame(st, st', OwnedBy(st, client), CallsOf(st, client)) else Tame(st, st', {}, {}))
  {
    TameSame(st, st);
    TameSame(st, st.(reapPending := st.reapPending - {client}));
    if Reaps(st, client, token) {
      var s := ReapStart(st, client, now);
      TameSame(st, s);
      assert s.agents == st.agents && RefRows(s);
      hide KillAll, TryPlace, ReapStart, Died, Tame, RowsHold, RefRows;
      var ids := ord(OwnedBy(st, client));
      assert SetOf(ids) == OwnedBy(st, client);
      KillAllDied(s, cfg, ord, now, ids, reached);
      var killed := KillAll(s, cfg, ord, now, ids, reached);
      DiedTame(s, killed, SetOf(ids), now);
      TameTrans(st, s, killed, {}, SetOf(ids), {}, {});
      var t := killed.(refs := RefsOfOthers(killed.refs, client));
      DropTame(killed, client);
      DiedCalls(st, s, killed, SetOf(ids), now, client);
      TameTrans(st, killed, t, {} + SetOf(ids), {}, {} + {}, CallsOf(killed, client));
      TryPlaceTame(t, cfg, ord);
      TameTrans(st, t, TryPlace(t, cfg, ord), {} + SetOf(ids) + {}, {}, {} + {} + CallsOf(killed, client), {});
      assert {} + SetOf(ids) + {} + {} == OwnedBy(st, client);
      assert {} + {} + CallsOf(killed, client) + {} == CallsOf(st, client);
    }
  }

  lemma DiedCalls(st: State, s: State, killed: State, ids: set<ActorId>, now: nat, client: ClientId)
    requires Died(s, killed, ids, now) && s.refs == st.refs
    ensures CallsOf(killed, client) == CallsOf(st, client)
  {
    assert forall r :: r in s.refs ==> killed.refs[r].owner == s.refs[r].owner;
  }

  lemma CloseSessionTame(st: State, cfg: Config, ord: Order, now: nat, client: ClientId, reached: set<ActorId>)
    requires RowsHold(st) && IsOrder(ord)
    ensures var st' := CloseSession(st, cfg, ord, now, client, reached);
            st'.agents == st.agents &&
            (if cfg.graceMs == 0 then Tame(st, st', OwnedBy(st, client), CallsOf(st, client)) else Tame(st, st', {}, {}))
  {
    var s := st.(clients := st.clients - {client});
    assert RowsHold(s);
    TameSame(st, s);
    hide Reap, RowsHold, Tame;
    ReapTame(s, cfg, ord, now, client, None, reached);
    var st' := CloseSession(st, cfg, ord, now, client, reached);
    if cfg.graceMs == 0 {
      assert Reaps(s, client, None);
      assert OwnedBy(s, client) == OwnedBy(st, client) && CallsOf(s, client) == CallsOf(st, client);
      TameTrans(st, s, st', {}, OwnedBy(st, client), {}, CallsOf(st, client));
      assert {} + OwnedBy(st, client) == OwnedBy(st, client) && {} + CallsOf(st, client) == CallsOf(st, client);
    } else {
      TameSame(st, st');
    }
  }

  // ---------------------------------------------------------------- sweep

  /** Rows of agents that are up are left as they are. */
  ghost predicate UpKept(st: State, st': State) {
    (forall g :: AgentUp(st, g) ==> g in st'.agents && st'.agents[g] == st.agents[g]) &&
    (forall g :: AgentUp(st', g) ==> AgentUp(st, g))
  }

  /** An agent that is up has not been lost. */
  ghost predicate UpNotLost(st: State) {
    forall g :: AgentUp(st, g) ==> st.agents[g].lostAt.None?
  }

  lemma HistoryTame(st: State, cfg: Config, now: nat)
    requires RowsHold(st) && UpNotLost(st)
    ensures var st' := SweepHistory(st, cfg, now); Tame(st, st', {}, {}) && UpKept(st, st') && UpNotLost(st')
  {
    hide Tame;
    TameSame(st, st);
    if AnythingOld(st, cfg, now) {
      HistoryDrops(st, cfg, now);
    }
  }

  lemma HistoryDrops(st: State, cfg: Config, now: nat)
    requires RowsHold(st) && AnythingOld(st, cfg, now)
    ensures Tame(st, SweepHistory(st, cfg, now), {}, {})
  {
    hide OldPg, OldAgent, AnythingOld;
  }

  lemma ForgetTame(st: State, cfg: Config, now: nat)
    requires UpNotLost(st)
    ensures var s := st.(pgs := TimedOut(st.pgs, cfg, now)); var f := Forget(s, cfg, now);
            Tame(st, f, {}, {}) && UpKept(st, f) && UpNotLost(f) && GivenUp(s, cfg, now) == GivenUp(st, cfg, now) &&
            f.actors == st.actors && f.refs == st.refs && f.nextRef == st.nextRef && f.agents.Keys == st.agents.Keys
  {
    hide TimedOut;
    var s := st.(pgs := TimedOut(st.pgs, cfg, now));
    TameSame(st, Forget(s, cfg, now));
  }

  lemma SweepTame(st: State, cfg: Config, ord: Order, now: nat)
    requires RowsHold(st) && IsOrder(ord) && UpNotLost(st)
    ensures var st' := SweepAll(st, cfg, ord, now);
            Tame(st, st', OnAgents(st, GivenUp(st, cfg, now)), {}) && UpKept(st, st') && UpNotLost(st')
  {
    hide TimedOut, Forget, GivenUp, GiveUpAll, SweepHistory, Died, Tame, Onward;
    var s := st.(pgs := TimedOut(st.pgs, cfg, now));
    var f := Forget(s, cfg, now);
    ForgetTame(st, cfg, now);
    assert RowsHold(f);
    var agents := ord(GivenUp(s, cfg, now));
    assert SetOf(agents) == GivenUp(st, cfg, now);
    hide IsOrder, RowsHold, UpKept, UpNotLost, RefRows;
    GiveUpDied(f, cfg, ord, now, agents);
    var g := GiveUpAll(f, cfg, ord, now, agents);
    var d := OnAgents(f, SetOf(agents));
    assert d == OnAgents(st, GivenUp(st, cfg, now));
    DiedOnward(f, g, d, now);
    RowsGiveRefRows(f);
    DiedTame(f, g, d, now);
    TameTrans(st, f, g, {}, d, {}, {});
    SameUp(f, g);
    HistoryTame(g, cfg, now);
    TameTrans(st, g, SweepHistory(g, cfg, now), {} + d, {}, {} + {}, {});
    assert {} + d + {} == d;
    TameMore(st, SweepHistory(g, cfg, now), {} + d + {}, d, {} + {} + {}, {});
    UpKeptTrans(st, f, SweepHistory(g, cfg, now), g);
  }

  lemma RowsGiveRefRows(st: State)
    requires RowsHold(st)
    ensures RefRows(st)
  {
  }

  lemma SameUp(f: State, g: State)
    requires g.agents == f.agents && UpNotLost(f)
    ensures UpNotLost(g)
  {
  }

  lemma UpKeptTrans(st: State, f: State, h: State, g: State)
    requires UpKept(st, f) && g.agents == f.agents && UpKept(g, h)
    ensures UpKept(st, h)
  {
  }

  // ------------------------------------------------------------- any step

  lemma ResolveTame(st: State, r: RefId, ok: bool, payload: seq<nat>, error: bool)
    ensures var s := Resolve(st, r, ok, payload, error); Tame(st, s, {}, {r}) && s.agents == st.agents
  {
    hide Tame;
    if r in st.refs && st.refs[r].state == Waiting {
      RefTame(st, r, st.refs[r].(state := if !ok && payload == [] && error then ActorDied else Ready(ok, payload)));
    } else {
      TameSame(st, st);
      TameMore(st, st, {}, {}, {}, {r});
    }
  }

  lemma RefTame(st: State, r: RefId, row: Ref)
    requires r in st.refs
    ensures Tame(st, st.(refs := st.refs[r := row]), {}, {r})
  {
  }

  lemma SpawnedTame(st: State, a: ActorId)
    ensures Tame(st, Spawned(st, a), {}, {}) && Spawned(st, a).agents == st.agents
  {
    hide Tame;
    if a in st.actors && st.actors[a].state == Spawning {
      RowTame(st, a, st.actors[a].(state := Running));
    } else {
      TameSame(st, st);
    }
  }

  lemma RowTame(st: State, a: ActorId, row: Actor)
    requires a in st.actors && SameActor(st.actors[a], row) && row.queued == st.actors[a].queued
    requires Live(st.actors[a]) && Live(row)
    ensures Tame(st, st.(actors := st.actors[a := row]), {}, {})
  {
  }

  lemma LoseLinkTame(st: State, now: nat, agent: AgentId, conn: nat)
    requires UpNotLost(st)
    ensures var s := LoseLink(st, now, agent, conn);
            Tame(st, s, {}, {}) && UpNotLost(s) &&
            (forall g :: AgentUp(st, g) && !(g == agent && st.agents[g].seqNo == conn) ==> g in s.agents && s.agents[g] == st.agents[g]) &&
            (forall g :: AgentUp(s, g) ==> AgentUp(st, g))
  {
    hide Tame;
    TameSame(st, LoseLink(st, now, agent, conn));
    LoseLinkIs(st, now, agent, conn);
  }

  /** Rows of agents up are kept by every step but a registration and the loss of
      that very connection. */
  ghost predicate UpKeptBy(st: State, st': State, e: Event) {
    UpNotLost(st') && (forall g :: AgentUp(st', g) ==> AgentUp(st, g)) &&
    forall g :: AgentUp(st, g) && !(e.LinkLost? && e.agent == g && e.conn == st.agents[g].seqNo) ==>
      g in st'.agents && st'.agents[g] == st.agents[g]
  }

  lemma SameAgents(st: State, st': State, e: Event)
    requires UpNotLost(st) && (st'.agents == st.agents || (UpKept(st, st') && UpNotLost(st')))
    ensures UpKeptBy(st, st', e)
  {
  }

  lemma SmallTame(st: State, cfg: Config, ord: Order, now: nat, e: Event)
    requires RowsHold(st) && UpNotLost(st)
    requires e.PgCreate? || e.PgRemove? || e.ClaimName? || e.ConnClosed? || e.FabricsDerived?
    ensures var st' := Apply(st, cfg, ord, now, e); Tame(st, st', {}, {}) && st'.agents == st.agents
  {
    hide TryPlace, TakeClaim, CloseConn, Tame;
    UntouchedSteps(st, now, e);
    match e
    case PgCreate(client, pg, bundles, claim) =>
      var row := Pg(ClientGroup(st, client), client, bundles, claim, NoBundles(|bundles|), Pending, now, None);
      PlacedTame(st, cfg, ord, st.pgs[pg := row]);
    case PgRemove(pg) =>
      PlacedTame(st, cfg, ord, if pg in st.pgs then st.pgs[pg := RemovedRow(st.pgs[pg], now)] else st.pgs);
    case ClaimName(client, name, shape, net) => TameSame(st, TakeClaim(st, client, name, shape, net));
    case ConnClosed(client) => TameSame(st, CloseConn(st, client));
    case FabricsDerived(islands, tagged) => TameSame(st, st.(islands := islands, tagged := tagged));
  }

  lemma PlacedTame(st: State, cfg: Config, ord: Order, pgs: map<PgId, Pg>)
    ensures var st' := TryPlace(st.(pgs := pgs), cfg, ord); Tame(st, st', {}, {}) && st'.agents == st.agents
  {
    hide TryPlace, Tame;
    TryPlaceOnlyPlaces(st.(pgs := pgs), cfg, ord);
    TameSame(st, TryPlace(st.(pgs := pgs), cfg, ord));
  }

  /** Every step but three is tame. An actor that dies was killed, reported dead
      or on an agent given up on. A call that stops waiting was resolved by its
      agent, or its actor died, or its maker was reaped. */
  lemma KillActorTame(st: State, cfg: Config, ord: Order, now: nat, a: ActorId, delivered: bool)
    requires RefRows(st)
    ensures var st' := KillActor(st, cfg, ord, now, a, delivered);
            Tame(st, st', if a in st.actors then {a} else {}, {}) && st'.agents == st.agents
  {
    hide MarkDead, Died, Tame;
    if a in st.actors {
      KillActorDied(st, cfg, ord, now, a, delivered);
      DiedTame(st, KillActor(st, cfg, ord, now, a, delivered), {a}, now);
    } else {
      TameSame(st, st);
    }
  }

  lemma StepTame(st: State, cfg: Config, ord: Order, now: nat, e: Event)
    requires RowsHold(st) && UpNotLost(st) && IsOrder(ord) && !e.ActorCreate? && !e.ActorCall? && !e.Register?
    ensures var st' := Apply(st, cfg, ord, now, e);
            Tame(st, st', DeadlyFor(st, cfg, now, e), EndedBy(st, cfg, e)) && UpKeptBy(st, st', e)
  {
    hide IsOrder, CreatePg, RemovePg, KillActor, Greet, CloseSession, Reap, MarkDead, SweepAll, TakeClaim, CloseConn,
         LoseLink, Spawned, Resolve, RowsHold, Tame, Driven, Orphans, OwnedBy, CallsOf, Reaps, UpKept, UpKeptBy, Died;
    RowsGiveRefRows(st);
    var st' := Apply(st, cfg, ord, now, e);
    match e
    case ActorKill(a, ok) =>
      KillActorTame(st, cfg, ord, now, a, ok);
      SameAgents(st, st', e);
    case Hello(client, group, node, session, reached) =>
      GreetTame(st, cfg, ord, now, client, group, node, session, reached);
      SameAgents(st, st', e);
    case SessionClosed(client, reached) =>
      CloseSessionTame(st, cfg, ord, now, client, reached);
      SameAgents(st, st', e);
    case ReapTimer(client, token, reached) =>
      ReapTame(st, cfg, ord, now, client, Some(token), reached);
      SameAgents(st, st', e);
    case LinkLost(agent, conn) => LoseLinkKept(st, now, e);
    case SpawnResult(a, ok) =>
      MarkDeadTame(st, cfg, ord, now, a);
      SpawnedTame(st, a);
      SameAgents(st, st', e);
    case ActorResult(r, ok, payload, error) =>
      ResolveTame(st, r, ok, payload, error);
      SameAgents(st, st', e);
    case ActorExit(a) =>
      MarkDeadTame(st, cfg, ord, now, a);
      SameAgents(st, st', e);
    case Sweep =>
      SweepTame(st, cfg, ord, now);
      SameAgents(st, st', e);
    case _ =>
      SmallTame(st, cfg, ord, now, e);
      SameAgents(st, st', e);
  }

  lemma LoseLinkKept(st: State, now: nat, e: Event)
    requires UpNotLost(st) && e.LinkLost?
    ensures var s := LoseLink(st, now, e.agent, e.conn); Tame(st, s, {}, {}) && UpKeptBy(st, s, e)
  {
    hide Tame, LoseLink;
    LoseLinkTame(st, now, e.agent, e.conn);
  }
}
