/** Which rows each step makes, and what becomes of agents, clients, pending reaps and
    claims in it, exactly, from the event and the rows before. */
module Entries {
  import opened Basics
  import opened Topology
  import opened Chains
  import opened Claims
  import opened Tables
  import opened Placement
  import opened Head
  import opened Deaths
  import opened Safety
  import opened Rows
  import opened Calls
  import opened Joins
  import opened Sessions
  import opened Fates

  // ---------------------------------------------------------------- agents

  /** Whether the step drops the agent's row: away long enough, every actor filed
      under it dropped. */
  ghost predicate DropsAgent(st: State, cfg: Config, now: nat, e: Event, g: AgentId)
    requires g in st.agents
  {
    e.Sweep? && !st.agents[g].alive && st.agents[g].goneSince.Some? && st.agents[g].goneSince.value + cfg.keepMs < now &&
    forall a :: a in st.actors && st.actors[a].agent == g ==> DropsActor(st, cfg, now, e, a)
  }

  /** An agent's row after the step: new at its registration, lost when the
      connection on it ends, and no longer waited for once given up on. */
  ghost function AgentAfter(st: State, cfg: Config, now: nat, e: Event, g: AgentId): Agent
    requires g in st.agents || (e.Register? && e.agent == g)
  {
    if e.Register? && e.agent == g then Agent(e.group, e.node, e.gpus, true, None, None, st.nextSeq)
    else if e == LinkLost(g, st.agents[g].seqNo) then
      st.agents[g].(alive := false, lostAt := Some(now), goneSince := Some(now))
    else if e.Sweep? && st.agents[g].lostAt.Some? && Passed(st.agents[g].lostAt.value, cfg.deadAfterMs, now) then
      st.agents[g].(lostAt := None)
    else st.agents[g]
  }

  lemma CreateAgents(st: State, cfg: Config, ord: Order, now: nat, e: Event)
    requires e.ActorCreate?
    ensures Apply(st, cfg, ord, now, e).agents == st.agents
  {
    hide MarkDead;
    var group := ClientGroup(st, e.client);
    if Creatable(st, group, e.name, e.numGpus, e.pg, e.index) {
      var b := st.pgs[e.pg].assignment[e.index].value;
      var row := Actor(e.name, group, b.agent, b.node, b.gpuIds, e.client, Spawning, [], Some(e.pg));
      MarkDeadDied(st.(actors := st.actors[e.actor := row]), cfg, ord, now, e.actor);
    }
  }

  lemma PgAgents(st: State, cfg: Config, ord: Order, now: nat, e: Event)
    requires e.PgCreate? || e.PgRemove?
    ensures Apply(st, cfg, ord, now, e).agents == st.agents
  {
    hide TryPlace;
    if e.PgCreate? {
      var row := Pg(ClientGroup(st, e.client), e.client, e.bundles, e.claim, NoBundles(|e.bundles|), Pending, now, None);
      TryPlaceOnlyPlaces(st.(pgs := st.pgs[e.pg := row]), cfg, ord);
    } else {
      TryPlaceOnlyPlaces(if e.pg in st.pgs then st.(pgs := st.pgs[e.pg := RemovedRow(st.pgs[e.pg], now)]) else st, cfg, ord);
    }
  }

  lemma GreetAgents(st: State, cfg: Config, ord: Order, now: nat, e: Event)
    requires e.Hello?
    ensures Apply(st, cfg, ord, now, e).agents == st.agents
  {
    hide KillAll, HelloRow, Driven;
    var s := st.(clients := st.clients[e.client := HelloRow(st, e.client, e.group, e.node, e.session)]);
    KillAllDied(s, cfg, ord, now, ord(Orphans(st, e.group, e.client)), e.reached);
  }

  lemma ReapAgents(st: State, cfg: Config, ord: Order, now: nat, client: ClientId, token: Option<nat>, reached: set<ActorId>)
    ensures Reap(st, cfg, ord, now, client, token, reached).agents == st.agents
  {
    if Reaps(st, client, token) {
      var s := ReapStart(st, client, now);
      var ids := ord(OwnedBy(st, client));
      hide KillAll, TryPlace, ReapStart;
      ReapStartFrame(st, client, now);
      KillAllDied(s, cfg, ord, now, ids, reached);
      var killed := KillAll(s, cfg, ord, now, ids, reached);
      TryPlaceOnlyPlaces(killed.(refs := RefsOfOthers(killed.refs, client)), cfg, ord);
    }
  }

  lemma CloseAgents(st: State, cfg: Config, ord: Order, now: nat, e: Event)
    requires e.SessionClosed? || e.ReapTimer?
    ensures Apply(st, cfg, ord, now, e).agents == st.agents
  {
    hide Reap;
    if e.SessionClosed? {
      ReapAgents(st.(clients := st.clients - {e.client}), cfg, ord, now, e.client, None, e.reached);
    } else {
      ReapAgents(st, cfg, ord, now, e.client, Some(e.token), e.reached);
    }
  }

  lemma SameAgentRows(st: State, cfg: Config, ord: Order, now: nat, e: Event)
    requires !e.Register? && !e.LinkLost? && !e.Sweep?
    ensures Apply(st, cfg, ord, now, e).agents == st.agents
  {
    hide CreatePg, RemovePg, CreateActor, KillActor, Greet, CloseSession, Reap, MarkDead, MakeCall, TakeClaim, CloseConn,
         Resolve;
    UntouchedSteps(st, now, e);
    match e
    case PgCreate(client, pg, bundles, claim) => PgAgents(st, cfg, ord, now, e);
    case PgRemove(pg) => PgAgents(st, cfg, ord, now, e);
    case ActorCreate(client, x, name, n, pg, i, ok) => CreateAgents(st, cfg, ord, now, e);
    case ActorCall(client, x, body, ok) => CallFrame(st, client, x, body, ok);
    case ActorKill(x, ok) => KillActorDied(st, cfg, ord, now, x, ok);
    case Hello(client, group, node, session, reached) => GreetAgents(st, cfg, ord, now, e);
    case SessionClosed(client, reached) => CloseAgents(st, cfg, ord, now, e);
    case ReapTimer(client, token, reached) => CloseAgents(st, cfg, ord, now, e);
    case SpawnResult(x, ok) => MarkDeadDied(st, cfg, ord, now, x);
    case ActorResult(r, ok, payload, error) => ResolveIs(st, r, ok, payload, error);
    case ActorExit(x) => MarkDeadDied(st, cfg, ord, now, x);
    case _ =>
  }

  lemma RegisterAgents(st: State, cfg: Config, ord: Order, now: nat, e: Event)
    requires e.Register?
    ensures Apply(st, cfg, ord, now, e).agents == st.agents[e.agent := Agent(e.group, e.node, e.gpus, true, None, None, st.nextSeq)]
  {
    hide Adopt, AdoptRefs, Reported, MarkAll, Missing, Kills, Drains, TryPlace;
    var r := RegisterRow(st, e.agent, e.group, e.node, e.gpus);
    AdoptRefsFrame(r.(actors := Adopt(r.actors, e.resume, e.group, e.agent, e.node)), e.agent, Reported(e.resume, e.unacked));
    var s := TakeOn(st, e.agent, e.group, e.node, e.gpus, e.resume, e.unacked);
    MarkAllQuiet(s, cfg, ord, now, ord(Missing(s, e.agent, e.resume)));
    var c := MarkAll(s, cfg, ord, now, ord(Missing(s, e.agent, e.resume)));
    var f := Flush(FailLost(c, e.agent, Reported(e.resume, e.unacked)), ord, e.agent, st.nextSeq, Kills(st, e.resume), e.through);
    TryPlaceOnlyPlaces(f, cfg, ord);
  }

  /** Before the old rows go, a sweep has only stopped waiting for some agents. */
  lemma GaveUpAgents(st: State, cfg: Config, ord: Order, now: nat)
    requires IsOrder(ord)
    ensures var g := GaveUp(st, cfg, ord, now);
            g.agents.Keys == st.agents.Keys && forall x :: x in st.agents ==> g.agents[x] == AgentAfter(st, cfg, now, Sweep, x)
  {
    hide GiveUpAll, IsOrder, GivenUp, TimedOut;
    var s := st.(pgs := TimedOut(st.pgs, cfg, now));
    GiveUpDied(Forget(s, cfg, now), cfg, ord, now, ord(GivenUp(s, cfg, now)));
  }

  /** An actor is old then exactly when its row is to be dropped. */
  lemma GaveUpOld(st: State, cfg: Config, ord: Order, now: nat, a: ActorId)
    requires IsOrder(ord) && a in st.actors
    ensures OldActor(GaveUp(st, cfg, ord, now), cfg, now, a) <==> DropsActor(st, cfg, now, Sweep, a)
  {
    hide GaveUp, IsOrder;
    GaveUpRows(st, cfg, ord, now, a);
    GaveUpClients(st, cfg, ord, now);
  }

  lemma GaveUpFiled(st: State, cfg: Config, ord: Order, now: nat)
    requires IsOrder(ord)
    ensures var g := GaveUp(st, cfg, ord, now);
            g.actors.Keys == st.actors.Keys && forall a :: a in st.actors ==> g.actors[a].agent == st.actors[a].agent
  {
    hide GiveUpAll, IsOrder, GivenUp, TimedOut;
    var s := st.(pgs := TimedOut(st.pgs, cfg, now));
    GiveUpDied(Forget(s, cfg, now), cfg, ord, now, ord(GivenUp(s, cfg, now)));
  }

  lemma HistoryAgents(g: State, cfg: Config, now: nat, x: AgentId)
    requires x in g.agents
    ensures var st' := SweepHistory(g, cfg, now);
            (x in st'.agents <==> !OldAgent(g, cfg, now, x)) && (x in st'.agents ==> st'.agents[x] == g.agents[x])
  {
    hide OldPg, OldActor;
    if OldAgent(g, cfg, now, x) {
      assert AnythingOld(g, cfg, now);
    }
  }

  lemma SweepAgents(st: State, cfg: Config, ord: Order, now: nat, x: AgentId)
    requires IsOrder(ord) && x in st.agents
    ensures var st' := SweepAll(st, cfg, ord, now);
            (x in st'.agents <==> !DropsAgent(st, cfg, now, Sweep, x)) &&
            (x in st'.agents ==> st'.agents[x] == AgentAfter(st, cfg, now, Sweep, x))
  {
    var g := GaveUp(st, cfg, ord, now);
    assert SweepAll(st, cfg, ord, now) == SweepHistory(g, cfg, now);
    hide GaveUp, SweepAll, SweepHistory, IsOrder, OldActor;
    GaveUpAgents(st, cfg, ord, now);
    GaveUpFiled(st, cfg, ord, now);
    HistoryAgents(g, cfg, now, x);
    forall a | a in st.actors ensures OldActor(g, cfg, now, a) <==> DropsActor(st, cfg, now, Sweep, a) {
      GaveUpOld(st, cfg, ord, now, a);
    }
  }

  /** In every step an agent's row is made exactly by its registration, dropped exactly
      when it is away long enough with no actor left, and otherwise is as `AgentAfter`
      says. */
  lemma AgentsExactly(st: State, cfg: Config, ord: Order, now: nat, e: Event, g: AgentId)
    requires IsOrder(ord)
    ensures var st' := Apply(st, cfg, ord, now, e);
            (g in st'.agents <==> (e.Register? && e.agent == g) || (g in st.agents && !DropsAgent(st, cfg, now, e, g))) &&
            (g in st'.agents ==> st'.agents[g] == AgentAfter(st, cfg, now, e, g))
  {
    hide IsOrder, DropsActor;
    if e.Sweep? {
      hide GiveUpAll, SweepHistory;
      if g in st.agents { SweepAgents(st, cfg, ord, now, g); } else { SweepAddsNone(st, cfg, ord, now); }
    } else if e.Register? {
      hide Apply;
      RegisterAgents(st, cfg, ord, now, e);
    } else if !e.LinkLost? {
      hide Apply;
      SameAgentRows(st, cfg, ord, now, e);
    }
  }

  lemma SweepAddsNone(st: State, cfg: Config, ord: Order, now: nat)
    requires IsOrder(ord)
    ensures SweepAll(st, cfg, ord, now).agents.Keys <= st.agents.Keys
  {
    var g := GaveUp(st, cfg, ord, now);
    assert SweepAll(st, cfg, ord, now) == SweepHistory(g, cfg, now);
    hide GaveUp, IsOrder, AnythingOld;
    GaveUpAgents(st, cfg, ord, now);
  }

  // ---------------------------------------------------------------- desk

  /** The hello is taken: not a session for a group another client drives. */
  predicate Welcomed(st: State, e: Event, client: ClientId) {
    e.Hello? && e.client == client && !(e.session && DrivenByOther(st, e.group, client))
  }

  /** In every step a client has a row exactly by a hello that is taken, or as before
      while neither its session closed nor, without one, a connection of it. Its group
      is the one last named, and its session, once opened, lasts until it is closed. */
  lemma ClientsExactly(st: State, cfg: Config, ord: Order, now: nat, e: Event, client: ClientId)
    requires IsOrder(ord)
    ensures var st' := Apply(st, cfg, ord, now, e);
            (client in st'.clients <==>
               Welcomed(st, e, client) ||
               (client in st.clients && !(e.SessionClosed? && e.client == client) &&
                !(e == ConnClosed(client) && !st.clients[client].hasSession))) &&
            (client in st'.clients ==>
               var had := client in st.clients && st.clients[client].hasSession;
               if Welcomed(st, e, client) then
                 st'.clients[client].group == e.group && (st'.clients[client].hasSession <==> e.session || had) &&
                 st'.clients[client].node == if client in st.clients then st.clients[client].node else e.node
               else client in st.clients && st'.clients[client] == st.clients[client])
  {
    hide Apply, IsOrder, PendingAfter, ClaimsAfter;
    DeskAfter(st, cfg, ord, now, e);
    if e.Hello? {
      assert Driven(st, e.group, e.client) <==> DrivenByOther(st, e.group, e.client);
    }
  }

  /** In every step a reap is pending exactly if the client's session closed in it with
      a grace to wait out, under a token of its own, or if it was pending and neither
      that happened nor its own timer ran out. */
  lemma PendingExactly(st: State, cfg: Config, ord: Order, now: nat, e: Event, client: ClientId)
    requires IsOrder(ord)
    ensures var st' := Apply(st, cfg, ord, now, e); var closed := e.SessionClosed? && e.client == client;
            (client in st'.reapPending <==>
               (closed && cfg.graceMs != 0) ||
               (client in st.reapPending && !closed &&
                !(e.ReapTimer? && e.client == client && e.token == st.reapPending[client]))) &&
            (client in st'.reapPending ==>
               st'.reapPending[client] == if closed then st.nextReap else st.reapPending[client]) &&
            (closed && cfg.graceMs != 0 ==> st.nextReap < st'.nextReap)
  {
    hide Apply, IsOrder, ClientsAfter, ClaimsAfter;
    DeskAfter(st, cfg, ord, now, e);
  }

  /** The client claims the name in its group and is given an answer: the one held,
      for the same shape, or a new one that can be solved. */
  ghost predicate Granted(st: State, e: Event, k: (Group, Name), client: ClientId) {
    e.ClaimName? && e.client == client && k == (GroupOf(st, client), e.name) && e.shape.Some? &&
    if k in st.claims then e.shape.value == st.claims[k].req else Solve(e.net, e.shape.value).Ok?
  }

  /** The group a client's row names, or the default one. */
  function GroupOf(st: State, client: ClientId): Group {
    if client in st.clients then st.clients[client].group else 0
  }

  predicate Holds(st: State, k: (Group, Name), client: ClientId) {
    k in st.claims && client in st.claims[k].holders
  }

  /** In every step a client holds a claim exactly by claiming it with an answer, or as
      before while it is not reaped. A claim somebody held stays the same claim for as
      long as somebody holds it, and a new one has the answer of the topology it was
      solved on and a number of its own. */
  lemma ClaimsExactly(st: State, cfg: Config, ord: Order, now: nat, e: Event, k: (Group, Name), client: ClientId)
    requires IsOrder(ord) && AllHeld(st.claims)
    ensures var st' := Apply(st, cfg, ord, now, e);
            (Holds(st', k, client) <==>
               Granted(st, e, k, client) || (Holds(st, k, client) && !Reaping(st, cfg, e, client))) &&
            (Holds(st', k, client) && k in st.claims ==>
               st'.claims[k].req == st.claims[k].req && st'.claims[k].view == st.claims[k].view &&
               st'.claims[k].generation == st.claims[k].generation) &&
            (Holds(st', k, client) && k !in st.claims ==>
               e.ClaimName? && Ok(st'.claims[k].view) == Solve(e.net, st'.claims[k].req) &&
               Some(st'.claims[k].req) == e.shape && st'.claims[k].generation == st.claimGeneration + 1)
  {
    hide Apply, IsOrder, ClientsAfter, PendingAfter, Solve;
    DeskAfter(st, cfg, ord, now, e);
    if e.SessionClosed? {
      ReleasedMeans(st, k, e.client, client);
    } else if e.ReapTimer? {
      ReleasedMeans(st, k, e.client, client);
    } else if e.ClaimName? {
      ClaimMeans(st, e, k, client);
    }
  }

  lemma ReleasedMeans(st: State, k: (Group, Name), reaped: ClientId, client: ClientId)
    ensures var m := Released(st.claims, reaped);
            (k in m && client in m[k].holders <==> Holds(st, k, client) && client != reaped) &&
            (k in m ==> k in st.claims && m[k].req == st.claims[k].req && m[k].view == st.claims[k].view &&
                        m[k].generation == st.claims[k].generation)
  {
    if Holds(st, k, client) && client != reaped {
      assert client in st.claims[k].holders - {reaped};
    }
  }

  /** Claiming changes nothing under another name. */
  lemma ClaimElsewhere(st: State, e: Event, k: (Group, Name))
    requires e.ClaimName? && k != (GroupOf(st, e.client), e.name)
    ensures var m := TakeClaim(st, e.client, e.name, e.shape, e.net).claims;
            (k in m <==> k in st.claims) && (k in m ==> m[k] == st.claims[k])
  {
    ClaimWrites(st, e);
    hide TakeClaim, ClientGroup;
  }

  /** Claiming writes at most the claim under the name. */
  lemma ClaimWrites(st: State, e: Event)
    requires e.ClaimName?
    ensures var m := TakeClaim(st, e.client, e.name, e.shape, e.net).claims; var key := (GroupOf(st, e.client), e.name);
            m == st.claims || (key in m && m == st.claims[key := m[key]])
  {
    hide Solve;
    var s := TakeClaim(st, e.client, e.name, e.shape, e.net);
    var key := (GroupOf(st, e.client), e.name);
    if key in s.claims {
      assert s.claims == st.claims || s.claims == st.claims[key := s.claims[key]];
    }
  }

  /** Under the name itself, one more holder for the shape held, or a new claim. */
  lemma ClaimUnder(st: State, e: Event, k: (Group, Name))
    requires e.ClaimName? && k == (GroupOf(st, e.client), e.name)
    ensures var m := TakeClaim(st, e.client, e.name, e.shape, e.net).claims;
            if k in st.claims then
              k in m && m[k] == if e.shape == Some(st.claims[k].req) then st.claims[k].(holders := st.claims[k].holders + {e.client})
                                else st.claims[k]
            else if e.shape.Some? && Solve(e.net, e.shape.value).Ok? then
              k in m && m[k] == Claim(e.shape.value, Solve(e.net, e.shape.value).value, st.claimGeneration + 1, {e.client})
            else k !in m
  {
    hide Solve;
  }

  lemma ClaimMeans(st: State, e: Event, k: (Group, Name), client: ClientId)
    requires e.ClaimName?
    ensures var m := TakeClaim(st, e.client, e.name, e.shape, e.net).claims;
            (k in m && client in m[k].holders <==> Granted(st, e, k, client) || Holds(st, k, client)) &&
            (k in st.claims ==> k in m && m[k].req == st.claims[k].req && m[k].view == st.claims[k].view &&
                                m[k].generation == st.claims[k].generation) &&
            (k in m && k !in st.claims ==>
               Ok(m[k].view) == Solve(e.net, m[k].req) && Some(m[k].req) == e.shape &&
               m[k].generation == st.claimGeneration + 1)
  {
    hide Solve, TakeClaim;
    if k == (GroupOf(st, e.client), e.name) { ClaimUnder(st, e, k); } else { ClaimElsewhere(st, e, k); }
  }

  // -------------------------------------------------------------- new rows

  /** In every step a group's row is made exactly by asking for it, for the client that
      asked, in its group, with what it asked for. */
  lemma GroupMadeExactly(st: State, cfg: Config, ord: Order, now: nat, e: Event, p: PgId)
    requires IsOrder(ord) && Sane(st, e) && p !in st.pgs
    ensures var st' := Apply(st, cfg, ord, now, e);
            (p in st'.pgs <==> e.PgCreate? && e.pg == p) &&
            (p in st'.pgs ==>
               st'.pgs[p].owner == e.client && st'.pgs[p].group == GroupOf(st, e.client) && st'.pgs[p].bundles == e.bundles &&
               st'.pgs[p].claim == e.claim && st'.pgs[p].createdMs == now && st'.pgs[p].state != Removed)
  {
    hide IsOrder;
    if e.PgCreate? {
      hide TryPlace;
      var row := Pg(ClientGroup(st, e.client), e.client, e.bundles, e.claim, NoBundles(|e.bundles|), Pending, now, None);
      TryPlaceOnlyPlaces(st.(pgs := st.pgs[e.pg := row]), cfg, ord);
    } else {
      hide Apply;
      GroupKeys(st, cfg, ord, now, e);
    }
  }

  lemma ReapKeys(st: State, cfg: Config, ord: Order, now: nat, client: ClientId, token: Option<nat>, reached: set<ActorId>)
    ensures var st' := Reap(st, cfg, ord, now, client, token, reached);
            st'.pgs.Keys == st.pgs.Keys && st'.actors.Keys == st.actors.Keys && st'.refs.Keys <= st.refs.Keys
  {
    if Reaps(st, client, token) {
      var s := ReapStart(st, client, now);
      assert s.pgs.Keys == st.pgs.Keys && s.actors == st.actors && s.refs == st.refs;
      var ids := ord(OwnedBy(st, client));
      hide KillAll, TryPlace, ReapStart;
      KillAllDied(s, cfg, ord, now, ids, reached);
      var killed := KillAll(s, cfg, ord, now, ids, reached);
      TryPlaceOnlyPlaces(killed.(refs := RefsOfOthers(killed.refs, client)), cfg, ord);
    }
  }

  lemma SweepKeys(st: State, cfg: Config, ord: Order, now: nat)
    requires IsOrder(ord)
    ensures var st' := SweepAll(st, cfg, ord, now);
            st'.pgs.Keys <= st.pgs.Keys && st'.actors.Keys <= st.actors.Keys && st'.refs.Keys <= st.refs.Keys
  {
    hide GiveUpAll, IsOrder, GivenUp, AnythingOld;
    var s := st.(pgs := TimedOut(st.pgs, cfg, now));
    GiveUpDied(Forget(s, cfg, now), cfg, ord, now, ord(GivenUp(s, cfg, now)));
  }

  lemma PgKeys(st: State, cfg: Config, ord: Order, now: nat, e: Event)
    requires e.PgCreate? || e.PgRemove?
    ensures var st' := Apply(st, cfg, ord, now, e);
            st'.actors == st.actors && st'.refs == st.refs && (e.PgRemove? ==> st'.pgs.Keys == st.pgs.Keys)
  {
    hide TryPlace;
    if e.PgCreate? {
      var row := Pg(ClientGroup(st, e.client), e.client, e.bundles, e.claim, NoBundles(|e.bundles|), Pending, now, None);
      TryPlaceOnlyPlaces(st.(pgs := st.pgs[e.pg := row]), cfg, ord);
    } else {
      TryPlaceOnlyPlaces(if e.pg in st.pgs then st.(pgs := st.pgs[e.pg := RemovedRow(st.pgs[e.pg], now)]) else st, cfg, ord);
    }
  }

  lemma GreetKeys(st: State, cfg: Config, ord: Order, now: nat, e: Event)
    requires e.Hello?
    ensures var st' := Apply(st, cfg, ord, now, e);
            st'.pgs.Keys == st.pgs.Keys && st'.actors.Keys == st.actors.Keys && st'.refs.Keys == st.refs.Keys
  {
    hide KillAll, HelloRow, Driven;
    var s := st.(clients := st.clients[e.client := HelloRow(st, e.client, e.group, e.node, e.session)]);
    KillAllDied(s, cfg, ord, now, ord(Orphans(st, e.group, e.client)), e.reached);
  }

  lemma CreateKeys(st: State, cfg: Config, ord: Order, now: nat, e: Event)
    requires e.ActorCreate?
    ensures var st' := Apply(st, cfg, ord, now, e); st'.pgs.Keys == st.pgs.Keys && st'.refs.Keys == st.refs.Keys
  {
    hide MarkDead;
    var group := ClientGroup(st, e.client);
    if Creatable(st, group, e.name, e.numGpus, e.pg, e.index) {
      var b := st.pgs[e.pg].assignment[e.index].value;
      var row := Actor(e.name, group, b.agent, b.node, b.gpuIds, e.client, Spawning, [], Some(e.pg));
      MarkDeadDied(st.(actors := st.actors[e.actor := row]), cfg, ord, now, e.actor);
    }
  }

  lemma CallKeys(st: State, client: ClientId, a: ActorId, body: nat, delivered: bool)
    ensures var st' := MakeCall(st, client, a, body, delivered); st'.pgs == st.pgs && st'.actors.Keys == st.actors.Keys
  {
    hide MakeCall;
    CallFrame(st, client, a, body, delivered);
  }

  /** No other step makes a row of an actor or a call. */
  lemma OtherKeys(st: State, cfg: Config, ord: Order, now: nat, e: Event)
    requires IsOrder(ord) && !e.ActorCreate? && !e.ActorCall? && !e.Register?
    ensures var st' := Apply(st, cfg, ord, now, e); st'.actors.Keys <= st.actors.Keys && st'.refs.Keys <= st.refs.Keys
  {
    hide IsOrder, CreatePg, RemovePg, KillActor, Greet, CloseSession, Reap, MarkDead, TakeClaim, CloseConn, Resolve, LoseLink,
         SweepAll, Died;
    UntouchedSteps(st, now, e);
    match e
    case PgCreate(client, pg, bundles, claim) => PgKeys(st, cfg, ord, now, e);
    case PgRemove(pg) => PgKeys(st, cfg, ord, now, e);
    case ActorKill(x, ok) =>
      KillActorDied(st, cfg, ord, now, x, ok);
      DiedKeys(st, KillActor(st, cfg, ord, now, x, ok), {x}, now);
    case Hello(client, group, node, session, reached) => GreetKeys(st, cfg, ord, now, e);
    case SessionClosed(client, reached) => CloseKeys(st, cfg, ord, now, e);
    case ReapTimer(client, token, reached) => CloseKeys(st, cfg, ord, now, e);
    case SpawnResult(x, ok) => MarkDeadKeys(st, cfg, ord, now, x);
    case ActorResult(r, ok, payload, error) => ResolveKeys(st, r, ok, payload, error);
    case ActorExit(x) => MarkDeadKeys(st, cfg, ord, now, x);
    case Sweep => SweepKeys(st, cfg, ord, now);
    case _ =>
  }

  lemma DiedKeys(st: State, st': State, ids: set<ActorId>, now: nat)
    requires Died(st, st', ids, now)
    ensures st'.actors.Keys == st.actors.Keys && st'.refs.Keys == st.refs.Keys && st'.pgs.Keys == st.pgs.Keys
  {
  }

  lemma MarkDeadKeys(st: State, cfg: Config, ord: Order, now: nat, a: ActorId)
    ensures var s := MarkDead(st, cfg, ord, now, a);
            s.actors.Keys == st.actors.Keys && s.refs.Keys == st.refs.Keys && s.pgs.Keys == st.pgs.Keys
  {
    hide MarkDead, Died;
    MarkDeadDied(st, cfg, ord, now, a);
    DiedKeys(st, MarkDead(st, cfg, ord, now, a), {a}, now);
  }

  lemma ResolveKeys(st: State, r: RefId, ok: bool, payload: seq<nat>, error: bool)
    ensures var s := Resolve(st, r, ok, payload, error); s.actors == st.actors && s.pgs == st.pgs && s.refs.Keys == st.refs.Keys
  {
  }

  lemma CloseKeys(st: State, cfg: Config, ord: Order, now: nat, e: Event)
    requires e.SessionClosed? || e.ReapTimer?
    ensures var st' := Apply(st, cfg, ord, now, e);
            st'.pgs.Keys == st.pgs.Keys && st'.actors.Keys == st.actors.Keys && st'.refs.Keys <= st.refs.Keys
  {
    hide Reap;
    if e.SessionClosed? {
      ReapKeys(st.(clients := st.clients - {e.client}), cfg, ord, now, e.client, None, e.reached);
    } else {
      ReapKeys(st, cfg, ord, now, e.client, Some(e.token), e.reached);
    }
  }

  /** No step but the one that asks for it makes a group's row. */
  lemma GroupKeys(st: State, cfg: Config, ord: Order, now: nat, e: Event)
    requires IsOrder(ord) && !e.PgCreate?
    ensures Apply(st, cfg, ord, now, e).pgs.Keys <= st.pgs.Keys
  {
    hide IsOrder, RemovePg, CreateActor, KillActor, Greet, CloseSession, Reap, MarkDead, TakeClaim, CloseConn, Resolve, LoseLink,
         SweepAll, Registered, MakeCall;
    UntouchedSteps(st, now, e);
    match e
    case PgRemove(pg) => PgKeys(st, cfg, ord, now, e);
    case ActorCreate(client, x, name, n, pg, i, ok) => CreateKeys(st, cfg, ord, now, e);
    case ActorCall(client, x, body, ok) => CallKeys(st, client, x, body, ok);
    case ActorKill(x, ok) => KillActorDied(st, cfg, ord, now, x, ok);
    case Hello(client, group, node, session, reached) => GreetKeys(st, cfg, ord, now, e);
    case SessionClosed(client, reached) => CloseKeys(st, cfg, ord, now, e);
    case ReapTimer(client, token, reached) => CloseKeys(st, cfg, ord, now, e);
    case Register(agent, group, node, gpus, resume, unacked, through) => RegisterPlaces(st, cfg, ord, now, e);
    case SpawnResult(x, ok) => MarkDeadDied(st, cfg, ord, now, x);
    case ActorResult(r, ok, payload, error) => ResolveKeys(st, r, ok, payload, error);
    case ActorExit(x) => MarkDeadDied(st, cfg, ord, now, x);
    case Sweep => SweepKeys(st, cfg, ord, now);
    case _ =>
  }

  /** Bundle `index` of the group is placed, on an agent that is up, with GPUs enough. */
  predicate HasRoomFor(st: State, pg: PgId, index: nat, numGpus: nat) {
    pg in st.pgs && st.pgs[pg].state == Created && index < |st.pgs[pg].assignment| && st.pgs[pg].assignment[index].Some? &&
    var b := st.pgs[pg].assignment[index].value;
    numGpus <= |b.gpuIds| && b.agent in st.agents && st.agents[b.agent].alive
  }

  /** The actor can be made: no live one of its name in its maker's group, and a bundle
      for it. */
  ghost predicate CanMake(st: State, e: Event)
    requires e.ActorCreate?
  {
    (forall x :: x in st.actors && Live(st.actors[x]) && st.actors[x].name == e.name ==>
       st.actors[x].group != GroupOf(st, e.client)) &&
    HasRoomFor(st, e.pg, e.index, e.numGpus)
  }

  /** What an actor's row is made with: its bundle's agent and devices. */
  predicate MadeAs(st: State, e: Event, row: Actor)
    requires e.ActorCreate? && HasRoomFor(st, e.pg, e.index, e.numGpus)
  {
    var b := st.pgs[e.pg].assignment[e.index].value;
    row.name == e.name && row.group == GroupOf(st, e.client) && row.agent == b.agent && row.node == b.node &&
    row.gpuIds == b.gpuIds && row.owner == e.client && row.queued == [] && row.madeIn == Some(e.pg)
  }

  lemma MakesNot(st: State, cfg: Config, ord: Order, now: nat, e: Event)
    requires e.ActorCreate? && !Creatable(st, ClientGroup(st, e.client), e.name, e.numGpus, e.pg, e.index)
    ensures Apply(st, cfg, ord, now, e) == st
  {
    hide MarkDead;
  }

  lemma MakesSent(st: State, cfg: Config, ord: Order, now: nat, e: Event)
    requires e.ActorCreate? && e.actor !in st.actors && HasRoomFor(st, e.pg, e.index, e.numGpus) && e.delivered
    requires Creatable(st, ClientGroup(st, e.client), e.name, e.numGpus, e.pg, e.index)
    ensures var st' := Apply(st, cfg, ord, now, e); var b := st.pgs[e.pg].assignment[e.index].value;
            st'.actors.Keys == st.actors.Keys + {e.actor} && MadeAs(st, e, st'.actors[e.actor]) && Live(st'.actors[e.actor]) &&
            st'.sent == st.sent + [Sent(b.agent, st.agents[b.agent].seqNo, Spawn(e.actor, e.name, e.client, b.gpuIds))]
  {
    hide MarkDead, Creatable;
  }

  lemma MakesDead(st: State, cfg: Config, ord: Order, now: nat, e: Event)
    requires e.ActorCreate? && e.actor !in st.actors && HasRoomFor(st, e.pg, e.index, e.numGpus) && !e.delivered
    requires Creatable(st, ClientGroup(st, e.client), e.name, e.numGpus, e.pg, e.index)
    ensures var st' := Apply(st, cfg, ord, now, e);
            st'.actors.Keys == st.actors.Keys + {e.actor} && MadeAs(st, e, st'.actors[e.actor]) && !Live(st'.actors[e.actor]) &&
            st'.sent == st.sent
  {
    hide MarkDead, Creatable, CallsDied, DiedWithActor, OnlyPlaced, OnlyKills;
    var b := st.pgs[e.pg].assignment[e.index].value;
    var row := Actor(e.name, ClientGroup(st, e.client), b.agent, b.node, b.gpuIds, e.client, Spawning, [], Some(e.pg));
    var made := st.(actors := st.actors[e.actor := row]);
    MarkDeadDied(made, cfg, ord, now, e.actor);
    MarkDeadWrites(made, cfg, ord, now, e.actor);
  }

  lemma CanMakeIs(st: State, e: Event)
    requires e.ActorCreate?
    ensures CanMake(st, e) <==> Creatable(st, ClientGroup(st, e.client), e.name, e.numGpus, e.pg, e.index)
    ensures CanMake(st, e) ==> HasRoomFor(st, e.pg, e.index, e.numGpus)
  {
  }

  /** A request for an actor that can be met makes its row and, when delivered, writes its
      spawn. */
  lemma CreateMakes(st: State, cfg: Config, ord: Order, now: nat, e: Event)
    requires e.ActorCreate? && e.actor !in st.actors
    ensures CanMake(st, e) ==> HasRoomFor(st, e.pg, e.index, e.numGpus)
    ensures var st' := Apply(st, cfg, ord, now, e);
            st'.actors.Keys == (if CanMake(st, e) then st.actors.Keys + {e.actor} else st.actors.Keys) &&
            (CanMake(st, e) ==>
               MadeAs(st, e, st'.actors[e.actor]) && (Live(st'.actors[e.actor]) <==> e.delivered) &&
               st'.sent == if !e.delivered then st.sent else
                 var b := st.pgs[e.pg].assignment[e.index].value;
                 st.sent + [Sent(b.agent, st.agents[b.agent].seqNo, Spawn(e.actor, e.name, e.client, b.gpuIds))])
  {
    hide Apply, CanMake, Creatable, MadeAs;
    CanMakeIs(st, e);
    if !CanMake(st, e) {
      MakesNot(st, cfg, ord, now, e);
    } else if e.delivered {
      MakesSent(st, cfg, ord, now, e);
    } else {
      MakesDead(st, cfg, ord, now, e);
    }
  }

  lemma MarkDeadWrites(st: State, cfg: Config, ord: Order, now: nat, a: ActorId)
    ensures MarkDead(st, cfg, ord, now, a).sent == st.sent
  {
    hide TryPlace;
    TryPlaceOnlyPlaces(Bury(st, now, a), cfg, ord);
  }

  /** In every step an actor's row is made exactly by a request that can be met, live
      when its spawn goes out, or by its agent bringing it in, live as last reported. */
  lemma ActorMadeExactly(st: State, cfg: Config, ord: Order, now: nat, e: Event, a: ActorId)
    requires IsOrder(ord) && Sane(st, e) && a !in st.actors
    ensures var st' := Apply(st, cfg, ord, now, e);
            (a in st'.actors <==>
               (e.ActorCreate? && e.actor == a && CanMake(st, e)) || (e.Register? && Resumes(e.resume, a))) &&
            (a in st'.actors && e.ActorCreate? ==>
               MadeAs(st, e, st'.actors[a]) && (Live(st'.actors[a]) <==> e.delivered)) &&
            (a in st'.actors && e.Register? ==>
               exists k: nat :: LastReport(e.resume, a, k) && st'.actors[a] == AdoptedRow(e.resume[k], e.group, e.agent, e.node))
  {
    hide IsOrder, CanMake;
    if e.ActorCreate? {
      hide Apply;
      CreateMakes(st, cfg, ord, now, e);
    } else if e.Register? {
      hide Apply;
      BringsIn(st, cfg, ord, now, e, a);
    } else if e.ActorCall? {
      CallKeys(st, e.client, e.actor, e.body, e.delivered);
    } else {
      hide Apply;
      OtherKeys(st, cfg, ord, now, e);
    }
  }

  lemma TakenRows(st: State, agent: AgentId, group: Group, node: NodeId, gpus: seq<nat>, resume: seq<Resumed>, unacked: seq<RefId>)
    ensures TakeOn(st, agent, group, node, gpus, resume, unacked).actors == Adopt(st.actors, resume, group, agent, node)
  {
    hide Adopt, AdoptRefs, Reported;
    var r := RegisterRow(st, agent, group, node, gpus);
    AdoptRefsFrame(r.(actors := Adopt(r.actors, resume, group, agent, node)), agent, Reported(resume, unacked));
  }

  lemma BringsIn(st: State, cfg: Config, ord: Order, now: nat, e: Event, a: ActorId)
    requires IsOrder(ord) && e.Register? && a !in st.actors
    ensures var st' := Apply(st, cfg, ord, now, e);
            (a in st'.actors <==> Resumes(e.resume, a)) &&
            (a in st'.actors ==>
               exists k: nat :: LastReport(e.resume, a, k) && st'.actors[a] == AdoptedRow(e.resume[k], e.group, e.agent, e.node))
  {
    hide Apply, TakeOn, Joins.Counted, IsOrder, FailLost, CallsAdopted, CallsDied, DiedWithActor, OnlyPlaced, OnlyKills, Adopt;
    Stages(st, cfg, ord, now, e);
    TakenRows(st, e.agent, e.group, e.node, e.gpus, e.resume, e.unacked);
    AdoptMeans(st.actors, e.resume, e.group, e.agent, e.node);
    var s := TakeOn(st, e.agent, e.group, e.node, e.gpus, e.resume, e.unacked);
    var st' := Apply(st, cfg, ord, now, e);
    if a in s.actors {
      var k: nat :| LastReport(e.resume, a, k) && s.actors[a] == AdoptedRow(e.resume[k], e.group, e.agent, e.node);
      assert st'.actors[a] == AdoptedRow(e.resume[k], e.group, e.agent, e.node);
    }
  }

  /** The actor is filed under the agent once what it brings in is taken on. */
  predicate FiledBy(st: State, e: Event, a: ActorId)
    requires e.Register?
  {
    if a in st.actors then st.actors[a].agent == e.agent else Resumes(e.resume, a)
  }

  /** In every step a call's row is made exactly by the next call on a known actor, or by
      the actor's agent reporting it. It is pending, unless its actor is dead when the
      call is made, or is ended by the registration itself. */
  lemma CallMadeExactly(st: State, cfg: Config, ord: Order, now: nat, e: Event, r: RefId)
    requires IsOrder(ord) && Sane(st, e) && RowsHold(st) && OwnQueues(st) && r !in st.refs
    ensures var st' := Apply(st, cfg, ord, now, e);
            (r in st'.refs <==>
               (e.ActorCall? && r == RefId(e.actor, st.nextRef) && e.actor in st.actors) ||
               (e.Register? && Reports(e, r) && FiledBy(st, e, r.actor))) &&
            (r in st'.refs && e.ActorCall? ==>
               st'.refs[r] == Ref(if Live(st.actors[e.actor]) then Waiting else ActorDied, e.actor, e.client)) &&
            (r in st'.refs && e.Register? ==>
               r.actor in st'.actors && st'.refs[r].actor == r.actor && st'.refs[r].owner == st'.actors[r.actor].owner &&
               st'.refs[r].state == if r.actor in st.actors && Live(st.actors[r.actor]) && !Resumes(e.resume, r.actor)
                                    then ActorDied else Waiting)
  {
    hide IsOrder;
    if e.ActorCall? {
      hide MakeCall;
      CallFrame(st, e.client, e.actor, e.body, e.delivered);
    } else if e.Register? {
      hide Apply, Reports, FiledBy;
      ReportedMeans(e, r);
      CallTakenOn(st, cfg, ord, now, e, r);
    } else if e.ActorCreate? {
      hide Apply;
      CreateKeys(st, cfg, ord, now, e);
    } else {
      hide Apply;
      OtherKeys(st, cfg, ord, now, e);
    }
  }

  lemma CallTakenOn(st: State, cfg: Config, ord: Order, now: nat, e: Event, r: RefId)
    requires IsOrder(ord) && e.Register? && RowsHold(st) && r !in st.refs
    ensures var st' := Apply(st, cfg, ord, now, e);
            (r in st'.refs <==> r in Reported(e.resume, e.unacked) && FiledBy(st, e, r.actor)) &&
            (r in st'.refs ==>
               r.actor in st'.actors && st'.refs[r].actor == r.actor && st'.refs[r].owner == st'.actors[r.actor].owner &&
               st'.refs[r].state == if r.actor in st.actors && Live(st.actors[r.actor]) && !Resumes(e.resume, r.actor)
                                    then ActorDied else Waiting)
  {
    hide Apply, TakeOn, Joins.Counted, IsOrder, OnlyPlaced, OnlyKills, Reported, QueuedOn;
    Stages(st, cfg, ord, now, e);
    TakenCall(st, e, r);
    var s := TakeOn(st, e.agent, e.group, e.node, e.gpus, e.resume, e.unacked);
    var c := Joins.Counted(st, cfg, ord, now, e.agent, e.group, e.node, e.gpus, e.resume, e.unacked);
    assert r in s.refs ==> r.actor in s.actors;
  }

  lemma TakenCall(st: State, e: Event, r: RefId)
    requires e.Register? && RefRows(st) && r !in st.refs
    ensures var s := TakeOn(st, e.agent, e.group, e.node, e.gpus, e.resume, e.unacked);
            (r in s.refs <==> r in Reported(e.resume, e.unacked) && FiledBy(st, e, r.actor)) &&
            (r in s.refs ==> r.actor in s.actors && s.refs[r] == Ref(Waiting, r.actor, s.actors[r.actor].owner))
  {
    hide Adopt, AdoptRefs, Reported;
    var r0 := RegisterRow(st, e.agent, e.group, e.node, e.gpus);
    AdoptMeans(r0.actors, e.resume, e.group, e.agent, e.node);
    var t := r0.(actors := Adopt(r0.actors, e.resume, e.group, e.agent, e.node));
    assert RefRows(t);
    AdoptRefsMeans(t, e.agent, Reported(e.resume, e.unacked));
  }

  // ----------------------------------------------------------------- queues

  /** Queues hold only their own actors' calls after every step. */
  lemma OwnQueuesStep(st: State, cfg: Config, ord: Order, now: nat, e: Event)
    requires IsOrder(ord) && Sane(st, e) && RowsHold(st) && OwnQueues(st)
    ensures OwnQueues(Apply(st, cfg, ord, now, e))
  {
    hide IsOrder, RowsHold;
    if e.ActorCall? {
      CallOwn(st, e.client, e.actor, e.body, e.delivered);
    } else if e.Register? {
      RegisterOwn(st, cfg, ord, now, e);
    } else {
      hide Apply;
      OthersHandNothing(st, cfg, ord, now, e);
    }
  }

  lemma CallOwn(st: State, client: ClientId, a: ActorId, body: nat, delivered: bool)
    requires OwnQueues(st)
    ensures OwnQueues(MakeCall(st, client, a, body, delivered))
  {
    hide MakeCall;
    CallFrame(st, client, a, body, delivered);
  }

  lemma RegisterOwn(st: State, cfg: Config, ord: Order, now: nat, e: Event)
    requires IsOrder(ord) && e.Register? && OwnQueues(st)
    ensures OwnQueues(Apply(st, cfg, ord, now, e))
  {
    hide Apply, TakeOn, Joins.Counted, IsOrder, OnlyPlaced, OnlyKills, CallsAdopted, CallsDied, DiedWithActor, FailLost;
    Stages(st, cfg, ord, now, e);
    var s := TakeOn(st, e.agent, e.group, e.node, e.gpus, e.resume, e.unacked);
    var c := Joins.Counted(st, cfg, ord, now, e.agent, e.group, e.node, e.gpus, e.resume, e.unacked);
    assert OwnQueues(s) && OwnQueues(c);
  }
}
