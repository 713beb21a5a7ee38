/** Driver sessions, the grace after one closes, reaping, and claims. */
module Sessions {
  import opened Basics
  import opened Topology
  import opened Chains
  import opened Solver
  import opened Claims
  import opened Tables
  import opened Placement
  import opened Head
  import opened Deaths
  import opened Safety
  import opened Rows
  import opened Runs
  import opened Calls
  import opened Joins

  // ------------------------------------- what each step does to these tables

  function ClientsAfter(st: State, e: Event): map<ClientId, Client> {
    match e
    case Hello(client, group, node, session, _) =>
      if session && Driven(st, group, client) then st.clients
      else st.clients[client := HelloRow(st, client, group, node, session)]
    case SessionClosed(client, _) => st.clients - {client}
    case ConnClosed(client) =>
      if client in st.clients && !st.clients[client].hasSession then st.clients - {client} else st.clients
    case _ => st.clients
  }

  function PendingAfter(st: State, cfg: Config, e: Event): map<ClientId, nat> {
    match e
    case SessionClosed(client, _) =>
      if cfg.graceMs == 0 then st.reapPending - {client} else st.reapPending[client := st.nextReap]
    case ReapTimer(client, token, _) =>
      if client in st.reapPending && st.reapPending[client] == token then st.reapPending - {client} else st.reapPending
    case _ => st.reapPending
  }

  function ClaimsAfter(st: State, cfg: Config, e: Event): map<(Group, Name), Claim> {
    match e
    case ClaimName(client, name, shape, net) => TakeClaim(st, client, name, shape, net).claims
    case SessionClosed(client, _) => if cfg.graceMs == 0 then Released(st.claims, client) else st.claims
    case ReapTimer(client, token, _) => if Reaps(st, client, Some(token)) then Released(st.claims, client) else st.claims
    case _ => st.claims
  }

  ghost predicate SameDesk(st: State, st': State) {
    st'.clients == st.clients && st'.reapPending == st.reapPending && st'.nextReap == st.nextReap && st'.claims == st.claims
  }

  lemma DiedDesk(st: State, st': State, ids: set<ActorId>, now: nat)
    requires Died(st, st', ids, now)
    ensures SameDesk(st, st')
  {
  }

  lemma TryPlaceDesk(st: State, cfg: Config, ord: Order)
    ensures SameDesk(st, TryPlace(st, cfg, ord))
  {
    hide TryPlace;
    TryPlaceOnlyPlaces(st, cfg, ord);
  }

  lemma MarkDeadDesk(st: State, cfg: Config, ord: Order, now: nat, a: ActorId)
    ensures SameDesk(st, MarkDead(st, cfg, ord, now, a))
  {
    hide MarkDead, SameDesk, Died;
    MarkDeadDied(st, cfg, ord, now, a);
    DiedDesk(st, MarkDead(st, cfg, ord, now, a), {a}, now);
  }

  lemma ReapDesk(st: State, cfg: Config, ord: Order, now: nat, client: ClientId, token: Option<nat>, reached: set<ActorId>)
    ensures var st' := Reap(st, cfg, ord, now, client, token, reached);
            st'.clients == st.clients && st'.nextReap == st.nextReap &&
            st'.claims == (if Reaps(st, client, token) then Released(st.claims, client) else st.claims) &&
            st'.reapPending ==
              if token.Some? && !(client in st.reapPending && st.reapPending[client] == token.value) then st.reapPending
              else st.reapPending - {client}
  {
    hide KillAll, TryPlace, Released;
    if Reaps(st, client, token) {
      var ids := ord(OwnedBy(st, client));
      var s := ReapStart(st, client, now);
      KillAllDied(s, cfg, ord, now, ids, reached);
      var killed := KillAll(s, cfg, ord, now, ids, reached);
      DiedDesk(s, killed, SetOf(ids), now);
      TryPlaceDesk(killed.(refs := RefsOfOthers(killed.refs, client)), cfg, ord);
    }
  }

  lemma RegisterDesk(st: State, cfg: Config, ord: Order, now: nat, agent: AgentId, group: Group, node: NodeId,
                     gpus: seq<nat>, resume: seq<Resumed>, unacked: seq<RefId>, through: nat)
    ensures SameDesk(st, Registered(st, cfg, ord, now, agent, group, node, gpus, resume, unacked, through))
  {
    hide MarkAll, TryPlace, Reported, Missing, Kills, Died, Lost, Drains, Adopt, AdoptRefs;
    var r := RegisterRow(st, agent, group, node, gpus);
    var t := r.(actors := Adopt(r.actors, resume, group, agent, node));
    AdoptRefsFrame(t, agent, Reported(resume, unacked));
    var s := TakeOn(st, agent, group, node, gpus, resume, unacked);
    var ids := ord(Missing(s, agent, resume));
    MarkAllDied(s, cfg, ord, now, ids);
    var alive := MarkAll(s, cfg, ord, now, ids);
    DiedDesk(s, alive, SetOf(ids), now);
    var settled := FailLost(alive, agent, Reported(resume, unacked));
    var flushed := Flush(settled, ord, agent, st.nextSeq, Kills(st, resume), through);
    TryPlaceDesk(flushed, cfg, ord);
  }

  lemma SweepDesk(st: State, cfg: Config, ord: Order, now: nat)
    requires IsOrder(ord)
    ensures SameDesk(st, SweepAll(st, cfg, ord, now))
  {
    hide GiveUpAll, IsOrder, Died, GivenUp, OnAgents, AnythingOld, TimedOut;
    var s := st.(pgs := TimedOut(st.pgs, cfg, now));
    var f := Forget(s, cfg, now);
    var agents := ord(GivenUp(s, cfg, now));
    GiveUpDied(f, cfg, ord, now, agents);
    DiedDesk(f, GiveUpAll(f, cfg, ord, now, agents), OnAgents(f, SetOf(agents)), now);
  }

  lemma GreetDesk(st: State, cfg: Config, ord: Order, now: nat, client: ClientId, group: Group, node: NodeId,
                  session: bool, reached: set<ActorId>)
    ensures var st' := Greet(st, cfg, ord, now, client, group, node, session, reached);
            st'.reapPending == st.reapPending && st'.nextReap == st.nextReap && st'.claims == st.claims &&
            st'.clients == (if session && Driven(st, group, client) then st.clients
                            else st.clients[client := HelloRow(st, client, group, node, session)])
  {
    hide KillAll, HelloRow, Driven;
    var s := st.(clients := st.clients[client := HelloRow(st, client, group, node, session)]);
    var ids := ord(Orphans(st, group, client));
    KillAllDied(s, cfg, ord, now, ids, reached);
    DiedDesk(s, KillAll(s, cfg, ord, now, ids, reached), SetOf(ids), now);
  }

  lemma OtherDesk(st: State, cfg: Config, ord: Order, now: nat, e: Event)
    requires e.PgCreate? || e.PgRemove? || e.ActorCreate? || e.ActorKill? || e.SpawnResult? || e.ActorExit?
    ensures SameDesk(st, Apply(st, cfg, ord, now, e))
  {
    hide TryPlace, MarkDead, Creatable;
    match e
    case PgCreate(client, pg, bundles, claim) =>
      var row := Pg(ClientGroup(st, client), client, bundles, claim, NoBundles(|bundles|), Pending, now, None);
      TryPlaceDesk(st.(pgs := st.pgs[pg := row]), cfg, ord);
    case PgRemove(pg) =>
      TryPlaceDesk(if pg in st.pgs then st.(pgs := st.pgs[pg := RemovedRow(st.pgs[pg], now)]) else st, cfg, ord);
    case ActorCreate(client, a, name, n, pg, i, ok) => CreateActorDesk(st, cfg, ord, now, client, a, name, n, pg, i, ok);
    case ActorKill(a, ok) => MarkDeadDesk(st, cfg, ord, now, a);
    case SpawnResult(a, ok) => MarkDeadDesk(st, cfg, ord, now, a);
    case ActorExit(a) => MarkDeadDesk(st, cfg, ord, now, a);
  }

  lemma CreateActorDesk(st: State, cfg: Config, ord: Order, now: nat, client: ClientId, a: ActorId, name: Name,
                        numGpus: nat, pg: PgId, index: nat, delivered: bool)
    ensures SameDesk(st, CreateActor(st, cfg, ord, now, client, a, name, numGpus, pg, index, delivered))
  {
    hide MarkDead;
    var group := ClientGroup(st, client);
    if Creatable(st, group, name, numGpus, pg, index) {
      var b := st.pgs[pg].assignment[index].value;
      var row := Actor(name, group, b.agent, b.node, b.gpuIds, client, Spawning, [], Some(pg));
      MarkDeadDesk(st.(actors := st.actors[a := row]), cfg, ord, now, a);
    }
  }

  lemma CloseSessionDesk(st: State, cfg: Config, ord: Order, now: nat, client: ClientId, reached: set<ActorId>)
    ensures var st' := CloseSession(st, cfg, ord, now, client, reached);
            st'.clients == st.clients - {client} && st.nextReap <= st'.nextReap &&
            (cfg.graceMs == 0 ==> st'.reapPending == st.reapPending - {client} && st'.claims == Released(st.claims, client)) &&
            (cfg.graceMs != 0 ==> st'.reapPending == st.reapPending[client := st.nextReap] && st'.claims == st.claims &&
                                  st'.nextReap == st.nextReap + 1)
  {
    hide Reap, Released;
    var s := st.(clients := st.clients - {client});
    ReapDesk(s, cfg, ord, now, client, None, reached);
  }

  lemma CallDesk(st: State, client: ClientId, a: ActorId, body: nat, delivered: bool)
    ensures SameDesk(st, MakeCall(st, client, a, body, delivered))
  {
    match FateOf(st, a, delivered)
    case NoActor =>
    case TooLate =>
    case Hold =>
    case SendFails =>
    case Goes =>
  }

  lemma SmallDesk(st: State, now: nat, e: Event)
    ensures e.LinkLost? ==> SameDesk(st, LoseLink(st, now, e.agent, e.conn))
    ensures e.ActorResult? ==> SameDesk(st, Resolve(st, e.ref, e.ok, e.payload, e.error))
    ensures e.ClaimName? ==>
              var s := TakeClaim(st, e.client, e.name, e.shape, e.net);
              s.clients == st.clients && s.reapPending == st.reapPending && s.nextReap == st.nextReap
    ensures e.ConnClosed? ==>
              var s := CloseConn(st, e.client);
              s.clients == ClientsAfter(st, e) && s.reapPending == st.reapPending && s.nextReap == st.nextReap &&
              s.claims == st.claims
  {
    hide Solve, ClientGroup, SameDesk;
    UntouchedSteps(st, now, e);
    if e.LinkLost? {
      DeskSame(st, LoseLink(st, now, e.agent, e.conn));
    }
    if e.ActorResult? {
      ResolveIs(st, e.ref, e.ok, e.payload, e.error);
      DeskSame(st, Resolve(st, e.ref, e.ok, e.payload, e.error));
    }
  }

  lemma DeskSame(st: State, s: State)
    requires s.clients == st.clients && s.reapPending == st.reapPending && s.nextReap == st.nextReap && s.claims == st.claims
    ensures SameDesk(st, s)
  {
  }

  ghost predicate DeskIs(st: State, cfg: Config, e: Event, st': State) {
    st'.clients == ClientsAfter(st, e) && st'.reapPending == PendingAfter(st, cfg, e) &&
    st'.claims == ClaimsAfter(st, cfg, e) && st.nextReap <= st'.nextReap &&
    (e.SessionClosed? && cfg.graceMs != 0 ==> st'.nextReap == st.nextReap + 1)
  }

  /** The clients, pending reaps and claims after any step. */
  lemma DeskAfter(st: State, cfg: Config, ord: Order, now: nat, e: Event)
    requires IsOrder(ord)
    ensures DeskIs(st, cfg, e, Apply(st, cfg, ord, now, e))
  {
    hide IsOrder, CreatePg, RemovePg, CreateActor, KillActor, Greet, CloseSession, Reap, Registered, MarkDead,
         SweepAll, MakeCall, Driven, HelloRow, Released, TakeClaim, LoseLink, Resolve, CloseConn, Spawned, HasSession;
    SmallDesk(st, now, e);
    match e
    case ActorCall(client, a, body, ok) => CallDesk(st, client, a, body, ok);
    case ClaimName(client, name, shape, net) =>
    case Hello(client, group, node, session, reached) => GreetDesk(st, cfg, ord, now, client, group, node, session, reached);
    case SessionClosed(client, reached) => CloseSessionDesk(st, cfg, ord, now, client, reached);
    case ConnClosed(client) =>
    case ReapTimer(client, token, reached) => ReapDesk(st, cfg, ord, now, client, Some(token), reached);
    case Register(agent, group, node, gpus, resume, unacked, through) =>
      RegisterDesk(st, cfg, ord, now, agent, group, node, gpus, resume, unacked, through);
    case LinkLost(agent, conn) =>
    case ActorResult(r, ok, payload, error) =>
    case Sweep => SweepDesk(st, cfg, ord, now);
    case FabricsDerived(islands, tagged) =>
    case _ => OtherDesk(st, cfg, ord, now, e);
  }

  // ------------------------------------------------------------ one session

  /** A group has at most one driver session. */
  ghost predicate OneSession(st: State) {
    forall c, d :: HasSession(st, c) && HasSession(st, d) && st.clients[c].group == st.clients[d].group ==> c == d
  }

  /** The one step that can give a group two sessions: another connection of a
      client that holds a session names a group somebody else drives. */
  predicate MovesSession(st: State, e: Event) {
    e.Hello? && !e.session && HasSession(st, e.client) && Driven(st, e.group, e.client)
  }

  /** One session per group is kept by exactly the steps that are not such a
      hello. */
  lemma OneSessionExactly(st: State, cfg: Config, ord: Order, now: nat, e: Event)
    requires OneSession(st) && IsOrder(ord)
    ensures OneSession(Apply(st, cfg, ord, now, e)) <==> !MovesSession(st, e)
  {
    hide Apply, IsOrder;
    DeskAfter(st, cfg, ord, now, e);
    var st' := Apply(st, cfg, ord, now, e);
    if MovesSession(st, e) {
      var c :| c in st.clients && c != e.client && st.clients[c].group == e.group && st.clients[c].hasSession;
      assert st'.clients[c] == st.clients[c] && st'.clients[e.client].hasSession;
    }
  }

  /** With every connection of a client naming one group, every run keeps one
      session per group. */
  lemma {:induction false} EveryRunOneSession(cfg: Config, start: nat, steps: seq<Step>)
    requires SaneRun(cfg, start, steps)
    requires forall i :: 0 <= i < |steps| ==> !MovesSession(After(cfg, start, steps[..i]), steps[i].event)
    ensures OneSession(After(cfg, start, steps))
    decreases |steps|
  {
    hide Apply;
    if steps != [] {
      var n := |steps| - 1;
      SanePrefix(cfg, start, steps, n);
      forall i | 0 <= i < n ensures !MovesSession(After(cfg, start, steps[..n][..i]), steps[..n][i].event) {
        assert steps[..n][..i] == steps[..i];
      }
      EveryRunOneSession(cfg, start, steps[..n]);
      assert SaneAt(cfg, start, steps, n);
      OneSessionExactly(After(cfg, start, steps[..n]), cfg, steps[n].ord, steps[n].now, steps[n].event);
    }
  }

  const TWO_DRIVERS := Fresh(0).(clients := map[1 := Client(10, 0, true), 2 := Client(20, 0, true)])

  /** Two drivers of two groups, and a worker connection of the first that names
      the second's group: that group has two sessions. */
  lemma SessionCanMove(cfg: Config, ord: Order)
    requires IsOrder(ord)
    ensures OneSession(TWO_DRIVERS) && !OneSession(Apply(TWO_DRIVERS, cfg, ord, 0, Hello(1, 20, 0, false, {})))
  {
    hide Apply, IsOrder;
    assert 2 in TWO_DRIVERS.clients;
    OneSessionExactly(TWO_DRIVERS, cfg, ord, 0, Hello(1, 20, 0, false, {}));
  }

  // ------------------------------------------------------ the latest disconnect

  /** Step `i` closed the client's session and handed out the token, and no later
      step before `n` closed one of its sessions. */
  ghost predicate LatestClose(cfg: Config, start: nat, steps: seq<Step>, client: ClientId, token: nat, n: nat, i: nat) {
    i < n <= |steps| && ClosesAt(steps, client, i) && After(cfg, start, steps[..i]).nextReap == token &&
    forall k :: i < k < n ==> !ClosesAt(steps, client, k)
  }

  predicate ClosesAt(steps: seq<Step>, client: ClientId, i: nat)
    requires i < |steps|
  {
    steps[i].event.SessionClosed? && steps[i].event.client == client
  }

  /** A reap is pending after a step because the step closed the client's session,
      or because it was pending before under the same token. */
  lemma PendingStep(st: State, cfg: Config, ord: Order, now: nat, e: Event, client: ClientId)
    requires IsOrder(ord) && client in Apply(st, cfg, ord, now, e).reapPending
    ensures var token := Apply(st, cfg, ord, now, e).reapPending[client];
            if e.SessionClosed? && e.client == client then token == st.nextReap
            else client in st.reapPending && st.reapPending[client] == token
  {
    hide Apply, IsOrder, ClientsAfter, ClaimsAfter;
    DeskAfter(st, cfg, ord, now, e);
  }

  /** A pending reap's token is always that of the client's latest disconnect. */
  lemma {:induction false} PendingIsLatest(cfg: Config, start: nat, steps: seq<Step>, client: ClientId, n: nat)
    requires SaneRun(cfg, start, steps) && n <= |steps|
    requires client in After(cfg, start, steps[..n]).reapPending
    ensures exists i :: LatestClose(cfg, start, steps, client, After(cfg, start, steps[..n]).reapPending[client], n, i)
    decreases n
  {
    hide Apply;
    if n > 0 {
      assert SaneAt(cfg, start, steps, n - 1);
      hide After, SaneRun;
      LastStep(cfg, start, steps, n - 1);
      var token := After(cfg, start, steps[..n]).reapPending[client];
      PendingStep(After(cfg, start, steps[..n - 1]), cfg, steps[n - 1].ord, steps[n - 1].now, steps[n - 1].event, client);
      if ClosesAt(steps, client, n - 1) {
        assert LatestClose(cfg, start, steps, client, token, n, n - 1);
      } else {
        PendingIsLatest(cfg, start, steps, client, n - 1);
        var i :| LatestClose(cfg, start, steps, client, token, n - 1, i);
        assert LatestClose(cfg, start, steps, client, token, n, i);
      }
    }
  }

  lemma {:induction false} TokensGrow(cfg: Config, start: nat, steps: seq<Step>, i: nat, j: nat)
    requires SaneRun(cfg, start, steps) && i <= j <= |steps|
    ensures After(cfg, start, steps[..i]).nextReap <= After(cfg, start, steps[..j]).nextReap
    decreases j - i
  {
    hide Apply, After;
    if i < j {
      TokensGrow(cfg, start, steps, i, j - 1);
      assert SaneAt(cfg, start, steps, j - 1);
      LastStep(cfg, start, steps, j - 1);
      DeskAfter(After(cfg, start, steps[..j - 1]), cfg, steps[j - 1].ord, steps[j - 1].now, steps[j - 1].event);
    }
  }

  lemma CloseMovesToken(cfg: Config, start: nat, steps: seq<Step>, client: ClientId, i: nat, x: nat)
    requires SaneRun(cfg, start, steps) && cfg.graceMs != 0 && i < x <= |steps| && ClosesAt(steps, client, i)
    ensures After(cfg, start, steps[..i]).nextReap < After(cfg, start, steps[..x]).nextReap
  {
    hide Apply, After;
    assert SaneAt(cfg, start, steps, i);
    LastStep(cfg, start, steps, i);
    DeskAfter(After(cfg, start, steps[..i]), cfg, steps[i].ord, steps[i].now, steps[i].event);
    TokensGrow(cfg, start, steps, i + 1, x);
  }

  /** In every run, the timer of a disconnect that a later one of the same client
      followed changes nothing at all. */
  lemma StaleTimerDoesNothing(cfg: Config, start: nat, steps: seq<Step>, client: ClientId, i: nat, k: nat, j: nat, reached: set<ActorId>)
    requires SaneRun(cfg, start, steps) && cfg.graceMs != 0 && i < k < j < |steps|
    requires ClosesAt(steps, client, i) && ClosesAt(steps, client, k)
    requires steps[j].event == ReapTimer(client, After(cfg, start, steps[..i]).nextReap, reached)
    ensures After(cfg, start, steps[..j + 1]) == After(cfg, start, steps[..j])
  {
    hide After, SaneRun, KillAll, TryPlace;
    var token := After(cfg, start, steps[..i]).nextReap;
    var st := After(cfg, start, steps[..j]);
    LastStep(cfg, start, steps, j);
    if client in st.reapPending && st.reapPending[client] == token {
      PendingIsLatest(cfg, start, steps, client, j);
      var x :| LatestClose(cfg, start, steps, client, token, j, x);
      CloseMovesToken(cfg, start, steps, client, i, x);
      assert false;
    }
  }

  // ------------------------------------------------------ who gets killed

  /** Among the frames added, one kills `a`. */
  ghost predicate KillAdded(st: State, st': State, a: ActorId) {
    exists i :: |st.sent| <= i < |st'.sent| && st'.sent[i].msg == Kill(a)
  }

  /** Asking for a kill works: the frame goes out when the agent is up and the
      write succeeds, and the actor is dead at once when the agent is down. */
  lemma {:induction false} KillAllKills(st: State, cfg: Config, ord: Order, now: nat, ids: seq<ActorId>, reached: set<ActorId>, a: ActorId)
    requires a in ids && a in st.actors && Live(st.actors[a])
    ensures var st' := KillAll(st, cfg, ord, now, ids, reached);
            a in st'.actors &&
            (if AgentUp(st, st.actors[a].agent) then a in reached ==> KillAdded(st, st', a)
             else !Live(st'.actors[a]))
    decreases |ids|
  {
    var n := |ids| - 1;
    var s := KillAll(st, cfg, ord, now, ids[..n], reached);
    var st' := KillAll(st, cfg, ord, now, ids, reached);
    KillAllDied(st, cfg, ord, now, ids[..n], reached);
    KillActorDied(s, cfg, ord, now, ids[n], ids[n] in reached);
    if a in ids[..n] {
      KillAllKills(st, cfg, ord, now, ids[..n], reached, a);
      if AgentUp(st, st.actors[a].agent) && a in reached {
        var i :| |st.sent| <= i < |s.sent| && s.sent[i].msg == Kill(a);
        assert st'.sent[i] == st'.sent[..|s.sent|][i];
      }
    } else {
      assert ids[n] == a;
      if AgentUp(st, st.actors[a].agent) {
        UpStaysLive(st, cfg, ord, now, ids[..n], reached, a);
        if a in reached {
          assert st'.sent[|s.sent|].msg == Kill(a);
        }
      } else {
        MarkDeadDied(s, cfg, ord, now, a);
      }
    }
  }

  lemma {:induction false} UpStaysLive(st: State, cfg: Config, ord: Order, now: nat, ids: seq<ActorId>, reached: set<ActorId>, a: ActorId)
    requires a in st.actors && AgentUp(st, st.actors[a].agent)
    ensures var st' := KillAll(st, cfg, ord, now, ids, reached); a in st'.actors && st'.actors[a] == st.actors[a]
    decreases |ids|
  {
    if ids != [] {
      var n := |ids| - 1;
      UpStaysLive(st, cfg, ord, now, ids[..n], reached, a);
      KillAllDied(st, cfg, ord, now, ids[..n], reached);
      KillActorDied(KillAll(st, cfg, ord, now, ids[..n], reached), cfg, ord, now, ids[n], ids[n] in reached);
    }
  }

  /** A new session touches exactly the orphans. It spares every actor whose
      owner has a session or is inside its grace, and every orphan is sent a
      kill or, with its agent down, is dead. */
  lemma SessionKillsExactly(st: State, cfg: Config, ord: Order, now: nat, e: Event, a: ActorId)
    requires IsOrder(ord) && e.Hello? && e.session && !Driven(st, e.group, e.client) && a in st.actors
    ensures var st' := Apply(st, cfg, ord, now, e);
            a in st'.actors &&
            (if !Orphan(st, e.group, e.client, a) then st'.actors[a] == st.actors[a] && !KillAdded(st, st', a)
             else if AgentUp(st, st.actors[a].agent) then a in e.reached ==> KillAdded(st, st', a)
             else !Live(st'.actors[a]))
  {
    var s := st.(clients := st.clients[e.client := HelloRow(st, e.client, e.group, e.node, e.session)]);
    var ids := ord(Orphans(st, e.group, e.client));
    KillAllDied(s, cfg, ord, now, ids, e.reached);
    assert a in ids <==> Orphan(st, e.group, e.client, a);
    hide KillAll, IsOrder, HelloRow;
    if Orphan(st, e.group, e.client, a) {
      KillAllKills(s, cfg, ord, now, ids, e.reached, a);
      SameFrames(st, s, KillAll(s, cfg, ord, now, ids, e.reached), a);
    }
  }

  lemma SameFrames(st: State, s: State, st': State, a: ActorId)
    requires s.sent == st.sent
    ensures KillAdded(s, st', a) == KillAdded(st, st', a)
  {
  }

  /** A reap goes ahead only when the client has no session and, for a timer, it
      holds the latest disconnect's token. It then takes everything the client
      had: its claims, its groups, its calls, and each of its live actors, sent
      a kill or dead. Actors of others are untouched. */
  lemma ReapTakesAll(st: State, cfg: Config, ord: Order, now: nat, client: ClientId, token: Option<nat>, reached: set<ActorId>)
    requires IsOrder(ord)
    ensures var st' := Reap(st, cfg, ord, now, client, token, reached);
            (!Reaps(st, client, token) ==> st' == st.(reapPending := st'.reapPending)) &&
            (Reaps(st, client, token) ==>
               (forall k :: k in st'.claims ==> client !in st'.claims[k].holders) &&
               (forall p :: p in st'.pgs && st'.pgs[p].owner == client ==> st'.pgs[p].state == Removed) &&
               (forall r :: r in st'.refs ==> st'.refs[r].owner != client))
  {
    hide KillAll, TryPlace, IsOrder;
    if Reaps(st, client, token) {
      var s := ReapStart(st, client, now);
      var ids := ord(OwnedBy(st, client));
      KillAllDied(s, cfg, ord, now, ids, reached);
      var killed := KillAll(s, cfg, ord, now, ids, reached);
      var t := killed.(refs := RefsOfOthers(killed.refs, client));
      TryPlaceOnlyPlaces(t, cfg, ord);
      ReapDesk(st, cfg, ord, now, client, token, reached);
    }
  }

  lemma ReapKillsExactly(st: State, cfg: Config, ord: Order, now: nat, client: ClientId, token: Option<nat>,
                         reached: set<ActorId>, a: ActorId)
    requires IsOrder(ord) && a in st.actors
    ensures var st' := Reap(st, cfg, ord, now, client, token, reached);
            a in st'.actors &&
            (if !Reaps(st, client, token) || st.actors[a].owner != client || !Live(st.actors[a])
             then st'.actors[a] == st.actors[a] && !KillAdded(st, st', a)
             else if AgentUp(st, st.actors[a].agent) then a in reached ==> KillAdded(st, st', a)
             else !Live(st'.actors[a]))
  {
    if Reaps(st, client, token) {
      var s := ReapStart(st, client, now);
      var ids := ord(OwnedBy(st, client));
      assert a in ids <==> st.actors[a].owner == client && Live(st.actors[a]);
      hide KillAll, TryPlace, IsOrder, ReapStart;
      ReapStartFrame(st, client, now);
      KillAllDied(s, cfg, ord, now, ids, reached);
      var killed := KillAll(s, cfg, ord, now, ids, reached);
      var t := killed.(refs := RefsOfOthers(killed.refs, client));
      TryPlaceOnlyPlaces(t, cfg, ord);
      if a in ids {
        KillAllKills(s, cfg, ord, now, ids, reached, a);
        SameFrames(st, s, killed, a);
        SameFrames2(st, killed, TryPlace(t, cfg, ord), a);
      }
    }
  }

  lemma ReapStartFrame(st: State, client: ClientId, now: nat)
    ensures var s := ReapStart(st, client, now); s.actors == st.actors && s.agents == st.agents && s.sent == st.sent
  {
  }

  lemma SameFrames2(st: State, s: State, st': State, a: ActorId)
    requires s.sent == st'.sent
    ensures KillAdded(st, s, a) == KillAdded(st, st', a)
  {
  }

  // ------------------------------------------ registration does not wait

  lemma {:induction false} KillsAre(st: State, resume: seq<Resumed>, a: ActorId)
    ensures Kill(a) in Kills(st, resume) <==>
            exists k :: 0 <= k < |resume| && resume[k].actor == a && Rejected(st, resume[k])
    decreases |resume|
  {
    hide Rejected;
    if resume != [] {
      var n := |resume| - 1;
      KillsAre(st, resume[..n], a);
      if Kill(a) in Kills(st, resume[..n]) {
        var k :| 0 <= k < n && resume[..n][k].actor == a && Rejected(st, resume[..n][k]);
        assert resume[k].actor == a && Rejected(st, resume[k]);
      }
      if k :| 0 <= k < |resume| && resume[k].actor == a && Rejected(st, resume[k]) {
        if k < n {
          assert resume[..n][k].actor == a && Rejected(st, resume[..n][k]);
        }
      }
    }
  }

  lemma {:induction false} DrainsAreCalls(st: State, ids: seq<ActorId>)
    ensures forall i :: 0 <= i < |Drains(st, ids)| ==> Drains(st, ids)[i].Dispatch?
    decreases |ids|
  {
    if ids != [] { DrainsAreCalls(st, ids[..|ids| - 1]); }
  }

  /** When an agent comes back with a live actor known here, over a connection that
      takes every frame, a kill of the actor is written exactly when its owner has
      no row. A pending reap does not protect it: the row goes when the session
      closes, so an actor inside its owner's grace is killed unless some connection
      of the owner is open. */
  lemma ResumedKilledExactly(st: State, cfg: Config, ord: Order, now: nat, e: Event, a: ActorId)
    requires e.Register? && a in st.actors && Live(st.actors[a]) && Resumes(e.resume, a)
    requires e.through >= |FlushFrames(st, cfg, ord, now, e.agent, e.group, e.node, e.gpus, e.resume, e.unacked)|
    ensures KillAdded(st, Apply(st, cfg, ord, now, e), a) <==> st.actors[a].owner !in st.clients
  {
    hide FlushFrames, Registered, Kills, Rejected, KillAdded;
    AllFramesOut(st, cfg, ord, now, e.agent, e.group, e.node, e.gpus, e.resume, e.unacked, e.through);
    KillsFlushed(st, cfg, ord, now, e, a);
    RejectedHere(st, e.resume, a);
    KillsAre(st, e.resume, a);
    AddedIs(st, Apply(st, cfg, ord, now, e), e.agent,
            FlushFrames(st, cfg, ord, now, e.agent, e.group, e.node, e.gpus, e.resume, e.unacked), a);
  }

  /** A live actor known here is refused exactly when its owner has no row. */
  lemma RejectedHere(st: State, resume: seq<Resumed>, a: ActorId)
    requires a in st.actors && Live(st.actors[a]) && Resumes(resume, a)
    ensures (exists k :: 0 <= k < |resume| && resume[k].actor == a && Rejected(st, resume[k])) <==>
            st.actors[a].owner !in st.clients
  {
  }

  /** Of the frames to write only those for refused actors are kills. */
  lemma KillsFlushed(st: State, cfg: Config, ord: Order, now: nat, e: Event, a: ActorId)
    requires e.Register?
    ensures Kill(a) in FlushFrames(st, cfg, ord, now, e.agent, e.group, e.node, e.gpus, e.resume, e.unacked) <==>
            Kill(a) in Kills(st, e.resume)
  {
    hide Kills, Settled, Drains;
    var t := Settled(st, cfg, ord, now, e.agent, e.group, e.node, e.gpus, e.resume, e.unacked);
    DrainsAreCalls(t, ord(DrainIds(t, e.agent)));
  }

  /** A kill is added to the history exactly when it is among the frames written. */
  lemma AddedIs(st: State, st': State, agent: AgentId, frames: seq<HeadMsg>, a: ActorId)
    requires st'.sent == st.sent + OnConn(agent, st.nextSeq, frames)
    ensures KillAdded(st, st', a) <==> Kill(a) in frames
  {
    if Kill(a) in frames {
      var i :| 0 <= i < |frames| && frames[i] == Kill(a);
      assert st'.sent[|st.sent| + i].msg == Kill(a);
    }
    if KillAdded(st, st', a) {
      var i :| |st.sent| <= i < |st'.sent| && st'.sent[i].msg == Kill(a);
      assert frames[i - |st.sent|] == Kill(a);
    }
  }

  // ---- a run in which it does

  const BACK := Resumed(7, 0, [], 5, [])

  /** An agent brings an actor to a new head, its driver opens a session and closes
      it, and inside the grace the agent's link is lost and comes back. */
  function Blip(ord: Order): seq<Step> {
    [Step(0, ord, Register(1, 0, 0, [], [BACK], [], 0)),
     Step(1, ord, Hello(5, 0, 0, true, {})),
     Step(2, ord, SessionClosed(5, {})),
     Step(3, ord, LinkLost(1, 1)),
     Step(4, ord, Register(1, 0, 0, [], [BACK], [], 1))]
  }

  /** Nothing placed, nothing called, nothing held. */
  ghost predicate Bare(st: State) {
    st.pgs == map[] && st.refs == map[] && forall a :: a in st.actors ==> st.actors[a].queued == []
  }

  lemma BareTryPlace(st: State, cfg: Config, ord: Order)
    requires Bare(st) && IsOrder(ord)
    ensures TryPlace(st, cfg, ord) == st
  {
    OrderOfNone(ord);
    assert st.pgs.Keys == {};
  }

  lemma {:induction false} BareDrains(st: State, ids: seq<ActorId>)
    requires Bare(st)
    ensures Drains(st, ids) == []
    decreases |ids|
  {
    if ids != [] { BareDrains(st, ids[..|ids| - 1]); }
  }

  lemma BareTakeOn(st: State, agent: AgentId, group: Group, node: NodeId, gpus: seq<nat>, resume: seq<Resumed>)
    requires Bare(st) && Pendings(resume) == []
    requires forall a :: a in st.actors ==> Resumes(resume, a)
    ensures var s := TakeOn(st, agent, group, node, gpus, resume, []);
            Bare(s) && Missing(s, agent, resume) == {} &&
            s == RegisterRow(st, agent, group, node, gpus).(actors := Adopt(st.actors, resume, group, agent, node))
  {
    hide Adopt;
    assert Reported(resume, []) == [];
    TakeOnRowsAre(st, agent, group, node, gpus, resume, []);
  }

  lemma BareSettles(st: State, cfg: Config, ord: Order, now: nat, agent: AgentId, group: Group, node: NodeId,
                    gpus: seq<nat>, resume: seq<Resumed>)
    requires Bare(st) && IsOrder(ord) && Pendings(resume) == []
    requires forall a :: a in st.actors ==> Resumes(resume, a)
    ensures Settled(st, cfg, ord, now, agent, group, node, gpus, resume, []) == TakeOn(st, agent, group, node, gpus, resume, [])
  {
    hide TakeOn, IsOrder, MarkDead, Reported;
    var s := TakeOn(st, agent, group, node, gpus, resume, []);
    BareTakeOn(st, agent, group, node, gpus, resume);
    OrderOfNone(ord);
    hide Missing;
    assert MarkAll(s, cfg, ord, now, ord(Missing(s, agent, resume))) == s;
    hide MarkAll;
    assert FailLost(s, agent, Reported(resume, [])).refs == map[];
  }

  lemma BareFlush(st: State, ord: Order, agent: AgentId, conn: nat, kills: seq<HeadMsg>, through: nat)
    requires Bare(st)
    ensures var f := Flush(st, ord, agent, conn, kills, through);
            f == st.(sent := f.sent, failed := f.failed) && kills + Drains(st, ord(DrainIds(st, agent))) == kills
  {
    hide Drains;
    BareDrains(st, ord(DrainIds(st, agent)));
    assert Emptied(st, agent) == st.actors;
  }

  /** Registering with a bare head, every actor of the agent resumed. */
  lemma BareRegister(st: State, cfg: Config, ord: Order, now: nat, agent: AgentId, group: Group, node: NodeId,
                     gpus: seq<nat>, resume: seq<Resumed>, through: nat)
    requires Bare(st) && IsOrder(ord) && Pendings(resume) == []
    requires forall a :: a in st.actors ==> Resumes(resume, a)
    ensures var st' := Registered(st, cfg, ord, now, agent, group, node, gpus, resume, [], through);
            Bare(st') && st'.actors == Adopt(st.actors, resume, group, agent, node) && st'.clients == st.clients &&
            st'.agents == st.agents[agent := Agent(group, node, gpus, true, None, None, st.nextSeq)]
    ensures FlushFrames(st, cfg, ord, now, agent, group, node, gpus, resume, []) == Kills(st, resume)
  {
    hide Registered, TakeOn, Settled, Flush, TryPlace, Kills, Drains, Adopt, IsOrder, Missing;
    var s := TakeOn(st, agent, group, node, gpus, resume, []);
    BareTakeOn(st, agent, group, node, gpus, resume);
    BareSettles(st, cfg, ord, now, agent, group, node, gpus, resume);
    BareFlush(s, ord, agent, st.nextSeq, Kills(st, resume), through);
    RegisteredIs(st, cfg, ord, now, agent, group, node, gpus, resume, [], through);
    BareTryPlace(Flush(s, ord, agent, st.nextSeq, Kills(st, resume), through), cfg, ord);
  }

  lemma SomethingIn(s: seq<nat>)
    requires s != []
    ensures exists x :: x in s
  {
    assert s[0] in s;
  }

  lemma OrderOfNone(ord: Order)
    requires IsOrder(ord)
    ensures ord({}) == []
  {
    if ord({}) != [] { SomethingIn(ord({})); }
  }

  /** The tables just before the agent comes back. */
  ghost predicate BlipState(st: State) {
    Bare(st) && st.actors.Keys == {7} && Live(st.actors[7]) && st.actors[7].owner == 5 &&
    5 in st.reapPending && 5 !in st.clients
  }

  /** The actor adopted, nothing else in the tables. */
  ghost predicate Adopted(st: State) {
    Bare(st) && st.actors.Keys == {7} && Live(st.actors[7]) && st.actors[7].owner == 5
  }

  lemma BlipAdopts(cfg: Config, ord: Order)
    requires IsOrder(ord)
    ensures Adopted(Apply(Fresh(0), cfg, ord, 0, Register(1, 0, 0, [], [BACK], [], 0)))
    ensures Apply(Fresh(0), cfg, ord, 0, Register(1, 0, 0, [], [BACK], [], 0)).clients == map[]
  {
    hide Registered, IsOrder, FlushFrames;
    BareRegister(Fresh(0), cfg, ord, 0, 1, 0, 0, [], [BACK], 0);
    assert [BACK][..0] == [];
  }

  lemma BlipGreets(st: State, cfg: Config, ord: Order)
    requires IsOrder(ord) && Adopted(st) && st.clients == map[]
    ensures Adopted(Apply(st, cfg, ord, 1, Hello(5, 0, 0, true, {})))
  {
    assert Orphans(st, 0, 5) == {};
    OrderOfNone(ord);
  }

  lemma BlipCloses(st: State, cfg: Config, ord: Order)
    requires cfg.graceMs != 0 && Adopted(st)
    ensures BlipState(Apply(st, cfg, ord, 2, SessionClosed(5, {})))
  {
  }

  lemma BlipLoses(st: State, cfg: Config, ord: Order)
    requires BlipState(st)
    ensures BlipState(Apply(st, cfg, ord, 3, LinkLost(1, 1)))
  {
  }

  lemma BlipOpens(cfg: Config, ord: Order)
    requires IsOrder(ord)
    ensures Adopted(After(cfg, 0, Blip(ord)[..2]))
  {
    var steps := Blip(ord);
    assert steps[..0] == [];
    assert After(cfg, 0, steps[..0]) == Fresh(0);
    hide Apply, After, Adopted, IsOrder;
    LastStep(cfg, 0, steps, 0);
    BlipAdopts(cfg, ord);
    LastStep(cfg, 0, steps, 1);
    BlipGreets(After(cfg, 0, steps[..1]), cfg, ord);
  }

  lemma BlipUpTo(cfg: Config, ord: Order)
    requires IsOrder(ord) && cfg.graceMs != 0
    ensures BlipState(After(cfg, 0, Blip(ord)[..4]))
  {
    hide Apply, After, BlipState, Adopted, IsOrder;
    var steps := Blip(ord);
    BlipOpens(cfg, ord);
    LastStep(cfg, 0, steps, 2);
    BlipCloses(After(cfg, 0, steps[..2]), cfg, ord);
    LastStep(cfg, 0, steps, 3);
    BlipLoses(After(cfg, 0, steps[..3]), cfg, ord);
  }

  /** For every configuration with a grace and every map order it is a run of the
      head, and it ends with a kill written for an actor that is live and inside its
      owner's grace. */
  lemma BlipInGraceKills(cfg: Config, ord: Order)
    requires IsOrder(ord) && cfg.graceMs != 0
    ensures SaneRun(cfg, 0, Blip(ord))
    ensures BlipState(After(cfg, 0, Blip(ord)[..4]))
    ensures KillAdded(After(cfg, 0, Blip(ord)[..4]), After(cfg, 0, Blip(ord)), 7)
  {
    var steps := Blip(ord);
    BlipUpTo(cfg, ord);
    var st := After(cfg, 0, steps[..4]);
    hide After;
    forall i | 0 <= i < |steps| ensures SaneAt(cfg, 0, steps, i) {
      assert i == 0 ==> Bare(After(cfg, 0, steps[..0])) by { BareStart(cfg, steps); }
      assert i == 4 ==> steps[..i] == steps[..4];
    }
    assert steps[..5] == steps;
    LastStep(cfg, 0, steps, 4);
    assert [BACK][0].actor == 7;
    assert Resumes([BACK], 7);
    BareRegister(st, cfg, ord, 4, 1, 0, 0, [], [BACK], 1);
    assert [BACK][..0] == [];
    assert |Kills(st, [BACK])| <= 1;
    ResumedKilledExactly(st, cfg, ord, 4, steps[4].event, 7);
  }

  lemma BareStart(cfg: Config, steps: seq<Step>)
    ensures Bare(After(cfg, 0, steps[..0]))
  {
    assert steps[..0] == [];
  }

  // ------------------------------------------------------------- claims

  /** A claim under a name keeps its shape, its answer and its number. */
  ghost predicate ClaimsOnward(m: map<(Group, Name), Claim>, m': map<(Group, Name), Claim>) {
    forall k :: k in m && k in m' ==> m'[k].req == m[k].req && m'[k].view == m[k].view && m'[k].generation == m[k].generation
  }

  ghost predicate AllHeld(m: map<(Group, Name), Claim>) {
    forall k :: k in m ==> m[k].holders != {}
  }

  lemma ClaimStored(m: map<(Group, Name), Claim>, key: (Group, Name), c: Claim)
    requires AllHeld(m) && c.holders != {}
    requires key in m ==> c.req == m[key].req && c.view == m[key].view && c.generation == m[key].generation
    ensures ClaimsOnward(m, m[key := c]) && AllHeld(m[key := c])
  {
  }

  lemma TakeClaimKeeps(st: State, client: ClientId, name: Name, shape: Option<Request>, net: Net)
    requires AllHeld(st.claims)
    ensures var s := TakeClaim(st, client, name, shape, net); ClaimsOnward(st.claims, s.claims) && AllHeld(s.claims)
  {
    var key := (ClientGroup(st, client), name);
    hide Solve, ClientGroup, AllHeld;
    if key in st.claims {
      var c := st.claims[key].(holders := st.claims[key].holders + {client});
      assert client in c.holders;
      ClaimStored(st.claims, key, c);
    } else if shape.Some? && Solve(net, shape.value).Ok? {
      var c := Claim(shape.value, Solve(net, shape.value).value, st.claimGeneration + 1, {client});
      assert client in c.holders;
      ClaimStored(st.claims, key, c);
    }
  }

  lemma ReleasedKeeps(st: State, client: ClientId)
    ensures var m := Released(st.claims, client); ClaimsOnward(st.claims, m) && AllHeld(m)
  {
  }

  /** Every holder of a name is given one answer for as long as the claim is
      held, and a claim is held by somebody for as long as it lasts. */
  lemma ClaimsKeepTheirAnswer(st: State, cfg: Config, ord: Order, now: nat, e: Event)
    requires IsOrder(ord) && AllHeld(st.claims)
    ensures var st' := Apply(st, cfg, ord, now, e); ClaimsOnward(st.claims, st'.claims) && AllHeld(st'.claims)
  {
    hide Apply, IsOrder, TakeClaim, Released, Reaps, ClientsAfter, PendingAfter;
    DeskAfter(st, cfg, ord, now, e);
    match e
    case ClaimName(client, name, shape, net) => TakeClaimKeeps(st, client, name, shape, net);
    case SessionClosed(client, _) => ReleasedKeeps(st, client);
    case ReapTimer(client, _, _) => ReleasedKeeps(st, client);
    case _ =>
  }
}
