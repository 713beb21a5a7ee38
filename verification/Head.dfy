/** The head daemon's steps: what each message and each timer does to the
    tables. Every step runs to its end before the next begins. */
module Head {
  import opened Basics
  import Islands
  import opened Topology
  import opened Chains
  import opened Solver
  import opened Claims
  import opened Tables
  import opened Placement

  /** One actor an agent reports when it registers. */
  datatype Resumed = Resumed(actor: ActorId, name: Name, gpuIds: seq<nat>, owner: ClientId, pending: seq<RefId>)

  /** What can happen. `delivered`, `reached` and `through` say which writes to
      agents succeed: one frame, the frames to those actors, or the first so
      many frames on a new connection. Identifiers a step makes up come with
      the event. */
  datatype Event =
    | PgCreate(client: ClientId, pg: PgId, bundles: seq<nat>, claim: Option<Name>)
    | PgRemove(pg: PgId)
    | ActorCreate(client: ClientId, actor: ActorId, name: Name, numGpus: nat, pg: PgId, index: nat, delivered: bool)
    | ActorCall(client: ClientId, actor: ActorId, body: nat, delivered: bool)
    | ActorKill(actor: ActorId, delivered: bool)
    | ClaimName(client: ClientId, name: Name, shape: Option<Request>, net: Net)
    | Hello(client: ClientId, group: Group, node: NodeId, session: bool, reached: set<ActorId>)
    | SessionClosed(client: ClientId, reached: set<ActorId>)
    | ConnClosed(client: ClientId)
    | ReapTimer(client: ClientId, token: nat, reached: set<ActorId>)
    | Register(agent: AgentId, group: Group, node: NodeId, gpus: seq<nat>, resume: seq<Resumed>,
               unacked: seq<RefId>, through: nat)
    | LinkLost(agent: AgentId, conn: nat)
    | SpawnResult(actor: ActorId, ok: bool)
    | ActorResult(ref: RefId, ok: bool, payload: seq<nat>, error: bool)
    | ActorExit(actor: ActorId)
    | Sweep
    | FabricsDerived(islands: seq<Islands.Island>, tagged: set<NodeId>)

  const DEFAULT_GROUP: Group := 0

  function ClientGroup(st: State, client: ClientId): Group {
    if client in st.clients then st.clients[client].group else DEFAULT_GROUP
  }

  predicate AgentUp(st: State, agent: AgentId) {
    agent in st.agents && st.agents[agent].alive
  }

  /** A frame written to an agent's current connection. */
  function Write(st: State, agent: AgentId, msg: HeadMsg): State
    requires agent in st.agents
  {
    st.(sent := st.sent + [Sent(agent, st.agents[agent].seqNo, msg)])
  }

  // ------------------------------------------------------------- death

  /** Every pending call of an actor resolves as died. */
  function FanOut(refs: map<RefId, Ref>, a: ActorId): map<RefId, Ref> {
    map r | r in refs :: if refs[r].actor == a && refs[r].state == Waiting then refs[r].(state := ActorDied) else refs[r]
  }

  function DeadRow(actor: Actor, now: nat): Actor {
    actor.(state := Dead(now), queued := [])
  }

  function Bury(st: State, now: nat, a: ActorId): State {
    st.(actors := if a in st.actors then st.actors[a := DeadRow(st.actors[a], now)] else st.actors,
        refs := FanOut(st.refs, a))
  }

  /** `mark_actor_dead`: nothing for an actor already dead, else its row, its
      held calls, its pending refs, and a placement pass. */
  ghost function MarkDead(st: State, cfg: Config, ord: Order, now: nat, a: ActorId): State {
    if a in st.actors && !Live(st.actors[a]) then st
    else TryPlace(Bury(st, now, a), cfg, ord)
  }

  ghost function MarkAll(st: State, cfg: Config, ord: Order, now: nat, ids: seq<ActorId>): State
    decreases |ids|
  {
    if ids == [] then st
    else MarkDead(MarkAll(st, cfg, ord, now, ids[..|ids| - 1]), cfg, ord, now, ids[|ids| - 1])
  }

  /** `kill_actor`: ask its agent, or mark it dead when the agent is down. */
  ghost function KillActor(st: State, cfg: Config, ord: Order, now: nat, a: ActorId, delivered: bool): State {
    if a !in st.actors || !Live(st.actors[a]) then st
    else if AgentUp(st, st.actors[a].agent) then
      if delivered then Write(st, st.actors[a].agent, Kill(a)) else st
    else MarkDead(st, cfg, ord, now, a)
  }

  ghost function KillAll(st: State, cfg: Config, ord: Order, now: nat, ids: seq<ActorId>, reached: set<ActorId>): State
    decreases |ids|
  {
    if ids == [] then st
    else
      var n := |ids| - 1;
      KillActor(KillAll(st, cfg, ord, now, ids[..n], reached), cfg, ord, now, ids[n], ids[n] in reached)
  }

  // ------------------------------------------------- groups and actors

  function NoBundles(n: nat): (r: seq<Option<Bundle>>)
    ensures |r| == n && forall i :: 0 <= i < n ==> r[i] == None
  {
    seq(n, _ => None)
  }

  ghost function CreatePg(st: State, cfg: Config, ord: Order, now: nat, client: ClientId, pg: PgId,
                          bundles: seq<nat>, claim: Option<Name>): State {
    var row := Pg(ClientGroup(st, client), client, bundles, claim, NoBundles(|bundles|), Pending, now, None);
    TryPlace(st.(pgs := st.pgs[pg := row]), cfg, ord)
  }

  function RemovedRow(pg: Pg, now: nat): Pg {
    pg.(state := Removed, removedMs := Some(now))
  }

  ghost function RemovePg(st: State, cfg: Config, ord: Order, now: nat, pg: PgId): State {
    TryPlace(if pg in st.pgs then st.(pgs := st.pgs[pg := RemovedRow(st.pgs[pg], now)]) else st, cfg, ord)
  }

  predicate NameTaken(st: State, group: Group, name: Name) {
    exists a :: a in st.actors && st.actors[a].group == group && st.actors[a].name == name && Live(st.actors[a])
  }

  /** Whether an actor may be made in bundle `index` of a group. */
  predicate Creatable(st: State, group: Group, name: Name, numGpus: nat, pg: PgId, index: nat) {
    !NameTaken(st, group, name) && pg in st.pgs && st.pgs[pg].state == Created &&
    index < |st.pgs[pg].assignment| && st.pgs[pg].assignment[index].Some? &&
    numGpus <= |st.pgs[pg].assignment[index].value.gpuIds| &&
    AgentUp(st, st.pgs[pg].assignment[index].value.agent)
  }

  ghost function CreateActor(st: State, cfg: Config, ord: Order, now: nat, client: ClientId, a: ActorId,
                             name: Name, numGpus: nat, pg: PgId, index: nat, delivered: bool): State {
    var group := ClientGroup(st, client);
    if !Creatable(st, group, name, numGpus, pg, index) then st
    else
      var b := st.pgs[pg].assignment[index].value;
      var row := Actor(name, group, b.agent, b.node, b.gpuIds, client, Spawning, [], Some(pg));
      var made := st.(actors := st.actors[a := row]);
      if delivered then Write(made, b.agent, Spawn(a, name, client, b.gpuIds))
      else MarkDead(made, cfg, ord, now, a)
  }

  // --------------------------------------------------------------- calls

  function Enqueued(actor: Actor, call: Call): Actor {
    actor.(queued := actor.queued + [call])
  }

  datatype Fate = NoActor | TooLate | Hold | SendFails | Goes

  /** A call is refused for an unknown actor, already resolved for a dead one or
      one without an agent, held while the agent is away or the write fails,
      and sent otherwise. */
  function FateOf(st: State, a: ActorId, delivered: bool): Fate {
    if a !in st.actors then NoActor
    else if !Live(st.actors[a]) || st.actors[a].agent !in st.agents then TooLate
    else if !st.agents[st.actors[a].agent].alive then Hold
    else if !delivered then SendFails
    else Goes
  }

  function FirstState(f: Fate): RefState {
    if f == TooLate then ActorDied else Waiting
  }

  /** A call takes the next number whatever becomes of it. */
  function MakeCall(st: State, client: ClientId, a: ActorId, body: nat, delivered: bool): State {
    var rid := RefId(a, st.nextRef);
    match FateOf(st, a, delivered)
    case NoActor => st.(nextRef := st.nextRef + 1)
    case TooLate => st.(nextRef := st.nextRef + 1, refs := st.refs[rid := Ref(ActorDied, a, client)])
    case Hold =>
      st.(nextRef := st.nextRef + 1, refs := st.refs[rid := Ref(Waiting, a, client)], accepted := st.accepted + [rid],
          actors := st.actors[a := Enqueued(st.actors[a], Call(rid, body))])
    case SendFails =>
      st.(nextRef := st.nextRef + 1, refs := st.refs[rid := Ref(Waiting, a, client)], accepted := st.accepted + [rid],
          actors := st.actors[a := Enqueued(st.actors[a], Call(rid, body))],
          failed := st.failed + {st.agents[st.actors[a].agent].seqNo})
    case Goes =>
      var agent := st.actors[a].agent;
      st.(nextRef := st.nextRef + 1, refs := st.refs[rid := Ref(Waiting, a, client)], accepted := st.accepted + [rid],
          sent := st.sent + [Sent(agent, st.agents[agent].seqNo, Dispatch(a, Call(rid, body)))])
  }

  // ----------------------------------------------------- claims, sessions

  /** `claim`: repeat a held name's view to each later holder of one shape, else
      solve. */
  function TakeClaim(st: State, client: ClientId, name: Name, shape: Option<Request>, net: Net): State {
    var key := (ClientGroup(st, client), name);
    if key in st.claims then
      if shape != Some(st.claims[key].req) then st
      else st.(claims := st.claims[key := st.claims[key].(holders := st.claims[key].holders + {client})])
    else if shape.None? || Solve(net, shape.value).Err? then st
    else
      st.(claims := st.claims[key := Claim(shape.value, Solve(net, shape.value).value, st.claimGeneration + 1, {client})],
          claimGeneration := st.claimGeneration + 1)
  }

  /** Every hold of a client dropped, and each claim with its last holder. */
  function Released(claims: map<(Group, Name), Claim>, client: ClientId): map<(Group, Name), Claim> {
    map k | k in claims && claims[k].holders - {client} != {} :: claims[k].(holders := claims[k].holders - {client})
  }

  predicate HasSession(st: State, client: ClientId) {
    client in st.clients && st.clients[client].hasSession
  }

  /** Another client already drives the group. */
  predicate Driven(st: State, group: Group, client: ClientId) {
    exists c :: c in st.clients && c != client && st.clients[c].group == group && st.clients[c].hasSession
  }

  /** An actor a new session for the group replaces: its owner has neither a
      session nor a pending reap. */
  predicate Orphan(st: State, group: Group, client: ClientId, a: ActorId) {
    a in st.actors && st.actors[a].group == group && st.actors[a].owner != client && Live(st.actors[a]) &&
    !HasSession(st, st.actors[a].owner) && st.actors[a].owner !in st.reapPending
  }

  function Orphans(st: State, group: Group, client: ClientId): set<ActorId> {
    set a | a in st.actors && Orphan(st, group, client, a)
  }

  /** A client's row after a hello: made when missing, its group always the one
      just named, its session set by a session hello and never cleared. */
  function HelloRow(st: State, client: ClientId, group: Group, node: NodeId, session: bool): Client {
    if client in st.clients then
      st.clients[client].(group := group, hasSession := session || st.clients[client].hasSession)
    else Client(group, node, session)
  }

  ghost function Greet(st: State, cfg: Config, ord: Order, now: nat, client: ClientId, group: Group, node: NodeId,
                       session: bool, reached: set<ActorId>): State {
    if session && Driven(st, group, client) then st
    else
      var s := st.(clients := st.clients[client := HelloRow(st, client, group, node, session)]);
      if session then KillAll(s, cfg, ord, now, ord(Orphans(st, group, client)), reached) else s
  }

  function OwnedBy(st: State, client: ClientId): set<ActorId> {
    set a | a in st.actors && st.actors[a].owner == client && Live(st.actors[a])
  }

  function ReapedRow(pg: Pg, client: ClientId, now: nat): Pg {
    if pg.owner == client && pg.state != Removed then RemovedRow(pg, now) else pg
  }

  function PgsRemoved(pgs: map<PgId, Pg>, client: ClientId, now: nat): map<PgId, Pg> {
    map p | p in pgs :: ReapedRow(pgs[p], client, now)
  }

  function RefsOfOthers(refs: map<RefId, Ref>, client: ClientId): map<RefId, Ref> {
    map r | r in refs && refs[r].owner != client :: refs[r]
  }

  /** Whether a reap goes ahead: its token is the one pending, and the client
      has no session again. */
  predicate Reaps(st: State, client: ClientId, token: Option<nat>) {
    (token.Some? ==> client in st.reapPending && st.reapPending[client] == token.value) && !HasSession(st, client)
  }

  function ReapStart(st: State, client: ClientId, now: nat): State {
    st.(reapPending := st.reapPending - {client}, claims := Released(st.claims, client),
        pgs := PgsRemoved(st.pgs, client, now))
  }

  ghost function Reap(st: State, cfg: Config, ord: Order, now: nat, client: ClientId, token: Option<nat>,
                      reached: set<ActorId>): State {
    if token.Some? && !(client in st.reapPending && st.reapPending[client] == token.value) then st
    else if HasSession(st, client) then st.(reapPending := st.reapPending - {client})
    else
      var killed := KillAll(ReapStart(st, client, now), cfg, ord, now, ord(OwnedBy(st, client)), reached);
      TryPlace(killed.(refs := RefsOfOthers(killed.refs, client)), cfg, ord)
  }

  /** `reap_client`: the row goes at once, the resources now or after the grace. */
  ghost function CloseSession(st: State, cfg: Config, ord: Order, now: nat, client: ClientId, reached: set<ActorId>): State {
    var s := st.(clients := st.clients - {client});
    if cfg.graceMs == 0 then Reap(s, cfg, ord, now, client, None, reached)
    else s.(reapPending := s.reapPending[client := s.nextReap], nextReap := s.nextReap + 1)
  }

  function CloseConn(st: State, client: ClientId): State {
    if client in st.clients && !st.clients[client].hasSession then st.(clients := st.clients - {client}) else st
  }

  // --------------------------------------------------------- registration

  /** A known actor an agent resumes is refused when its owner's row is gone or
      it was declared dead. */
  predicate Rejected(st: State, r: Resumed) {
    r.actor in st.actors && (st.actors[r.actor].owner !in st.clients || !Live(st.actors[r.actor]))
  }

  function Kills(st: State, resume: seq<Resumed>): seq<HeadMsg> {
    if resume == [] then []
    else
      var n := |resume| - 1;
      Kills(st, resume[..n]) + if Rejected(st, resume[n]) then [Kill(resume[n].actor)] else []
  }

  function AdoptedRow(r: Resumed, group: Group, agent: AgentId, node: NodeId): Actor {
    Actor(r.name, group, agent, node, r.gpuIds, r.owner, Running, [], None)
  }

  /** Unknown actors are taken on as the agent reports them. */
  function Adopt(actors: map<ActorId, Actor>, resume: seq<Resumed>, group: Group, agent: AgentId, node: NodeId): map<ActorId, Actor> {
    if resume == [] then actors
    else
      var n := |resume| - 1;
      var rest := Adopt(actors, resume[..n], group, agent, node);
      if resume[n].actor in actors then rest
      else rest[resume[n].actor := AdoptedRow(resume[n], group, agent, node)]
  }

  /** The calls an agent reports, in the order it reports them. */
  function Pendings(resume: seq<Resumed>): seq<RefId> {
    if resume == [] then [] else Pendings(resume[..|resume| - 1]) + resume[|resume| - 1].pending
  }

  function Reported(resume: seq<Resumed>, unacked: seq<RefId>): seq<RefId> {
    Pendings(resume) + unacked
  }

  /** One reported call: kept if known, passed over if its actor is not here on
      this agent, else taken on with the counter moved past it. */
  function AdoptRef(st: State, agent: AgentId, r: RefId): State {
    if r in st.refs || r.actor !in st.actors || st.actors[r.actor].agent != agent then st
    else
      st.(refs := st.refs[r := Ref(Waiting, r.actor, st.actors[r.actor].owner)],
          nextRef := if r.n < st.nextRef then st.nextRef else r.n + 1)
  }

  function AdoptRefs(st: State, agent: AgentId, rs: seq<RefId>): State {
    if rs == [] then st else AdoptRef(AdoptRefs(st, agent, rs[..|rs| - 1]), agent, rs[|rs| - 1])
  }

  /** Live actors filed under the agent that it did not resume. */
  function Missing(st: State, agent: AgentId, resume: seq<Resumed>): set<ActorId> {
    set a | a in st.actors && st.actors[a].agent == agent && Live(st.actors[a]) &&
            forall i :: 0 <= i < |resume| ==> resume[i].actor != a
  }

  predicate QueuedOn(st: State, agent: AgentId, r: RefId) {
    exists a :: a in st.actors && st.actors[a].agent == agent &&
                exists i :: 0 <= i < |st.actors[a].queued| && st.actors[a].queued[i].ref == r
  }

  /** A pending call of this agent that neither side still holds. */
  predicate Lost(st: State, agent: AgentId, known: seq<RefId>, r: RefId) {
    r in st.refs && st.refs[r].state == Waiting &&
    st.refs[r].actor in st.actors && st.actors[st.refs[r].actor].agent == agent &&
    r !in known && !QueuedOn(st, agent, r)
  }

  function FailLost(st: State, agent: AgentId, known: seq<RefId>): State {
    st.(refs := map r | r in st.refs :: if Lost(st, agent, known, r) then st.refs[r].(state := ActorDied) else st.refs[r])
  }

  function DispatchesOf(a: ActorId, calls: seq<Call>): (r: seq<HeadMsg>)
    ensures |r| == |calls| && forall i :: 0 <= i < |calls| ==> r[i] == Dispatch(a, calls[i])
  {
    seq(|calls|, i requires 0 <= i < |calls| => Dispatch(a, calls[i]))
  }

  predicate Draining(st: State, agent: AgentId, a: ActorId) {
    a in st.actors && st.actors[a].agent == agent && Live(st.actors[a])
  }

  function DrainIds(st: State, agent: AgentId): set<ActorId> {
    set a | a in st.actors && Draining(st, agent, a)
  }

  function Drains(st: State, ids: seq<ActorId>): seq<HeadMsg> {
    if ids == [] then []
    else
      var n := |ids| - 1;
      Drains(st, ids[..n]) + if ids[n] in st.actors then DispatchesOf(ids[n], st.actors[ids[n]].queued) else []
  }

  function Emptied(st: State, agent: AgentId): map<ActorId, Actor> {
    map a | a in st.actors :: if Draining(st, agent, a) then st.actors[a].(queued := []) else st.actors[a]
  }

  function OnConn(agent: AgentId, conn: nat, msgs: seq<HeadMsg>): (r: seq<Sent>)
    ensures |r| == |msgs| && forall i :: 0 <= i < |msgs| ==> r[i] == Sent(agent, conn, msgs[i])
  {
    seq(|msgs|, i requires 0 <= i < |msgs| => Sent(agent, conn, msgs[i]))
  }

  /** Kills, then held calls, written to the new connection: the first `through`
      frames get out, and a held call leaves its queue either way. */
  function Flush(st: State, ord: Order, agent: AgentId, conn: nat, kills: seq<HeadMsg>, through: nat): State {
    var frames := kills + Drains(st, ord(DrainIds(st, agent)));
    var k := if through < |frames| then through else |frames|;
    st.(actors := Emptied(st, agent),
        sent := st.sent + OnConn(agent, conn, frames[..k]),
        failed := if k < |frames| then st.failed + {conn} else st.failed)
  }

  function RegisterRow(st: State, agent: AgentId, group: Group, node: NodeId, gpus: seq<nat>): State {
    st.(agents := st.agents[agent := Agent(group, node, gpus, true, None, None, st.nextSeq)], nextSeq := st.nextSeq + 1)
  }

  /** The tables once the resumed actors and their calls are taken on. */
  function TakeOn(st: State, agent: AgentId, group: Group, node: NodeId, gpus: seq<nat>, resume: seq<Resumed>,
                  unacked: seq<RefId>): State {
    var s := RegisterRow(st, agent, group, node, gpus);
    AdoptRefs(s.(actors := Adopt(s.actors, resume, group, agent, node)), agent, Reported(resume, unacked))
  }

  ghost function Registered(st: State, cfg: Config, ord: Order, now: nat, agent: AgentId, group: Group, node: NodeId,
                            gpus: seq<nat>, resume: seq<Resumed>, unacked: seq<RefId>, through: nat): State {
    var s := TakeOn(st, agent, group, node, gpus, resume, unacked);
    var alive := MarkAll(s, cfg, ord, now, ord(Missing(s, agent, resume)));
    var settled := FailLost(alive, agent, Reported(resume, unacked));
    TryPlace(Flush(settled, ord, agent, st.nextSeq, Kills(st, resume), through), cfg, ord)
  }

  /** The end of an agent's link counts only for the connection on its row. */
  function LoseLink(st: State, now: nat, agent: AgentId, conn: nat): State {
    if agent in st.agents && st.agents[agent].seqNo == conn then
      st.(agents := st.agents[agent := st.agents[agent].(alive := false, lostAt := Some(now), goneSince := Some(now))])
    else st
  }

  // ------------------------------------------------------- agent reports

  function Spawned(st: State, a: ActorId): State {
    if a in st.actors && st.actors[a].state == Spawning then
      st.(actors := st.actors[a := st.actors[a].(state := Running)])
    else st
  }

  /** First resolution wins. */
  function Resolve(st: State, r: RefId, ok: bool, payload: seq<nat>, error: bool): State {
    if r in st.refs && st.refs[r].state == Waiting then
      st.(refs := st.refs[r := st.refs[r].(state := if !ok && payload == [] && error then ActorDied else Ready(ok, payload))])
    else st
  }

  lemma ResolveIs(st: State, r: RefId, ok: bool, payload: seq<nat>, error: bool)
    ensures var s := Resolve(st, r, ok, payload, error); s == st.(refs := s.refs)
  {
  }

  // -------------------------------------------------------------- sweeps

  function Since(now: nat, at: nat): nat {
    if now > at then now - at else 0
  }

  function TimedOutRow(pg: Pg, cfg: Config, now: nat): Pg {
    if pg.state == Pending && Since(now, pg.createdMs) > cfg.pgTimeoutMs then RemovedRow(pg, now) else pg
  }

  function TimedOut(pgs: map<PgId, Pg>, cfg: Config, now: nat): map<PgId, Pg> {
    map p | p in pgs :: TimedOutRow(pgs[p], cfg, now)
  }

  predicate GivesUp(st: State, cfg: Config, now: nat, agent: AgentId) {
    agent in st.agents && st.agents[agent].lostAt.Some? && Since(now, st.agents[agent].lostAt.value) >= cfg.deadAfterMs
  }

  function GivenUp(st: State, cfg: Config, now: nat): set<AgentId> {
    set a | a in st.agents && GivesUp(st, cfg, now, a)
  }

  function Forget(st: State, cfg: Config, now: nat): State {
    st.(agents := map a | a in st.agents :: if GivesUp(st, cfg, now, a) then st.agents[a].(lostAt := None) else st.agents[a])
  }

  function HostedBy(st: State, agent: AgentId): set<ActorId> {
    set a | a in st.actors && st.actors[a].agent == agent && Live(st.actors[a])
  }

  ghost function GiveUpAll(st: State, cfg: Config, ord: Order, now: nat, agents: seq<AgentId>): State
    decreases |agents|
  {
    if agents == [] then st
    else
      var s := GiveUpAll(st, cfg, ord, now, agents[..|agents| - 1]);
      MarkAll(s, cfg, ord, now, ord(HostedBy(s, agents[|agents| - 1])))
  }

  predicate OldActor(st: State, cfg: Config, now: nat, a: ActorId) {
    a in st.actors && st.actors[a].owner !in st.clients && st.actors[a].state.Dead? &&
    Since(now, st.actors[a].state.atMs) > cfg.keepMs
  }

  predicate OldPg(st: State, cfg: Config, now: nat, p: PgId) {
    p in st.pgs && st.pgs[p].state == Removed && st.pgs[p].owner !in st.clients &&
    st.pgs[p].removedMs.Some? && Since(now, st.pgs[p].removedMs.value) > cfg.keepMs
  }

  predicate OldAgent(st: State, cfg: Config, now: nat, g: AgentId) {
    g in st.agents && !st.agents[g].alive && st.agents[g].goneSince.Some? &&
    Since(now, st.agents[g].goneSince.value) > cfg.keepMs &&
    forall a :: a in st.actors && st.actors[a].agent == g ==> OldActor(st, cfg, now, a)
  }

  predicate AnythingOld(st: State, cfg: Config, now: nat) {
    (exists a :: a in st.actors && OldActor(st, cfg, now, a)) ||
    (exists p :: p in st.pgs && OldPg(st, cfg, now, p)) ||
    (exists g :: g in st.agents && OldAgent(st, cfg, now, g))
  }

  /** `sweep_history`: finished rows whose owner is gone, agents long away, and
      the calls of the actors dropped. */
  function SweepHistory(st: State, cfg: Config, now: nat): State {
    if !AnythingOld(st, cfg, now) then st
    else
      var actors := map a | a in st.actors && !OldActor(st, cfg, now, a) :: st.actors[a];
      st.(actors := actors,
          pgs := map p | p in st.pgs && !OldPg(st, cfg, now, p) :: st.pgs[p],
          agents := map g | g in st.agents && !OldAgent(st, cfg, now, g) :: st.agents[g],
          refs := map r | r in st.refs && st.refs[r].actor in actors :: st.refs[r])
  }

  ghost function SweepAll(st: State, cfg: Config, ord: Order, now: nat): State {
    var s := st.(pgs := TimedOut(st.pgs, cfg, now));
    SweepHistory(GiveUpAll(Forget(s, cfg, now), cfg, ord, now, ord(GivenUp(s, cfg, now))), cfg, now)
  }

  // --------------------------------------------------------------- steps

  /** The tables after one event at time `now`. */
  ghost function Apply(st: State, cfg: Config, ord: Order, now: nat, e: Event): State {
    match e
    case PgCreate(client, pg, bundles, claim) => CreatePg(st, cfg, ord, now, client, pg, bundles, claim)
    case PgRemove(pg) => RemovePg(st, cfg, ord, now, pg)
    case ActorCreate(client, a, name, n, pg, i, ok) => CreateActor(st, cfg, ord, now, client, a, name, n, pg, i, ok)
    case ActorCall(client, a, body, ok) => MakeCall(st, client, a, body, ok)
    case ActorKill(a, ok) => KillActor(st, cfg, ord, now, a, ok)
    case ClaimName(client, name, shape, net) => TakeClaim(st, client, name, shape, net)
    case Hello(client, group, node, session, reached) => Greet(st, cfg, ord, now, client, group, node, session, reached)
    case SessionClosed(client, reached) => CloseSession(st, cfg, ord, now, client, reached)
    case ConnClosed(client) => CloseConn(st, client)
    case ReapTimer(client, token, reached) => Reap(st, cfg, ord, now, client, Some(token), reached)
    case Register(agent, group, node, gpus, resume, unacked, through) =>
      Registered(st, cfg, ord, now, agent, group, node, gpus, resume, unacked, through)
    case LinkLost(agent, conn) => LoseLink(st, now, agent, conn)
    case SpawnResult(a, ok) => if ok then Spawned(st, a) else MarkDead(st, cfg, ord, now, a)
    case ActorResult(r, ok, payload, error) => Resolve(st, r, ok, payload, error)
    case ActorExit(a) => MarkDead(st, cfg, ord, now, a)
    case Sweep => SweepAll(st, cfg, ord, now)
    case FabricsDerived(islands, tagged) => st.(islands := islands, tagged := tagged)
  }

  // ---------------------------------------------------------- what a ref holds

  datatype Handle = PgRef(pg: PgId) | CallRef(call: RefId)

  datatype Res = Pends | Done(ok: bool, payload: seq<nat>) | Failed | Unknown

  function ResolveRef(st: State, h: Handle): Res {
    match h
    case PgRef(p) =>
      if p !in st.pgs then Unknown
      else (match st.pgs[p].state
            case Created => Done(true, [])
            case Pending => Pends
            case Removed => Failed)
    case CallRef(r) =>
      if r !in st.refs then Unknown
      else (match st.refs[r].state
            case Waiting => Pends
            case Ready(ok, payload) => Done(ok, payload)
            case ActorDied => Failed)
  }

  /** Whether an unknown ref may yet arrive: until every agent has had the
      give-up time to register with a new head. */
  predicate InWindow(st: State, cfg: Config, now: nat) {
    st.headSince.Some? && now < st.headSince.value + cfg.deadAfterMs
  }

  /** `ref_get`'s answer now, Pends when it would go on waiting. */
  function GetNow(st: State, cfg: Config, now: nat, h: Handle): Res {
    var res := ResolveRef(st, h);
    if res == Unknown && InWindow(st, cfg, now) then Pends else res
  }

  /** Whether `ref_wait` counts a handle as finished now. */
  predicate WaitCounts(st: State, cfg: Config, now: nat, h: Handle) {
    match ResolveRef(st, h)
    case Pends => false
    case Unknown => !InWindow(st, cfg, now)
    case _ => true
  }

  function ReadyOf(st: State, cfg: Config, now: nat, hs: seq<Handle>): seq<Handle> {
    if hs == [] then []
    else
      var n := |hs| - 1;
      ReadyOf(st, cfg, now, hs[..n]) + if WaitCounts(st, cfg, now, hs[n]) then [hs[n]] else []
  }
}
