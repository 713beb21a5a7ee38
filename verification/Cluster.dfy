/** A head and the agents at the other ends of its links, and that no call still
    running is ever reported finished. */
module Cluster {
  import opened Basics
  import opened Chains
  import opened Tables
  import opened Placement
  import opened Head
  import opened Deaths
  import opened Safety
  import opened Rows
  import opened Runs
  import opened Calls
  import opened Effects
  import opened Joins

  // ----------------------------------------------------------------- state

  /** An actor's entry on an agent. Calls wait in `queued` until its host process
      connects. `running` and `stuck` are together the calls the agent reports as
      pending: those held for or given to the host, and those answered with an
      error because they could not be written to it. `given`, the calls written to
      the host in order, and `early`, the calls that were here before this head
      began, are history. */
  datatype Host = Host(
    name: Name, owner: ClientId, gpuIds: seq<nat>, running: set<RefId>, stuck: set<RefId>,
    connected: bool, queued: seq<Call>, given: seq<Call>, early: set<RefId>)

  /** An agent's side: its actors, results it could not send yet, the connection
      it is on, and how far along the head's frames it has read. */
  datatype Side = Side(hosts: map<ActorId, Host>, unsent: set<RefId>, link: Option<nat>, read: nat)

  /** The rest is history. `done` holds the calls whose result was sent to this
      head, `gone` the actors whose process ended, `broken` those whose constructor
      raised, `met` every actor that ever had a row here, `joined` the agents that
      ever registered here, `killed` the actors this head asked to be killed,
      `abandoned` the actors of agents it gave up on, and `reaped` the calls dropped
      with their maker. */
  datatype Cluster = Cluster(
    head: State, sides: map<AgentId, Side>, done: set<RefId>, gone: set<ActorId>, broken: set<ActorId>, met: set<ActorId>,
    joined: set<AgentId>, killed: set<ActorId>, abandoned: set<ActorId>, reaped: set<RefId>)

  /** `written` and `through` say which writes to an actor's host process succeed. */
  datatype Move =
    | HeadMove(step: Step)
    | Join(step: Step)
    | Take(agent: AgentId, i: nat, written: bool)
    | Connect(agent: AgentId, actor: ActorId, through: set<RefId>)
    | Break(agent: AgentId, actor: ActorId)
    | Finish(agent: AgentId, actor: ActorId, ref: RefId)
    | Resend(agent: AgentId, ref: RefId)
    | Leave(agent: AgentId, actor: ActorId)
    | Cut(agent: AgentId)

  predicate HostsActor(c: Cluster, g: AgentId, a: ActorId) {
    g in c.sides && a in c.sides[g].hosts
  }

  predicate Working(c: Cluster, g: AgentId, a: ActorId, r: RefId) {
    HostsActor(c, g, a) && r in c.sides[g].hosts[a].running
  }

  /** The call still waits for the host to connect. */
  predicate Queues(h: Host, r: RefId) {
    exists k :: 0 <= k < |h.queued| && h.queued[k].ref == r
  }

  predicate Jammed(c: Cluster, g: AgentId, a: ActorId, r: RefId) {
    HostsActor(c, g, a) && r in c.sides[g].hosts[a].stuck
  }

  /** The head has ended the actor, or knows it never came to be. */
  predicate Condemned(c: Cluster, a: ActorId) {
    a in c.killed || a in c.abandoned || a in c.broken
  }

  predicate Buffered(c: Cluster, g: AgentId, r: RefId) {
    g in c.sides && r in c.sides[g].unsent
  }

  /** Frame `i` can still be read by the agent it was written to. */
  predicate Open(c: Cluster, g: AgentId, i: nat) {
    g in c.sides && c.sides[g].read <= i < |c.head.sent| && c.head.sent[i].agent == g &&
    c.sides[g].link == Some(c.head.sent[i].conn)
  }

  // ----------------------------------------------------------------- moves

  /** What an agent reports of its actors when it registers. */
  predicate ResumeOf(s: Side, resume: seq<Resumed>) {
    (forall k :: 0 <= k < |resume| ==>
       resume[k].actor in s.hosts &&
       var h := s.hosts[resume[k].actor];
       resume[k].name == h.name && resume[k].owner == h.owner && resume[k].gpuIds == h.gpuIds &&
       SetOf(resume[k].pending) == h.running + h.stuck) &&
    (forall a :: a in s.hosts ==> Resumes(resume, a))
  }

  /** Assumptions on a step of the head. Reports come from the agents, a link's
      end is seen after it is cut, and an actor's identifier is new to all. */
  ghost predicate HeadMoves(c: Cluster, step: Step) {
    var e := step.event;
    IsOrder(step.ord) && Sane(c.head, e) && Steady(c.head, e) && !e.Register? &&
    (e.ActorResult? ==> e.ref in c.done) && (e.ActorExit? ==> e.actor in c.gone) &&
    (e.SpawnResult? && !e.ok ==> e.actor in c.gone || e.actor in c.broken) &&
    (e.LinkLost? && e.agent in c.sides ==> c.sides[e.agent].link != Some(e.conn)) &&
    (e.ActorCreate? ==> e.actor !in c.met && e.actor !in c.gone && forall g :: !HostsActor(c, g, e.actor))
  }

  ghost predicate Joining(c: Cluster, step: Step) {
    var e := step.event;
    e.Register? && IsOrder(step.ord) && e.agent in c.sides && c.sides[e.agent].link.None? &&
    ResumeOf(c.sides[e.agent], e.resume) && SetOf(e.unacked) == c.sides[e.agent].unsent
  }

  ghost predicate Enabled(c: Cluster, m: Move) {
    match m
    case HeadMove(step) => HeadMoves(c, step)
    case Join(step) => Joining(c, step)
    case Take(g, i, _) => Open(c, g, i)
    case Connect(g, a, _) => HostsActor(c, g, a) && !c.sides[g].hosts[a].connected
    case Break(g, a) => HostsActor(c, g, a)
    case Finish(g, a, r) => Working(c, g, a, r) && !Queues(c.sides[g].hosts[a], r)
    case Resend(g, r) => Buffered(c, g, r) && c.sides[g].link.Some?
    case Leave(g, a) => HostsActor(c, g, a)
    case Cut(g) => g in c.sides
  }

  function RejectedIn(st: State, resume: seq<Resumed>): set<ActorId> {
    set k | 0 <= k < |resume| && Rejected(st, resume[k]) :: resume[k].actor
  }

  /** A call for a hosted actor: held until the host connects, else written to it,
      else stuck. */
  function Accept(h: Host, call: Call, written: bool): Host {
    if !h.connected then h.(running := h.running + {call.ref}, queued := h.queued + [call])
    else if written then h.(running := h.running + {call.ref}, given := h.given + [call])
    else h.(stuck := h.stuck + {call.ref})
  }

  /** An agent takes a frame: a spawned actor has its entry at once, so that a
      call right behind the spawn finds it. A kill only asks: the process ends in
      its own time. */
  function TakeMsg(s: Side, msg: HeadMsg, written: bool): Side {
    match msg
    case Spawn(a, name, owner, gpuIds) =>
      s.(hosts := s.hosts[a := Host(name, owner, gpuIds, {}, {}, false, [], [], {})])
    case Dispatch(a, call) =>
      if a in s.hosts then s.(hosts := s.hosts[a := Accept(s.hosts[a], call, written)]) else s
    case Kill(_) => s
  }

  /** A call for an actor the agent does not have, or whose host cannot be written
      to, is answered at once. */
  function Bounced(s: Side, msg: HeadMsg, written: bool): set<RefId> {
    if msg.Dispatch? && (msg.actor !in s.hosts || (s.hosts[msg.actor].connected && !written)) then {msg.call.ref} else {}
  }

  function TakeFrame(c: Cluster, g: AgentId, i: nat, written: bool): Cluster
    requires Open(c, g, i)
  {
    var s, msg := c.sides[g].(read := i + 1), c.head.sent[i].msg;
    c.(sides := c.sides[g := TakeMsg(s, msg, written)], done := c.done + Bounced(s, msg, written))
  }

  /** The calls that get through, in order. */
  function Through(queue: seq<Call>, written: set<RefId>): seq<Call> {
    if queue == [] then []
    else
      var n := |queue| - 1;
      Through(queue[..n], written) + if queue[n].ref in written then [queue[n]] else []
  }

  function Unwritten(queue: seq<Call>, written: set<RefId>): set<RefId> {
    set k | 0 <= k < |queue| && queue[k].ref !in written :: queue[k].ref
  }

  /** The host connects and the queue is drained to it. A call that cannot be
      written is answered with an error and stays among the pending ones. */
  function Drained(h: Host, written: set<RefId>): Host {
    h.(connected := true, queued := [], given := h.given + Through(h.queued, written),
       running := h.running - Unwritten(h.queued, written), stuck := h.stuck + Unwritten(h.queued, written))
  }

  function ConnectHost(s: Side, a: ActorId, written: set<RefId>): Side
    requires a in s.hosts
  {
    s.(hosts := s.hosts[a := Drained(s.hosts[a], written)],
       unsent := if s.link.Some? then s.unsent else s.unsent + Unwritten(s.hosts[a].queued, written))
  }

  function AfterConnect(c: Cluster, g: AgentId, a: ActorId, written: set<RefId>): Cluster
    requires HostsActor(c, g, a)
  {
    c.(sides := c.sides[g := ConnectHost(c.sides[g], a, written)],
       done := if c.sides[g].link.Some? then c.done + Unwritten(c.sides[g].hosts[a].queued, written) else c.done)
  }

  /** A call ends: its result goes out, or waits for the link. */
  function EndCall(s: Side, a: ActorId, r: RefId): Side
    requires a in s.hosts
  {
    s.(hosts := s.hosts[a := s.hosts[a].(running := s.hosts[a].running - {r})],
       unsent := if s.link.Some? then s.unsent else s.unsent + {r})
  }

  function FinishCall(c: Cluster, g: AgentId, a: ActorId, r: RefId): Cluster
    requires Working(c, g, a, r)
  {
    c.(sides := c.sides[g := EndCall(c.sides[g], a, r)], done := if c.sides[g].link.Some? then c.done + {r} else c.done)
  }

  /** A buffered result goes out. */
  function AfterResend(c: Cluster, g: AgentId, r: RefId): Cluster
    requires g in c.sides
  {
    c.(sides := c.sides[g := c.sides[g].(unsent := c.sides[g].unsent - {r})], done := c.done + {r})
  }

  /** An actor's process ends, with whatever it was working on. */
  function AfterLeave(c: Cluster, g: AgentId, a: ActorId): Cluster
    requires g in c.sides
  {
    c.(sides := c.sides[g := c.sides[g].(hosts := c.sides[g].hosts - {a})], gone := c.gone + {a})
  }

  function AfterCut(c: Cluster, g: AgentId): Cluster
    requires g in c.sides
  {
    c.(sides := c.sides[g := c.sides[g].(link := None)])
  }

  /** The actors of the agents a sweep gives up on. */
  function GivenUpBy(st: State, cfg: Config, step: Step): set<ActorId> {
    if step.event.Sweep? then OnAgents(st, GivenUp(st, cfg, step.now)) else {}
  }

  ghost function AfterHead(c: Cluster, cfg: Config, step: Step): Cluster {
    var st' := Apply(c.head, cfg, step.ord, step.now, step.event);
    c.(head := st', met := c.met + st'.actors.Keys, killed := c.killed + KillsOf(c.head, cfg, step.event),
       abandoned := c.abandoned + GivenUpBy(c.head, cfg, step),
       reaped := c.reaped + ReapedBy(c.head, cfg, step.event))
  }

  ghost function AfterJoin(c: Cluster, cfg: Config, step: Step): Cluster
    requires step.event.Register? && step.event.agent in c.sides
  {
    var e := step.event;
    var st' := Apply(c.head, cfg, step.ord, step.now, e);
    c.(head := st', met := c.met + st'.actors.Keys, joined := c.joined + {e.agent},
       killed := c.killed + RejectedIn(c.head, e.resume),
       sides := c.sides[e.agent := c.sides[e.agent].(link := Some(c.head.nextSeq), read := |c.head.sent|)])
  }

  ghost function Next(c: Cluster, cfg: Config, m: Move): Cluster
    requires Enabled(c, m)
  {
    match m
    case HeadMove(step) => AfterHead(c, cfg, step)
    case Join(step) => AfterJoin(c, cfg, step)
    case Take(g, i, written) => TakeFrame(c, g, i, written)
    case Connect(g, a, written) => AfterConnect(c, g, a, written)
    case Break(g, a) => c.(broken := c.broken + {a})
    case Finish(g, a, r) => FinishCall(c, g, a, r)
    case Resend(g, r) => AfterResend(c, g, r)
    case Leave(g, a) => AfterLeave(c, g, a)
    case Cut(g) => AfterCut(c, g)
  }

  // ------------------------------------------------------------ invariants

  ghost predicate Started(c: Cluster, r: RefId) {
    r in c.done || (exists g, a :: Working(c, g, a, r)) || (exists g, a :: Jammed(c, g, a, r)) ||
    (exists g :: Buffered(c, g, r))
  }

  ghost predicate HeadGood(st: State) {
    RowsHold(st) && Handing(st) && HeldWhileAway(st) && UpNotLost(st)
  }

  /** A host's queue holds calls still owed, and is empty once it connected. */
  predicate HostGood(h: Host) {
    (forall k :: 0 <= k < |h.queued| ==> h.queued[k].ref in h.running) && (h.connected ==> h.queued == [])
  }

  /** Each actor is on one agent, its calls are its own, and what ended does not
      go on. */
  ghost predicate SidesGood(c: Cluster) {
    (forall g, h, a :: HostsActor(c, g, a) && HostsActor(c, h, a) ==> g == h) &&
    (forall g, a, r :: Working(c, g, a, r) ==> r.actor == a && r !in c.done && !Buffered(c, g, r)) &&
    (forall g, a, r :: Jammed(c, g, a, r) ==> r.actor == a && !Working(c, g, a, r)) &&
    (forall g, r :: Buffered(c, g, r) ==> HostsActor(c, g, r.actor) || r.actor in c.gone) &&
    (forall g, a :: HostsActor(c, g, a) ==> a !in c.gone && HostGood(c.sides[g].hosts[a]))
  }

  /** A link an agent is on is the one the head has on its row. */
  ghost predicate LinksGood(c: Cluster) {
    forall g :: g in c.sides && c.sides[g].link.Some? ==>
      g in c.joined && AgentUp(c.head, g) && c.head.agents[g].seqNo == c.sides[g].link.value
  }

  /** Actors known here are those of agents that joined. */
  ghost predicate MetGood(c: Cluster) {
    (forall a :: a in c.head.actors ==> a in c.met) &&
    (forall g, a :: HostsActor(c, g, a) ==> (a in c.met <==> g in c.joined)) &&
    (forall i :: 0 <= i < |c.head.sent| && !c.head.sent[i].msg.Kill? ==> c.head.sent[i].msg.actor in c.met) &&
    (forall r :: r in c.done ==> r.actor in c.met || r.actor in c.gone)
  }

  /** A joined agent's actor is filed under it, and is live here unless it was
      asked to be killed. */
  ghost predicate FiledGood(c: Cluster) {
    forall g, a :: HostsActor(c, g, a) && g in c.joined ==>
      (a in c.head.actors ==> c.head.actors[a].agent == g) && (!Condemned(c, a) ==> LiveHere(c.head, a))
  }

  /** No call that began has a number still to be given out. */
  ghost predicate NumbersGood(c: Cluster) {
    forall r :: Started(c, r) && r.actor in c.met ==> r.n < c.head.nextRef
  }

  predicate SpawnsAt(c: Cluster, g: AgentId, i: nat, a: ActorId) {
    Open(c, g, i) && c.head.sent[i].msg.Spawn? && c.head.sent[i].msg.actor == a
  }

  /** An actor still to be spawned is nowhere yet, and the head expects it. */
  ghost predicate SpawnsGood(c: Cluster) {
    (forall i, j :: 0 <= i < j < |c.head.sent| && c.head.sent[i].msg.Spawn? && c.head.sent[j].msg.Spawn? ==>
       c.head.sent[i].msg.actor != c.head.sent[j].msg.actor) &&
    (forall g, i, a :: SpawnsAt(c, g, i, a) ==>
       a !in c.gone && (forall h :: !HostsActor(c, h, a)) &&
       (a in c.head.actors ==> c.head.actors[a].agent == g) && (!Condemned(c, a) ==> LiveHere(c.head, a)))
  }

  /** The head still waits for the call, or has a reason not to. */
  ghost predicate StillOwed(c: Cluster, r: RefId) {
    Condemned(c, r.actor) || r.actor in c.gone || r in c.reaped || Owed(c.head, r)
  }

  predicate BoundFor(c: Cluster, r: RefId, g: AgentId) {
    r.actor in c.head.actors && !Condemned(c, r.actor) ==> c.head.actors[r.actor].agent == g
  }

  predicate HandsAt(c: Cluster, g: AgentId, i: nat, r: RefId) {
    Open(c, g, i) && c.head.sent[i].msg.Dispatch? && c.head.sent[i].msg.call.ref == r
  }

  /** A call on its way, or held, has not begun, and the head waits for it. */
  ghost predicate CallsGood(c: Cluster) {
    (forall g, i, r :: HandsAt(c, g, i, r) ==>
       !Started(c, r) && StillOwed(c, r) && BoundFor(c, r, g)) &&
    (forall r :: QueuedFor(c.head, r) ==> !Started(c, r) && StillOwed(c, r))
  }

  /** The head waits for every call running in a joined agent's actor that nobody
      killed, unless the call was dropped with its maker. */
  ghost predicate RunningGood(c: Cluster) {
    forall g, a, r :: Working(c, g, a, r) && g in c.joined && !Condemned(c, a) && r !in c.reaped ==> WaitsFor(c.head, r)
  }

  ghost predicate Good(c: Cluster) {
    HeadGood(c.head) && SidesGood(c) && LinksGood(c) && MetGood(c) && FiledGood(c) && NumbersGood(c) &&
    SpawnsGood(c) && CallsGood(c) && RunningGood(c)
  }

  /** The calls of a host in the order it gets them. */
  function Line(h: Host): seq<Call> {
    h.given + h.queued
  }

  predicate AllEarly(h: Host) {
    forall k :: 0 <= k < |Line(h)| ==> Line(h)[k].ref in h.early
  }

  /** A head that just began, and agents with whatever an earlier head left them. */
  ghost predicate Begins(c: Cluster) {
    (exists now :: c.head == Fresh(now)) &&
    (forall g :: g in c.sides ==> c.sides[g].link.None? && c.sides[g].read == 0) &&
    (forall g, a :: HostsActor(c, g, a) ==> AllEarly(c.sides[g].hosts[a])) &&
    c.done == {} && c.met == {} && c.joined == {} && c.killed == {} && c.abandoned == {} && c.broken == {} &&
    c.reaped == {} && SidesGood(c)
  }

  lemma BeginsGood(c: Cluster)
    requires Begins(c)
    ensures Good(c)
  {
  }

  // -------------------------------------------------- moves of an agent alone

  /** Moves that leave the head and its frames alone, and start no call. */
  ghost predicate Shrinks(c: Cluster, c': Cluster) {
    c' == c.(sides := c'.sides, done := c'.done, gone := c'.gone, broken := c'.broken) &&
    c.done <= c'.done && c.gone <= c'.gone && c.broken <= c'.broken &&
    (forall g, a :: HostsActor(c', g, a) ==> HostsActor(c, g, a)) &&
    (forall g, a, r :: Working(c', g, a, r) ==> Working(c, g, a, r)) &&
    (forall g, i :: Open(c', g, i) ==> Open(c, g, i)) &&
    (forall r :: Started(c', r) ==> Started(c, r)) &&
    (forall g :: g in c'.sides && c'.sides[g].link.Some? ==> g in c.sides && c'.sides[g].link == c.sides[g].link) &&
    (forall r :: r in c'.done && r !in c.done ==> (exists g :: Buffered(c, g, r)) || (exists g, a :: Working(c, g, a, r) && g in c.joined)) &&
    (forall a :: a in c'.gone && a !in c.gone ==> exists g :: HostsActor(c, g, a))
  }

  lemma ShrinksSpawns(c: Cluster, c': Cluster)
    requires SpawnsGood(c) && Shrinks(c, c')
    ensures SpawnsGood(c')
  {
    forall g, i, a | SpawnsAt(c', g, i, a)
      ensures a !in c'.gone && (forall h :: !HostsActor(c', h, a))
      ensures (a in c'.head.actors ==> c'.head.actors[a].agent == g) && (!Condemned(c', a) ==> LiveHere(c'.head, a))
    {
      assert SpawnsAt(c, g, i, a);
    }
  }

  lemma ShrinksCalls(c: Cluster, c': Cluster)
    requires CallsGood(c) && Shrinks(c, c')
    ensures CallsGood(c')
  {
    forall g, i, r | HandsAt(c', g, i, r)
      ensures !Started(c', r) && StillOwed(c', r) && BoundFor(c', r, g)
    {
      assert HandsAt(c, g, i, r);
    }
  }

  lemma ShrinksRest(c: Cluster, c': Cluster)
    requires LinksGood(c) && MetGood(c) && FiledGood(c) && NumbersGood(c) && RunningGood(c) && Shrinks(c, c')
    requires forall r :: r in c'.done && r !in c.done && r.actor !in c.met ==> r.actor in c.gone
    ensures LinksGood(c') && MetGood(c') && FiledGood(c') && NumbersGood(c') && RunningGood(c')
  {
    hide Started;
  }

  lemma ShrinksKeeps(c: Cluster, c': Cluster)
    requires Good(c) && Shrinks(c, c') && SidesGood(c')
    requires forall r :: r in c'.done && r !in c.done && r.actor !in c.met ==> r.actor in c.gone
    ensures Good(c')
  {
    hide HeadGood, SidesGood, LinksGood, MetGood, FiledGood, NumbersGood, SpawnsGood, CallsGood, RunningGood;
    ShrinksSpawns(c, c');
    ShrinksCalls(c, c');
    ShrinksRest(c, c');
  }

  /** A new result is of a call of a joined agent, so of an actor met here or one
      that ended. */
  lemma ResultIsKnown(c: Cluster, g: AgentId, r: RefId)
    requires SidesGood(c) && LinksGood(c) && MetGood(c) && g in c.sides && c.sides[g].link.Some?
    requires Buffered(c, g, r) || exists a :: Working(c, g, a, r)
    ensures r.actor in c.met || r.actor in c.gone
  {
  }

  lemma CutKeeps(c: Cluster, g: AgentId)
    requires Good(c) && g in c.sides
    ensures Good(AfterCut(c, g))
  {
    hide HeadGood, LinksGood, MetGood, FiledGood, NumbersGood, SpawnsGood, CallsGood, RunningGood;
    var c' := AfterCut(c, g);
    SameSides(c, c', g);
    ShrinksKeeps(c, c');
  }

  /** Only the link or the reading of one side differs. */
  lemma SameSides(c: Cluster, c': Cluster, g: AgentId)
    requires g in c.sides && g in c'.sides && c' == c.(sides := c'.sides) && c'.sides == c.sides[g := c'.sides[g]]
    requires c'.sides[g].hosts == c.sides[g].hosts && c'.sides[g].unsent == c.sides[g].unsent
    requires c'.sides[g].link.None? || c'.sides[g].link == c.sides[g].link
    requires c.sides[g].read <= c'.sides[g].read
    ensures Shrinks(c, c') && (SidesGood(c) ==> SidesGood(c'))
  {
    forall h, a ensures HostsActor(c', h, a) == HostsActor(c, h, a) {
    }
    forall h, a, r ensures Working(c', h, a, r) == Working(c, h, a, r) {
    }
    forall h, a, r ensures Jammed(c', h, a, r) == Jammed(c, h, a, r) {
    }
    forall h, r ensures Buffered(c', h, r) == Buffered(c, h, r) {
    }
  }

  lemma LeaveKeeps(c: Cluster, g: AgentId, a: ActorId)
    requires Good(c) && HostsActor(c, g, a)
    ensures Good(AfterLeave(c, g, a))
  {
    hide HeadGood, LinksGood, MetGood, FiledGood, NumbersGood, SpawnsGood, CallsGood, RunningGood;
    var c' := AfterLeave(c, g, a);
    forall h, r ensures Buffered(c', h, r) == Buffered(c, h, r) {
    }
    forall h, x ensures HostsActor(c', h, x) == (HostsActor(c, h, x) && !(h == g && x == a)) {
    }
    forall h, x, r | Working(c', h, x, r) ensures Working(c, h, x, r) {
    }
    forall h, x, r | Jammed(c', h, x, r) ensures Jammed(c, h, x, r) {
    }
    assert Shrinks(c, c');
    assert SidesGood(c');
    ShrinksKeeps(c, c');
  }

  lemma ResendKeeps(c: Cluster, g: AgentId, r: RefId)
    requires Good(c) && Buffered(c, g, r) && c.sides[g].link.Some?
    ensures Good(AfterResend(c, g, r))
  {
    ResultIsKnown(c, g, r);
    hide HeadGood, LinksGood, MetGood, FiledGood, NumbersGood, SpawnsGood, CallsGood, RunningGood;
    var c' := AfterResend(c, g, r);
    forall h, x ensures HostsActor(c', h, x) == HostsActor(c, h, x) {
    }
    forall h, x, q ensures Working(c', h, x, q) == Working(c, h, x, q) {
    }
    forall h, x, q ensures Jammed(c', h, x, q) == Jammed(c, h, x, q) {
    }
    forall h, q | Buffered(c', h, q) ensures Buffered(c, h, q) {
    }
    BufferedIdle(c, g, r);
    assert Shrinks(c, c');
    assert SidesGood(c');
    ShrinksKeeps(c, c');
  }

  /** A buffered result is of no call still running anywhere. */
  lemma BufferedIdle(c: Cluster, g: AgentId, r: RefId)
    requires SidesGood(c) && Buffered(c, g, r)
    ensures forall h, a :: !Working(c, h, a, r)
  {
  }

  lemma FinishKeeps(c: Cluster, g: AgentId, a: ActorId, r: RefId)
    requires Good(c) && Working(c, g, a, r) && !Queues(c.sides[g].hosts[a], r)
    ensures Good(FinishCall(c, g, a, r))
  {
    hide HeadGood, MetGood, FiledGood, NumbersGood, SpawnsGood, CallsGood, RunningGood;
    if c.sides[g].link.Some? {
      ResultIsKnown(c, g, r);
    }
    assert c.sides[g].link.Some? ==> g in c.joined;
    var c' := FinishCall(c, g, a, r);
    forall h, x ensures HostsActor(c', h, x) == HostsActor(c, h, x) {
    }
    forall h, x, q ensures Working(c', h, x, q) == (Working(c, h, x, q) && !(h == g && x == a && q == r)) {
    }
    forall h, x, q ensures Jammed(c', h, x, q) == Jammed(c, h, x, q) {
    }
    forall h, q | Buffered(c', h, q) ensures Buffered(c, h, q) || (h == g && q == r) {
    }
    forall h, x | Working(c, h, x, r) ensures h == g && x == a {
      assert HostsActor(c, h, r.actor) && HostsActor(c, g, r.actor);
    }
    assert Shrinks(c, c');
    assert SidesGood(c');
    ShrinksKeeps(c, c');
  }

  lemma BreakKeeps(c: Cluster, a: ActorId)
    requires Good(c)
    ensures Good(c.(broken := c.broken + {a}))
  {
    hide HeadGood, LinksGood, MetGood, FiledGood, NumbersGood, SpawnsGood, CallsGood, RunningGood;
    var c' := c.(broken := c.broken + {a});
    SameStarted(c, c');
    ShrinksKeeps(c, c');
  }

  /** What connecting a host changes: some calls stop running and are stuck. */
  ghost predicate Connects(c: Cluster, c': Cluster, g: AgentId, a: ActorId, failed: set<RefId>) {
    c' == c.(sides := c'.sides, done := c'.done) && HostsActor(c, g, a) &&
    (forall r :: r in failed ==> Working(c, g, a, r)) &&
    (forall h, x :: HostsActor(c', h, x) == HostsActor(c, h, x)) &&
    (forall h, x, q :: Working(c', h, x, q) == (Working(c, h, x, q) && !(h == g && x == a && q in failed))) &&
    (forall h, x, q :: Jammed(c', h, x, q) == (Jammed(c, h, x, q) || (h == g && x == a && q in failed))) &&
    (forall h, q :: Buffered(c', h, q) ==> Buffered(c, h, q) || (h == g && q in failed)) &&
    (forall q :: q in c.done ==> q in c'.done) &&
    (forall q :: q in c'.done && q !in c.done ==> q in failed && c.sides[g].link.Some?) &&
    (forall h :: h in c'.sides ==> h in c.sides && c'.sides[h].link == c.sides[h].link && c'.sides[h].read == c.sides[h].read)
  }

  lemma ConnectShrinks(c: Cluster, c': Cluster, g: AgentId, a: ActorId, failed: set<RefId>)
    requires Connects(c, c', g, a, failed) && SidesGood(c) && (c.sides[g].link.Some? ==> g in c.joined)
    requires forall h, x :: HostsActor(c', h, x) ==> HostGood(c'.sides[h].hosts[x])
    ensures Shrinks(c, c') && SidesGood(c')
  {
    forall h, i | Open(c', h, i) ensures Open(c, h, i) {
    }
    forall r | Started(c', r) ensures Started(c, r) {
      if r in failed {
        assert Working(c, g, a, r);
      }
    }
    forall r | r in failed ensures r.actor == a && forall h, x :: Working(c, h, x, r) ==> h == g && x == a {
      assert Working(c, g, a, r);
    }
  }

  lemma ConnectKeeps(c: Cluster, g: AgentId, a: ActorId, written: set<RefId>)
    requires Good(c) && HostsActor(c, g, a)
    ensures Good(AfterConnect(c, g, a, written))
  {
    assert c.sides[g].link.Some? ==> g in c.joined;
    var c' := AfterConnect(c, g, a, written);
    var failed := Unwritten(c.sides[g].hosts[a].queued, written);
    hide HeadGood, LinksGood, FiledGood, NumbersGood, SpawnsGood, CallsGood, RunningGood, Through;
    assert HostGood(c.sides[g].hosts[a]);
    ConnectIs(c, c', g, a, written);
    hide AfterConnect, Unwritten;
    ConnectShrinks(c, c', g, a, failed);
    ShrinksKeeps(c, c');
  }

  lemma DrainedIs(h: Host, written: set<RefId>)
    requires HostGood(h)
    ensures HostGood(Drained(h, written)) && Unwritten(h.queued, written) <= h.running
    ensures Drained(h, written).running == h.running - Unwritten(h.queued, written)
    ensures Drained(h, written).stuck == h.stuck + Unwritten(h.queued, written)
  {
  }

  /** One host's entry replaced, its link kept. */
  lemma ReplacedHost(c: Cluster, c': Cluster, g: AgentId, a: ActorId, row: Host, failed: set<RefId>)
    requires HostsActor(c, g, a) && g in c'.sides && c' == c.(sides := c'.sides, done := c'.done)
    requires c'.sides == c.sides[g := c'.sides[g]] && c'.sides[g].hosts == c.sides[g].hosts[a := row]
    requires c'.sides[g].link == c.sides[g].link && c'.sides[g].read == c.sides[g].read
    requires failed <= c.sides[g].hosts[a].running
    requires row.running == c.sides[g].hosts[a].running - failed && row.stuck == c.sides[g].hosts[a].stuck + failed
    requires c'.sides[g].unsent == if c.sides[g].link.Some? then c.sides[g].unsent else c.sides[g].unsent + failed
    requires c'.done == if c.sides[g].link.Some? then c.done + failed else c.done
    ensures Connects(c, c', g, a, failed)
  {
  }

  lemma ConnectIs(c: Cluster, c': Cluster, g: AgentId, a: ActorId, written: set<RefId>)
    requires SidesGood(c) && HostsActor(c, g, a) && c' == AfterConnect(c, g, a, written)
    ensures Connects(c, c', g, a, Unwritten(c.sides[g].hosts[a].queued, written))
    ensures forall h, x :: HostsActor(c', h, x) ==> HostGood(c'.sides[h].hosts[x])
  {
    var h := c.sides[g].hosts[a];
    assert HostGood(h);
    DrainedIs(h, written);
    hide Drained, Unwritten, HostGood, Connects;
    forall k, x | HostsActor(c', k, x) ensures HostGood(c'.sides[k].hosts[x]) {
      if !(k == g && x == a) {
        assert HostsActor(c, k, x) && c'.sides[k].hosts[x] == c.sides[k].hosts[x];
      }
    }
    hide SidesGood;
    ReplacedHost(c, c', g, a, Drained(h, written), Unwritten(h.queued, written));
  }

  // --------------------------------------------------------- reading a frame

  lemma SpawnTaken(c: Cluster, c': Cluster, g: AgentId, i: nat, written: bool, a: ActorId)
    requires Good(c) && SpawnsAt(c, g, i, a) && c' == TakeFrame(c, g, i, written)
    ensures SidesGood(c') && LinksGood(c') && MetGood(c') && FiledGood(c') && RunningGood(c')
    ensures (forall r :: Started(c', r) == Started(c, r)) && (forall h, x :: HostsActor(c', h, x) == (HostsActor(c, h, x) || (h == g && x == a)))
    ensures forall h, j :: Open(c', h, j) ==> Open(c, h, j) && j != i
  {
    hide HeadGood, CallsGood, NumbersGood;
    forall h, x ensures HostsActor(c', h, x) == (HostsActor(c, h, x) || (h == g && x == a)) {
    }
    forall h, x, r ensures Working(c', h, x, r) == Working(c, h, x, r) {
    }
    forall h, x, r ensures Jammed(c', h, x, r) == Jammed(c, h, x, r) {
    }
    forall h, r ensures Buffered(c', h, r) == Buffered(c, h, r) {
    }
  }

  lemma TakeSpawnKeeps(c: Cluster, g: AgentId, i: nat, written: bool)
    requires Good(c) && Open(c, g, i) && c.head.sent[i].msg.Spawn?
    ensures Good(TakeFrame(c, g, i, written))
  {
    var c' := TakeFrame(c, g, i, written);
    var a := c.head.sent[i].msg.actor;
    SpawnTaken(c, c', g, i, written, a);
    hide HeadGood, SidesGood, LinksGood, MetGood, FiledGood, RunningGood, Started, TakeFrame;
    forall h, j, x | SpawnsAt(c', h, j, x)
      ensures x !in c'.gone && (forall k :: !HostsActor(c', k, x))
      ensures (x in c'.head.actors ==> c'.head.actors[x].agent == h) && (!Condemned(c', x) ==> LiveHere(c'.head, x))
    {
      assert SpawnsAt(c, h, j, x) && j != i;
      assert x != a;
    }
    forall h, j, r | HandsAt(c', h, j, r)
      ensures !Started(c', r) && StillOwed(c', r) && BoundFor(c', r, h)
    {
      assert HandsAt(c, h, j, r);
    }
  }

  /** A handed call's identifier appears in no other frame and in no queue. */
  lemma HandedOnce(st: State, i: nat)
    requires Handing(st) && i < |st.sent| && st.sent[i].msg.Dispatch?
    ensures var r := st.sent[i].msg.call.ref;
            r.actor == st.sent[i].msg.actor && r.n < st.nextRef && !QueuedFor(st, r) &&
            forall j :: 0 <= j < |st.sent| && j != i && st.sent[j].msg.Dispatch? ==> st.sent[j].msg.call.ref != r
  {
    var r := st.sent[i].msg.call.ref;
    assert KnownCall(st, st.sent[i].msg.actor, st.sent[i].msg.call);
    if QueuedFor(st, r) {
      assert GoodQueue(st, r.actor, st.actors[r.actor].queued);
      var k :| 0 <= k < |st.actors[r.actor].queued| && st.actors[r.actor].queued[k].ref == r;
      assert Hands(st.sent[i], r.actor);
      assert false;
    }
    forall j | 0 <= j < |st.sent| && j != i && st.sent[j].msg.Dispatch? ensures st.sent[j].msg.call.ref != r {
      assert KnownCall(st, st.sent[j].msg.actor, st.sent[j].msg.call);
      if st.sent[j].msg.actor == r.actor {
        assert Hands(st.sent[j], r.actor) && Hands(st.sent[i], r.actor);
      }
    }
  }

  /** Only the one host is touched, and only by the one call. */
  lemma CallTakenHosts(c: Cluster, c': Cluster, g: AgentId, i: nat, written: bool, r: RefId)
    requires HandsAt(c, g, i, r) && c' == TakeFrame(c, g, i, written) && r.actor == c.head.sent[i].msg.actor
    requires !Working(c, g, r.actor, r) && forall h, x :: HostsActor(c, h, x) ==> HostGood(c.sides[h].hosts[x])
    ensures forall h, x :: HostsActor(c', h, x) == HostsActor(c, h, x)
    ensures forall h, x, q :: Working(c', h, x, q) ==> Working(c, h, x, q) || (h == g && x == r.actor && q == r)
    ensures forall h, x, q :: Jammed(c', h, x, q) ==>
              (Jammed(c, h, x, q) || (h == g && x == r.actor && q == r && !Working(c', h, x, q) && q in c'.done))
    ensures forall h, x :: HostsActor(c', h, x) ==> HostGood(c'.sides[h].hosts[x])
    ensures forall h, q :: Buffered(c', h, q) == Buffered(c, h, q)
  {
    forall h, x | HostsActor(c', h, x) ensures HostGood(c'.sides[h].hosts[x]) {
      assert HostGood(c.sides[h].hosts[x]);
    }
  }

  lemma CallTaken(c: Cluster, c': Cluster, g: AgentId, i: nat, written: bool, r: RefId)
    requires Good(c) && HandsAt(c, g, i, r) && c' == TakeFrame(c, g, i, written) && r.actor == c.head.sent[i].msg.actor
    ensures SidesGood(c') && LinksGood(c') && MetGood(c') && FiledGood(c') && RunningGood(c')
    ensures (forall q :: Started(c', q) ==> Started(c, q) || q == r) && (forall h, x :: HostsActor(c', h, x) == HostsActor(c, h, x))
    ensures forall h, j :: Open(c', h, j) ==> Open(c, h, j) && j != i
  {
    hide HeadGood, NumbersGood, SpawnsGood, HostGood;
    assert !Started(c, r) && StillOwed(c, r);
    assert !Working(c, g, r.actor, r);
    CallTakenHosts(c, c', g, i, written, r);
    assert SidesGood(c');
    assert LinksGood(c') && FiledGood(c');
    assert MetGood(c');
  }

  lemma TakeCallKeeps(c: Cluster, g: AgentId, i: nat, written: bool)
    requires Good(c) && Open(c, g, i) && c.head.sent[i].msg.Dispatch?
    ensures Good(TakeFrame(c, g, i, written))
  {
    var c' := TakeFrame(c, g, i, written);
    var r := c.head.sent[i].msg.call.ref;
    HandedOnce(c.head, i);
    assert HandsAt(c, g, i, r);
    CallTaken(c, c', g, i, written, r);
    assert c' == c.(sides := c'.sides, done := c'.done);
    hide HeadGood, SidesGood, LinksGood, MetGood, FiledGood, RunningGood, Started, TakeFrame;
    forall h, j, x | SpawnsAt(c', h, j, x)
      ensures x !in c'.gone && (forall k :: !HostsActor(c', k, x))
      ensures (x in c'.head.actors ==> c'.head.actors[x].agent == h) && (!Condemned(c', x) ==> LiveHere(c'.head, x))
    {
      assert SpawnsAt(c, h, j, x);
    }
    forall h, j, q | HandsAt(c', h, j, q)
      ensures !Started(c', q) && StillOwed(c', q) && BoundFor(c', q, h)
    {
      assert HandsAt(c, h, j, q) && j != i;
    }
  }

  lemma TakeKeeps(c: Cluster, g: AgentId, i: nat, written: bool)
    requires Good(c) && Open(c, g, i)
    ensures Good(TakeFrame(c, g, i, written))
  {
    hide Good;
    if c.head.sent[i].msg.Spawn? {
      TakeSpawnKeeps(c, g, i, written);
    } else if c.head.sent[i].msg.Dispatch? {
      TakeCallKeeps(c, g, i, written);
    } else {
      KillReadKeeps(c, g, i, written);
    }
  }

  lemma KillReadKeeps(c: Cluster, g: AgentId, i: nat, written: bool)
    requires Good(c) && Open(c, g, i) && c.head.sent[i].msg.Kill?
    ensures Good(TakeFrame(c, g, i, written))
  {
    hide HeadGood, LinksGood, MetGood, FiledGood, NumbersGood, SpawnsGood, CallsGood, RunningGood;
    var c' := TakeFrame(c, g, i, written);
    SameSides(c, c', g);
    ShrinksKeeps(c, c');
  }

  // ------------------------------------------------- tame steps of the head

  /** A step of the head that changes no side: how the cluster looks after. */
  ghost predicate HeadOnly(c: Cluster, c': Cluster) {
    c'.sides == c.sides && c'.done == c.done && c'.gone == c.gone && c'.joined == c.joined &&
    c.killed <= c'.killed && c.abandoned <= c'.abandoned && c'.broken == c.broken && c.reaped <= c'.reaped && c'.met == c.met + c'.head.actors.Keys
  }

  /** Nobody dies, and no call stops being waited for, without an excuse. */
  ghost predicate Excused(c: Cluster, c': Cluster, dead: set<ActorId>, ended: set<RefId>) {
    (forall g, a :: HostsActor(c, g, a) && g in c.joined && !Condemned(c', a) ==> a !in dead) &&
    (forall g, i, a :: SpawnsAt(c, g, i, a) && !Condemned(c', a) ==> a !in dead) &&
    (forall g, i, r :: HandsAt(c, g, i, r) && !Condemned(c', r.actor) && r.actor !in c.gone && LiveHere(c.head, r.actor) ==>
       r.actor !in dead) &&
    (forall r :: r in ended ==> r in c'.reaped || r in c.done)
  }

  lemma SameStarted(c: Cluster, c': Cluster)
    requires c'.sides == c.sides && c'.done == c.done
    ensures forall r :: Started(c', r) == Started(c, r)
    ensures forall g, a :: HostsActor(c', g, a) == HostsActor(c, g, a)
    ensures forall g, a, r :: Working(c', g, a, r) == Working(c, g, a, r)
    ensures forall g, a, r :: Jammed(c', g, a, r) == Jammed(c, g, a, r)
    ensures forall g, r :: Buffered(c', g, r) == Buffered(c, g, r)
  {
    forall g, a, r ensures Jammed(c', g, a, r) == Jammed(c, g, a, r) {
    }
    forall g, a ensures HostsActor(c', g, a) == HostsActor(c, g, a) {
    }
    forall g, a, r ensures Working(c', g, a, r) == Working(c, g, a, r) {
    }
    forall g, r ensures Buffered(c', g, r) == Buffered(c, g, r) {
    }
  }

  lemma TameFrames(c: Cluster, c': Cluster)
    requires c'.sides == c.sides && OnlyKillsAdded(c.head.sent, c'.head.sent)
    ensures forall g, i, a :: SpawnsAt(c', g, i, a) ==> SpawnsAt(c, g, i, a)
    ensures forall g, i, r :: HandsAt(c', g, i, r) ==> HandsAt(c, g, i, r)
  {
    assert forall i :: 0 <= i < |c.head.sent| ==> c'.head.sent[i] == c'.head.sent[..|c.head.sent|][i];
  }

  lemma TameQueued(st: State, st': State, r: RefId)
    requires QueuesKept(st.actors, st'.actors) && QueuedFor(st', r)
    ensures QueuedFor(st, r)
  {
    var k :| 0 <= k < |st'.actors[r.actor].queued| && st'.actors[r.actor].queued[k].ref == r;
    assert st.actors[r.actor].queued[k].ref == r;
  }

  lemma TameSpawns(c: Cluster, c': Cluster, dead: set<ActorId>, ended: set<RefId>)
    requires SpawnsGood(c) && HeadOnly(c, c') && Tame(c.head, c'.head, dead, ended) && Excused(c, c', dead, ended)
    ensures SpawnsGood(c')
  {
    hide CallsTame;
    TameFrames(c, c');
    SameStarted(c, c');
    assert forall i :: 0 <= i < |c.head.sent| ==> c'.head.sent[i] == c'.head.sent[..|c.head.sent|][i];
    forall g, i, a | SpawnsAt(c', g, i, a)
      ensures a !in c'.gone && (forall h :: !HostsActor(c', h, a))
      ensures (a in c'.head.actors ==> c'.head.actors[a].agent == g) && (!Condemned(c', a) ==> LiveHere(c'.head, a))
    {
      assert SpawnsAt(c, g, i, a);
    }
  }

  lemma TameOwed(c: Cluster, c': Cluster, dead: set<ActorId>, ended: set<RefId>, r: RefId)
    requires HeadOnly(c, c') && Tame(c.head, c'.head, dead, ended) && Excused(c, c', dead, ended)
    requires !Started(c, r) && StillOwed(c, r)
    requires !Condemned(c', r.actor) && r.actor !in c.gone ==> LiveHere(c.head, r.actor) ==> LiveHere(c'.head, r.actor)
    ensures StillOwed(c', r)
  {
  }

  lemma TameCalls(c: Cluster, c': Cluster, dead: set<ActorId>, ended: set<RefId>)
    requires CallsGood(c) && HeadOnly(c, c') && Tame(c.head, c'.head, dead, ended) && Excused(c, c', dead, ended)
    requires Quiet(c'.head)
    ensures CallsGood(c')
  {
    TameFrames(c, c');
    SameStarted(c, c');
    forall g, i, r | HandsAt(c', g, i, r)
      ensures !Started(c', r) && StillOwed(c', r) && BoundFor(c', r, g)
    {
      assert HandsAt(c, g, i, r);
      TameOwed(c, c', dead, ended, r);
    }
    forall r | QueuedFor(c'.head, r) ensures !Started(c', r) && StillOwed(c', r) {
      TameQueued(c.head, c'.head, r);
      TameOwed(c, c', dead, ended, r);
    }
  }

  lemma TameRest(c: Cluster, c': Cluster, dead: set<ActorId>, ended: set<RefId>)
    requires SidesGood(c) && MetGood(c) && FiledGood(c) && NumbersGood(c) && RunningGood(c)
    requires HeadOnly(c, c') && Tame(c.head, c'.head, dead, ended) && Excused(c, c', dead, ended)
    ensures SidesGood(c') && MetGood(c') && FiledGood(c') && NumbersGood(c') && RunningGood(c')
  {
    SameStarted(c, c');
    hide Started;
    assert c'.met == c.met;
    assert forall i :: 0 <= i < |c.head.sent| ==> c'.head.sent[i] == c'.head.sent[..|c.head.sent|][i];
    assert SidesGood(c');
    assert MetGood(c');
    assert FiledGood(c');
    forall g, a, r | Working(c', g, a, r) && g in c'.joined && !Condemned(c', a) && r !in c'.reaped
      ensures WaitsFor(c'.head, r)
    {
      assert Working(c, g, a, r) && r.actor == a;
      assert LiveHere(c.head, a) && LiveHere(c'.head, a) && Owed(c.head, r);
    }
  }

  lemma TameKeeps(c: Cluster, c': Cluster, dead: set<ActorId>, ended: set<RefId>)
    requires Good(c) && HeadOnly(c, c') && Tame(c.head, c'.head, dead, ended) && Excused(c, c', dead, ended)
    requires HeadGood(c'.head) && LinksGood(c')
    ensures Good(c')
  {
    assert Quiet(c'.head);
    hide HeadGood, SidesGood, LinksGood, MetGood, FiledGood, NumbersGood, SpawnsGood, CallsGood, RunningGood, Tame, Excused,
         HeadOnly, Quiet;
    TameSpawns(c, c', dead, ended);
    TameCalls(c, c', dead, ended);
    TameRest(c, c', dead, ended);
  }

  /** The excuses hold of every tame step: what it kills is counted as killed,
      what agents report dead is gone or broken, and the actors of agents given up
      on are counted as abandoned. */
  lemma TameExcused(c: Cluster, cfg: Config, step: Step)
    requires Good(c) && HeadMoves(c, step) && !step.event.ActorCreate? && !step.event.ActorCall?
    ensures Excused(c, AfterHead(c, cfg, step), DeadlyFor(c.head, cfg, step.now, step.event), EndedBy(c.head, cfg, step.event))
  {
    hide Apply, HeadGood, CallsTame, NumbersGood, RunningGood, KillsOf, ReapedBy, IsOrder, Sane, Steady;
    var c' := AfterHead(c, cfg, step);
    var e := step.event;
  }

  lemma HeadStaysGood(st: State, cfg: Config, step: Step)
    requires HeadGood(st) && IsOrder(step.ord) && Sane(st, step.event) && Steady(st, step.event)
    requires UpNotLost(Apply(st, cfg, step.ord, step.now, step.event))
    ensures HeadGood(Apply(st, cfg, step.ord, step.now, step.event))
  {
    hide Apply, RowsHold, Handing, HeldWhileAway, UpNotLost, IsOrder, Sane, Steady, Onward;
    StepRows(st, cfg, step.ord, step.now, step.event);
    StepKeepsCalls(st, cfg, step.ord, step.now, step.event);
  }

  lemma LinksKept(c: Cluster, c': Cluster, e: Event)
    requires LinksGood(c) && c'.sides == c.sides && c'.joined == c.joined && UpKeptBy(c.head, c'.head, e)
    requires e.LinkLost? && e.agent in c.sides ==> c.sides[e.agent].link != Some(e.conn)
    ensures LinksGood(c')
  {
  }

  lemma TameMoveKeeps(c: Cluster, cfg: Config, step: Step)
    requires Good(c) && HeadMoves(c, step) && !step.event.ActorCreate? && !step.event.ActorCall?
    ensures Good(AfterHead(c, cfg, step))
  {
    hide Apply, RowsHold, Handing, HeldWhileAway, SidesGood, LinksGood, MetGood, FiledGood, NumbersGood, SpawnsGood, CallsGood,
         RunningGood, Tame, Excused, IsOrder, Sane, Steady, DeadlyFor, EndedBy, KillsOf, ReapedBy, UpNotLost, UpKeptBy;
    TameExcused(c, cfg, step);
    var c' := AfterHead(c, cfg, step);
    StepTame(c.head, cfg, step.ord, step.now, step.event);
    UpKeptGives(c.head, c'.head, step.event);
    HeadStaysGood(c.head, cfg, step);
    LinksKept(c, c', step.event);
    TameKeeps(c, c', DeadlyFor(c.head, cfg, step.now, step.event), EndedBy(c.head, cfg, step.event));
  }

  lemma UpKeptGives(st: State, st': State, e: Event)
    requires UpKeptBy(st, st', e)
    ensures UpNotLost(st')
  {
  }

  // ------------------------------------------------------ making an actor

  ghost predicate SpawnAdded(st: State, st': State, a: ActorId, g: AgentId) {
    |st'.sent| == |st.sent| + 1 && st'.sent[..|st.sent|] == st.sent &&
    st'.sent[|st.sent|].agent == g && st'.sent[|st.sent|].msg.Spawn? && st'.sent[|st.sent|].msg.actor == a &&
    LiveHere(st', a) && st'.actors[a].agent == g
  }

  /** Making an actor adds one row and at most one frame, its spawn. */
  ghost predicate Makes(st: State, st': State, a: ActorId) {
    st'.refs == st.refs && st'.agents == st.agents && st'.nextRef == st.nextRef &&
    (forall x :: x in st.actors ==> x in st'.actors && st'.actors[x] == st.actors[x]) &&
    (forall x :: x in st'.actors && x !in st.actors ==> x == a && st'.actors[x].queued == []) &&
    (st'.sent == st.sent || exists g :: SpawnAdded(st, st', a, g))
  }

  lemma MakesActor(st: State, cfg: Config, ord: Order, now: nat, client: ClientId, a: ActorId, name: Name,
                   numGpus: nat, pg: PgId, index: nat, delivered: bool)
    requires RefRows(st) && a !in st.actors
    ensures Makes(st, CreateActor(st, cfg, ord, now, client, a, name, numGpus, pg, index, delivered), a)
  {
    hide MarkDead;
    var st' := CreateActor(st, cfg, ord, now, client, a, name, numGpus, pg, index, delivered);
    var group := ClientGroup(st, client);
    if Creatable(st, group, name, numGpus, pg, index) {
      var b := st.pgs[pg].assignment[index].value;
      var row := Actor(name, group, b.agent, b.node, b.gpuIds, client, Spawning, [], Some(pg));
      var made := st.(actors := st.actors[a := row]);
      if delivered {
        assert SpawnAdded(st, st', a, b.agent);
      } else {
        MarkDeadDied(made, cfg, ord, now, a);
        NoCallDies(made, st', st, a, now);
        MarkDeadSends(made, cfg, ord, now, a);
      }
    }
  }

  lemma NoCallDies(made: State, st': State, st: State, a: ActorId, now: nat)
    requires Died(made, st', {a}, now) && made.refs == st.refs && RefRows(st) && a !in st.actors
    ensures st'.refs == st.refs
  {
  }

  lemma MarkDeadSends(st: State, cfg: Config, ord: Order, now: nat, a: ActorId)
    ensures MarkDead(st, cfg, ord, now, a).sent == st.sent
  {
    hide TryPlace;
    TryPlaceOnlyPlaces(Bury(st, now, a), cfg, ord);
  }

  lemma MakesFrames(c: Cluster, c': Cluster, a: ActorId)
    requires HeadOnly(c, c') && Makes(c.head, c'.head, a)
    ensures |c.head.sent| <= |c'.head.sent| && forall i :: 0 <= i < |c.head.sent| ==> c'.head.sent[i] == c.head.sent[i]
    ensures forall g, i, x :: SpawnsAt(c', g, i, x) ==>
              SpawnsAt(c, g, i, x) || (x == a && LiveHere(c'.head, a) && c'.head.actors[a].agent == g)
    ensures forall g, i, r :: HandsAt(c', g, i, r) ==> HandsAt(c, g, i, r)
    ensures forall i :: |c.head.sent| <= i < |c'.head.sent| ==> c'.head.sent[i].msg.Spawn? && c'.head.sent[i].msg.actor == a
    ensures |c'.head.sent| <= |c.head.sent| + 1
  {
    assert forall i :: 0 <= i < |c.head.sent| ==> c'.head.sent[i] == c'.head.sent[..|c.head.sent|][i];
  }

  lemma MakesSpawns(c: Cluster, c': Cluster, a: ActorId)
    requires SpawnsGood(c) && MetGood(c) && HeadOnly(c, c') && Makes(c.head, c'.head, a)
    requires a !in c.met && a !in c.gone && forall g :: !HostsActor(c, g, a)
    ensures SpawnsGood(c')
  {
    MakesFrames(c, c', a);
    SameStarted(c, c');
    forall g, i, x | SpawnsAt(c', g, i, x)
      ensures x !in c'.gone && (forall h :: !HostsActor(c', h, x))
      ensures (x in c'.head.actors ==> c'.head.actors[x].agent == g) && (!Condemned(c', x) ==> LiveHere(c'.head, x))
    {
      if SpawnsAt(c, g, i, x) {
        assert x in c.met;
      }
    }
  }

  lemma MakesCalls(c: Cluster, c': Cluster, a: ActorId)
    requires CallsGood(c) && HeadOnly(c, c') && Makes(c.head, c'.head, a) && MetGood(c) && Handing(c.head) && a !in c.met
    ensures CallsGood(c')
  {
    MakesFrames(c, c', a);
    SameStarted(c, c');
    forall g, i, r | HandsAt(c', g, i, r)
      ensures !Started(c', r) && StillOwed(c', r) && BoundFor(c', r, g)
    {
      assert HandsAt(c, g, i, r);
      HandedOnce(c.head, i);
    }
    forall r | QueuedFor(c'.head, r) ensures !Started(c', r) && StillOwed(c', r) {
      assert QueuedFor(c.head, r);
    }
  }

  lemma MakesRest(c: Cluster, c': Cluster, a: ActorId)
    requires SidesGood(c) && MetGood(c) && FiledGood(c) && NumbersGood(c) && RunningGood(c) && LinksGood(c)
    requires HeadOnly(c, c') && Makes(c.head, c'.head, a)
    requires a !in c.met && a !in c.gone && forall g :: !HostsActor(c, g, a)
    ensures SidesGood(c') && MetGood(c') && FiledGood(c') && NumbersGood(c') && RunningGood(c') && LinksGood(c')
  {
    MakesFrames(c, c', a);
    SameStarted(c, c');
    assert SidesGood(c') && LinksGood(c') && FiledGood(c') && RunningGood(c');
    assert forall x :: x in c'.met ==> x in c.met || x == a;
    forall i | 0 <= i < |c'.head.sent| && !c'.head.sent[i].msg.Kill? ensures c'.head.sent[i].msg.actor in c'.met {
      if i < |c.head.sent| {
        assert c.head.sent[i].msg.actor in c.met;
      } else {
        SpawnedIsMet(c, c', a);
      }
    }
    assert MetGood(c');
    forall r | Started(c', r) && r.actor in c'.met ensures r.n < c'.head.nextRef {
      assert Started(c, r);
    }
  }

  lemma SpawnedIsMet(c: Cluster, c': Cluster, a: ActorId)
    requires HeadOnly(c, c') && Makes(c.head, c'.head, a) && |c'.head.sent| > |c.head.sent|
    ensures a in c'.met
  {
    var g :| SpawnAdded(c.head, c'.head, a, g);
  }

  lemma CreateMoveKeeps(c: Cluster, cfg: Config, step: Step)
    requires Good(c) && HeadMoves(c, step) && step.event.ActorCreate?
    ensures Good(AfterHead(c, cfg, step))
  {
    var e := step.event;
    var c' := AfterHead(c, cfg, step);
    assert RefRows(c.head);
    MakesActor(c.head, cfg, step.ord, step.now, e.client, e.actor, e.name, e.numGpus, e.pg, e.index, e.delivered);
    assert HeadOnly(c, c') && Makes(c.head, c'.head, e.actor);
    hide Apply, RowsHold, Handing, HeldWhileAway, SidesGood, LinksGood, MetGood, FiledGood, NumbersGood, SpawnsGood, CallsGood,
         RunningGood, IsOrder, Sane, Steady, HeadOnly;
    assert UpNotLost(c'.head);
    hide UpNotLost, Makes;
    HeadStaysGood(c.head, cfg, step);
    MakesSpawns(c, c', e.actor);
    MakesCalls(c, c', e.actor);
    MakesRest(c, c', e.actor);
  }

  // --------------------------------------------------------- making a call

  ghost predicate HandAdded(st: State, st': State, r: RefId) {
    |st'.sent| == |st.sent| + 1 && st'.sent[..|st.sent|] == st.sent && r.actor in st.actors &&
    st'.sent[|st.sent|].agent == st.actors[r.actor].agent && st'.sent[|st.sent|].msg.Dispatch? &&
    st'.sent[|st.sent|].msg.actor == r.actor && st'.sent[|st.sent|].msg.call.ref == r
  }

  /** A call adds at most one row, one held call or one frame, all under the next
      number, and a call held or sent is one the head waits for. */
  ghost predicate MakesOne(st: State, st': State, r: RefId) {
    r.n == st.nextRef && st'.nextRef == st.nextRef + 1 && st'.agents == st.agents && st'.actors.Keys == st.actors.Keys &&
    (forall a :: a in st.actors ==> SameActor(st.actors[a], st'.actors[a]) && Live(st.actors[a]) == Live(st'.actors[a])) &&
    (forall q :: q in st.refs && q != r ==> q in st'.refs && st'.refs[q] == st.refs[q]) &&
    (forall q :: QueuedFor(st', q) ==> QueuedFor(st, q) || (q == r && Owed(st', r))) &&
    (st'.sent == st.sent || (HandAdded(st, st', r) && Owed(st', r)))
  }

  lemma QueuedAfter(st: State, st': State, a: ActorId, call: Call, q: RefId)
    requires a in st.actors && st'.actors == st.actors[a := Enqueued(st.actors[a], call)] && QueuedFor(st', q)
    ensures QueuedFor(st, q) || q == call.ref
  {
    var k :| 0 <= k < |st'.actors[q.actor].queued| && st'.actors[q.actor].queued[k].ref == q;
    if q.actor != a || k < |st.actors[a].queued| {
      assert st.actors[q.actor].queued[k].ref == q;
    }
  }

  lemma MakesCall(st: State, client: ClientId, a: ActorId, body: nat, delivered: bool)
    ensures MakesOne(st, MakeCall(st, client, a, body, delivered), RefId(a, st.nextRef))
  {
    var r := RefId(a, st.nextRef);
    var st' := MakeCall(st, client, a, body, delivered);
    CallFrame(st, client, a, body, delivered);
    if FateOf(st, a, delivered) == Goes {
      CallSent(st, client, a, body, delivered);
      hide MakeCall;
      assert HandAdded(st, st', r) && Owed(st', r);
    } else if FateOf(st, a, delivered) in {Hold, SendFails} {
      CallQueued(st, client, a, body, delivered);
      hide MakeCall;
      forall q | QueuedFor(st', q) ensures QueuedFor(st, q) || (q == r && Owed(st', r)) {
        QueuedAfter(st, st', a, Call(r, body), q);
      }
    } else {
      assert st'.sent == st.sent;
    }
  }

  lemma CallFrames(c: Cluster, c': Cluster, r: RefId)
    requires HeadOnly(c, c') && MakesOne(c.head, c'.head, r)
    ensures |c.head.sent| <= |c'.head.sent| && forall i :: 0 <= i < |c.head.sent| ==> c'.head.sent[i] == c.head.sent[i]
    ensures forall i :: |c.head.sent| <= i < |c'.head.sent| ==> c'.head.sent[i].msg.Dispatch? && c'.head.sent[i].msg.actor in c.head.actors
    ensures forall g, i, x :: SpawnsAt(c', g, i, x) ==> SpawnsAt(c, g, i, x)
    ensures forall g, i, q :: HandsAt(c', g, i, q) ==>
              HandsAt(c, g, i, q) || (q == r && Owed(c'.head, r) && c'.head.actors[r.actor].agent == g)
  {
    assert forall i :: 0 <= i < |c.head.sent| ==> c'.head.sent[i] == c'.head.sent[..|c.head.sent|][i];
  }

  /** The number a call takes is of no call that ever began. */
  lemma NewCallIsNew(c: Cluster, a: ActorId)
    requires Good(c) && a in c.head.actors
    ensures !Started(c, RefId(a, c.head.nextRef)) && RefId(a, c.head.nextRef) !in c.head.refs
  {
    hide SidesGood, LinksGood, FiledGood, SpawnsGood, CallsGood, RunningGood, Handing, HeldWhileAway, UpNotLost;
  }

  lemma CallMoveCalls(c: Cluster, c': Cluster, r: RefId)
    requires CallsGood(c) && HeadOnly(c, c') && MakesOne(c.head, c'.head, r) && r !in c.head.refs
    requires r.actor in c.head.actors ==> !Started(c, r)
    ensures CallsGood(c')
  {
    CallFrames(c, c', r);
    SameStarted(c, c');
    forall g, i, q | HandsAt(c', g, i, q)
      ensures !Started(c', q) && StillOwed(c', q) && BoundFor(c', q, g)
    {
      if HandsAt(c, g, i, q) {
        assert StillOwed(c, q);
      }
    }
  }

  lemma CallMoveRest(c: Cluster, c': Cluster, r: RefId)
    requires SidesGood(c) && MetGood(c) && FiledGood(c) && NumbersGood(c) && RunningGood(c) && LinksGood(c) && SpawnsGood(c)
    requires HeadOnly(c, c') && MakesOne(c.head, c'.head, r) && r !in c.head.refs
    ensures SidesGood(c') && MetGood(c') && FiledGood(c') && NumbersGood(c') && RunningGood(c') && LinksGood(c') && SpawnsGood(c')
  {
    CallFrames(c, c', r);
    SameStarted(c, c');
    hide Started;
    assert c'.met == c.met;
    assert SidesGood(c') && LinksGood(c') && FiledGood(c') && RunningGood(c') && NumbersGood(c');
    assert MetGood(c');
    forall g, i, x | SpawnsAt(c', g, i, x)
      ensures x !in c'.gone && (forall h :: !HostsActor(c', h, x))
      ensures (x in c'.head.actors ==> c'.head.actors[x].agent == g) && (!Condemned(c', x) ==> LiveHere(c'.head, x))
    {
      assert SpawnsAt(c, g, i, x);
    }
  }

  lemma CallMoveKeeps(c: Cluster, cfg: Config, step: Step)
    requires Good(c) && HeadMoves(c, step) && step.event.ActorCall?
    ensures Good(AfterHead(c, cfg, step))
  {
    var e := step.event;
    var c' := AfterHead(c, cfg, step);
    var r := RefId(e.actor, c.head.nextRef);
    MakesCall(c.head, e.client, e.actor, e.body, e.delivered);
    assert HeadOnly(c, c') && MakesOne(c.head, c'.head, r);
    assert r !in c.head.refs;
    if e.actor in c.head.actors {
      NewCallIsNew(c, e.actor);
    }
    hide Apply, RowsHold, Handing, HeldWhileAway, SidesGood, LinksGood, MetGood, FiledGood, NumbersGood, SpawnsGood, CallsGood,
         RunningGood, IsOrder, Sane, Steady, HeadOnly, Started;
    assert UpNotLost(c'.head);
    hide UpNotLost, MakesOne;
    HeadStaysGood(c.head, cfg, step);
    CallMoveCalls(c, c', r);
    CallMoveRest(c, c', r);
  }

  // --------------------------------------------------------- registration

  /** A registration as the cluster sees it. */
  ghost predicate JoinMove(c: Cluster, c': Cluster, e: Event) {
    e.Register? && e.agent in c.sides && c.sides[e.agent].link.None? &&
    ResumeOf(c.sides[e.agent], e.resume) && SetOf(e.unacked) == c.sides[e.agent].unsent &&
    c' == c.(head := c'.head, met := c.met + c'.head.actors.Keys, joined := c.joined + {e.agent},
             killed := c.killed + RejectedIn(c.head, e.resume),
             sides := c.sides[e.agent := c.sides[e.agent].(link := Some(c.head.nextSeq), read := |c.head.sent|)]) &&
    JoinedAs(c.head, c'.head, e.agent, e.group, e.node, e.gpus, e.resume, Reported(e.resume, e.unacked))
  }

  lemma JoinSides(c: Cluster, c': Cluster, e: Event)
    requires JoinMove(c, c', e)
    ensures forall g, a :: HostsActor(c', g, a) == HostsActor(c, g, a)
    ensures forall g, a, r :: Working(c', g, a, r) == Working(c, g, a, r)
    ensures forall g, a, r :: Jammed(c', g, a, r) == Jammed(c, g, a, r)
    ensures forall g, r :: Buffered(c', g, r) == Buffered(c, g, r)
    ensures forall r :: Started(c', r) == Started(c, r)
    ensures forall a :: HostsActor(c, e.agent, a) <==> Resumes(e.resume, a)
    ensures forall g, a :: HostsActor(c, g, a) ==> c'.sides[g].hosts[a] == c.sides[g].hosts[a]
  {
    hide JoinedAs;
    forall g, a, r ensures Jammed(c', g, a, r) == Jammed(c, g, a, r) {
    }
    forall g, a ensures HostsActor(c', g, a) == HostsActor(c, g, a) {
    }
    forall g, a, r ensures Working(c', g, a, r) == Working(c, g, a, r) {
    }
    forall g, r ensures Buffered(c', g, r) == Buffered(c, g, r) {
    }
  }

  /** Everything an agent works on or could not send is in its report. */
  lemma {:induction false} PendingReported(resume: seq<Resumed>, k: nat, r: RefId)
    requires k < |resume| && r in resume[k].pending
    ensures r in Pendings(resume)
    decreases |resume|
  {
    var n := |resume| - 1;
    if k < n {
      PendingReported(resume[..n], k, r);
    }
  }

  lemma AllReported(c: Cluster, c': Cluster, e: Event, r: RefId)
    requires JoinMove(c, c', e)
    requires (exists a :: Working(c, e.agent, a, r) || Jammed(c, e.agent, a, r)) || Buffered(c, e.agent, r)
    ensures r in Reported(e.resume, e.unacked)
  {
    hide JoinedAs;
    if Buffered(c, e.agent, r) {
      assert r in SetOf(e.unacked);
    } else {
      var a :| Working(c, e.agent, a, r) || Jammed(c, e.agent, a, r);
      var k :| 0 <= k < |e.resume| && e.resume[k].actor == a;
      assert r in SetOf(e.resume[k].pending);
      PendingReported(e.resume, k, r);
    }
  }

  lemma JoinFrames(c: Cluster, c': Cluster, e: Event)
    requires JoinMove(c, c', e)
    ensures |c.head.sent| <= |c'.head.sent| && forall i :: 0 <= i < |c.head.sent| ==> c'.head.sent[i] == c.head.sent[i]
    ensures forall i :: |c.head.sent| <= i < |c'.head.sent| ==>
              c'.head.sent[i].msg.Kill? || (c'.head.sent[i].msg.Dispatch? && c'.head.sent[i].msg.actor in c.head.actors)
    ensures forall g, i, a :: SpawnsAt(c', g, i, a) ==> g != e.agent && SpawnsAt(c, g, i, a)
    ensures forall g, i: nat, r :: HandsAt(c', g, i, r) ==>
              (g != e.agent && HandsAt(c, g, i, r)) ||
              (g == e.agent && |c.head.sent| <= i && c'.head.sent[i].msg.Dispatch? &&
               QueuedAt(c.head, c'.head.sent[i].msg.actor, c'.head.sent[i].msg.call) &&
               LiveHere(c'.head, c'.head.sent[i].msg.actor) && FiledUnder(c'.head, c'.head.sent[i].msg.actor, g))
  {
    hide RowsJoined, CallsJoined, QueuesJoined, CountersJoined;
    assert forall i :: 0 <= i < |c.head.sent| ==> c'.head.sent[i] == c'.head.sent[..|c.head.sent|][i];
  }

  lemma JoinLinks(c: Cluster, c': Cluster, e: Event)
    requires JoinMove(c, c', e) && LinksGood(c)
    ensures LinksGood(c')
  {
    hide RowsJoined, CallsJoined, QueuesJoined, FramesJoined;
    forall g | g in c'.sides && c'.sides[g].link.Some?
      ensures g in c'.joined && AgentUp(c'.head, g) && c'.head.agents[g].seqNo == c'.sides[g].link.value
    {
      if g != e.agent {
        assert c'.sides[g] == c.sides[g];
      }
    }
  }

  lemma OneAgentEach(c: Cluster)
    requires SidesGood(c)
    ensures forall g, h, a :: HostsActor(c, g, a) && HostsActor(c, h, a) ==> g == h
  {
  }

  lemma JoinHosts(c: Cluster, c': Cluster, e: Event)
    requires JoinMove(c, c', e) && SidesGood(c)
    ensures SidesGood(c')
  {
    hide JoinedAs, ResumeOf;
    JoinSides(c, c', e);
    assert c'.done == c.done && c'.gone == c.gone;
    hide JoinMove, Started, Working, Jammed, Buffered, HostGood;
  }

  lemma JoinMet(c: Cluster, c': Cluster, e: Event)
    requires JoinMove(c, c', e) && SidesGood(c) && MetGood(c)
    ensures MetGood(c') && SidesGood(c')
    ensures forall a :: a in c'.met && a !in c.met ==> HostsActor(c, e.agent, a)
  {
    hide SidesGood, CallsJoined, QueuesJoined, FramesJoined, CountersJoined, Started, ResumeOf, Reported, SpawnsAt, HandsAt;
    OneAgentEach(c);
    JoinHosts(c, c', e);
    JoinSides(c, c', e);
    JoinFrames(c, c', e);
    forall g, a | HostsActor(c', g, a) ensures a in c'.met <==> g in c'.joined {
      if g == e.agent {
        assert Resumes(e.resume, a);
      }
    }
  }

  lemma JoinFiled(c: Cluster, c': Cluster, e: Event)
    requires JoinMove(c, c', e) && SidesGood(c) && MetGood(c) && FiledGood(c)
    ensures FiledGood(c')
  {
    JoinSides(c, c', e);
    hide CallsJoined, QueuesJoined, FramesJoined, CountersJoined, Started;
    forall g, a | HostsActor(c', g, a) && g in c'.joined
      ensures (a in c'.head.actors ==> c'.head.actors[a].agent == g) && (!Condemned(c', a) ==> LiveHere(c'.head, a))
    {
      assert HostsActor(c, g, a);
      if g == e.agent {
        assert Resumes(e.resume, a);
        if a in c.head.actors {
          assert a in c.met && g in c.joined;
        }
      }
    }
  }

  lemma JoinNumbers(c: Cluster, c': Cluster, e: Event)
    requires JoinMove(c, c', e) && SidesGood(c) && MetGood(c) && NumbersGood(c) && FiledGood(c') && RefRows(c'.head)
    ensures NumbersGood(c')
  {
    JoinSides(c, c', e);
    JoinMet(c, c', e);
    forall r | Started(c', r) && r.actor in c'.met ensures r.n < c'.head.nextRef {
      if r.actor in c.met {
        assert Started(c, r);
      } else {
        NewlyMetReported(c, c', e, r);
        assert HostsActor(c', e.agent, r.actor);
        assert FiledUnder(c'.head, r.actor, e.agent);
      }
    }
  }

  /** Every call that began in an actor met for the first time is in the report. */
  lemma NewlyMetReported(c: Cluster, c': Cluster, e: Event, r: RefId)
    requires JoinMove(c, c', e) && SidesGood(c) && MetGood(c) && Started(c, r)
    requires r.actor !in c.met && HostsActor(c, e.agent, r.actor)
    ensures r in Reported(e.resume, e.unacked) && r.actor in c'.head.actors
  {
    JoinSides(c, c', e);
    hide CallsJoined, QueuesJoined, FramesJoined, CountersJoined;
    if g, a :| Working(c, g, a, r) {
      assert HostsActor(c, g, r.actor);
      assert Working(c, e.agent, a, r);
      AllReported(c, c', e, r);
    } else if g, a :| Jammed(c, g, a, r) {
      assert HostsActor(c, g, r.actor);
      assert Jammed(c, e.agent, a, r);
      AllReported(c, c', e, r);
    } else {
      var g :| Buffered(c, g, r);
      assert HostsActor(c, g, r.actor);
      AllReported(c, c', e, r);
    }
  }

  lemma JoinSpawns(c: Cluster, c': Cluster, e: Event)
    requires JoinMove(c, c', e) && SpawnsGood(c) && MetGood(c)
    ensures SpawnsGood(c')
  {
    hide CallsJoined, QueuesJoined, FramesJoined, CountersJoined, Started, ResumeOf, Reported;
    JoinSides(c, c', e);
    JoinFrames(c, c', e);
    forall g, i, a | SpawnsAt(c', g, i, a)
      ensures a !in c'.gone && (forall h :: !HostsActor(c', h, a))
      ensures (a in c'.head.actors ==> c'.head.actors[a].agent == g) && (!Condemned(c', a) ==> LiveHere(c'.head, a))
    {
      assert SpawnsAt(c, g, i, a);
      assert !Resumes(e.resume, a) by {
        assert !HostsActor(c, e.agent, a);
      }
    }
  }

  /** A call owed stays owed if its actor lives on, and it is elsewhere, reported
      or held. */
  lemma JoinOwed(c: Cluster, c': Cluster, e: Event, r: RefId)
    requires JoinMove(c, c', e) && StillOwed(c, r)
    requires !Condemned(c', r.actor) && r.actor !in c.gone && r !in c.reaped ==>
               (LiveHere(c'.head, r.actor) &&
                (!FiledUnder(c'.head, r.actor, e.agent) || r in Reported(e.resume, e.unacked) || QueuedFor(c.head, r)))
    ensures StillOwed(c', r)
  {
    hide RowsJoined, QueuesJoined, FramesJoined, CountersJoined, ResumeOf;
  }

  lemma JoinHands(c: Cluster, c': Cluster, e: Event, g: AgentId, i: nat, r: RefId)
    requires JoinMove(c, c', e) && SidesGood(c) && MetGood(c) && FiledGood(c) && CallsGood(c) && Handing(c.head)
    requires HandsAt(c', g, i, r)
    ensures !Started(c, r) && StillOwed(c', r) && BoundFor(c', r, g)
  {
    JoinFrames(c, c', e);
    JoinSides(c, c', e);
    hide JoinMove, Started;
    if g != e.agent {
      assert HandsAt(c, g, i, r);
      HandedOnce(c.head, i);
      HandsElsewhere(c, c', e, g, i, r);
      JoinOwed(c, c', e, r);
    } else {
      var m := c'.head.sent[i].msg;
      QueuedIs(c.head, m.actor, m.call);
      JoinOwed(c, c', e, r);
    }
  }

  lemma QueuedIs(st: State, a: ActorId, call: Call)
    requires Handing(st) && QueuedAt(st, a, call)
    ensures call.ref.actor == a && QueuedFor(st, call.ref)
  {
    assert GoodQueue(st, a, st.actors[a].queued);
    var k :| 0 <= k < |st.actors[a].queued| && st.actors[a].queued[k] == call;
    assert KnownCall(st, a, st.actors[a].queued[k]);
  }

  /** A call on its way to another agent keeps its actor there. */
  lemma HandsElsewhere(c: Cluster, c': Cluster, e: Event, g: AgentId, i: nat, r: RefId)
    requires JoinMove(c, c', e) && SidesGood(c) && MetGood(c) && FiledGood(c) && CallsGood(c)
    requires HandsAt(c, g, i, r) && g != e.agent && r.actor == c.head.sent[i].msg.actor
    ensures BoundFor(c', r, g)
    ensures !Condemned(c', r.actor) && r.actor !in c.gone && r !in c.reaped ==> LiveHere(c'.head, r.actor)
  {
    JoinSides(c, c', e);
    hide CallsJoined, QueuesJoined, FramesJoined, CountersJoined, Started, ResumeOf;
    assert StillOwed(c, r) && BoundFor(c, r, g);
    assert r.actor in c.met;
  }

  lemma JoinCalls(c: Cluster, c': Cluster, e: Event)
    requires JoinMove(c, c', e) && SidesGood(c) && MetGood(c) && FiledGood(c) && CallsGood(c) && Handing(c.head)
    requires Quiet(c'.head)
    ensures CallsGood(c')
  {
    JoinSides(c, c', e);
    forall g, i, r | HandsAt(c', g, i, r) ensures !Started(c', r) && StillOwed(c', r) && BoundFor(c', r, g) {
      JoinHands(c, c', e, g, i, r);
    }
    forall r | QueuedFor(c'.head, r) ensures !Started(c', r) && StillOwed(c', r) {
      JoinQueued(c, c', e, r);
    }
  }

  lemma JoinQueued(c: Cluster, c': Cluster, e: Event, r: RefId)
    requires JoinMove(c, c', e) && CallsGood(c) && Quiet(c'.head) && QueuedFor(c'.head, r)
    ensures !Started(c, r) && StillOwed(c', r)
  {
    hide RowsJoined, FramesJoined, CountersJoined, ResumeOf, CallsJoined, Started;
    var k :| 0 <= k < |c'.head.actors[r.actor].queued| && c'.head.actors[r.actor].queued[k].ref == r;
    assert c.head.actors[r.actor].queued[k].ref == r;
    assert QueuedFor(c.head, r);
    JoinOwed(c, c', e, r);
  }

  lemma JoinRunning(c: Cluster, c': Cluster, e: Event)
    requires JoinMove(c, c', e) && SidesGood(c) && MetGood(c) && FiledGood(c) && FiledGood(c') && RunningGood(c) && RefRows(c.head)
    ensures RunningGood(c')
  {
    JoinSides(c, c', e);
    hide QueuesJoined, FramesJoined, CountersJoined, ResumeOf, Started, RowsJoined;
    forall g, a, r | Working(c', g, a, r) && g in c'.joined && !Condemned(c', a) && r !in c'.reaped
      ensures WaitsFor(c'.head, r)
    {
      assert Working(c, g, a, r) && HostsActor(c, g, a) && HostsActor(c', g, a) && r.actor == a;
      assert LiveHere(c'.head, a) && FiledUnder(c'.head, a, g);
      if g == e.agent {
        AllReported(c, c', e, r);
      }
      if r in c.head.refs {
        assert a in c.met && g in c.joined;
        assert WaitsFor(c.head, r) && LiveHere(c.head, a);
      }
    }
  }

  lemma JoinKeeps(c: Cluster, cfg: Config, step: Step)
    requires Good(c) && Joining(c, step)
    ensures Good(AfterJoin(c, cfg, step))
  {
    hide Joining, AfterJoin, JoinMove, SidesGood, LinksGood, MetGood, FiledGood, NumbersGood, SpawnsGood, CallsGood,
         RunningGood, RowsHold, Handing, HeldWhileAway, UpNotLost, RefRows, Quiet;
    var e := step.event;
    JoinsAs(c, cfg, step);
    var c' := AfterJoin(c, cfg, step);
    RefRowsOf(c.head);
    RefRowsOf(c'.head);
    RowsGiveQuiet(c'.head);
    JoinLinks(c, c', e);
    JoinMet(c, c', e);
    JoinFiled(c, c', e);
    JoinNumbers(c, c', e);
    JoinSpawns(c, c', e);
    JoinCalls(c, c', e);
    JoinRunning(c, c', e);
  }

  lemma RefRowsOf(st: State)
    requires RowsHold(st)
    ensures RefRows(st)
  {
  }

  /** What a registration is, and that the head stays in order. */
  lemma JoinsAs(c: Cluster, cfg: Config, step: Step)
    requires HeadGood(c.head) && Joining(c, step)
    ensures step.event.Register? && step.event.agent in c.sides
    ensures JoinMove(c, AfterJoin(c, cfg, step), step.event) && HeadGood(AfterJoin(c, cfg, step).head)
  {
    hide Handing, HeldWhileAway, RowsHold, UpNotLost, Registered, JoinedAs, IsOrder, Reported;
    var e := step.event;
    var c' := AfterJoin(c, cfg, step);
    JoinEffects(c.head, cfg, step.ord, step.now, e.agent, e.group, e.node, e.gpus, e.resume, e.unacked, e.through);
    assert JoinMove(c, c', e);
    JoinUp(c, c', e);
    assert Steady(c.head, e);
    HeadStaysGood(c.head, cfg, step);
  }

  lemma JoinUp(c: Cluster, c': Cluster, e: Event)
    requires JoinMove(c, c', e) && UpNotLost(c.head)
    ensures UpNotLost(c'.head)
  {
    hide RowsJoined, CallsJoined, QueuesJoined, FramesJoined, ResumeOf;
  }

  // ------------------------------------------------------------- every run

  lemma MoveKeeps(c: Cluster, cfg: Config, m: Move)
    requires Good(c) && Enabled(c, m)
    ensures Good(Next(c, cfg, m))
  {
    hide Good, HeadMoves, AfterHead, AfterJoin, TakeFrame, AfterConnect, FinishCall, AfterResend, AfterLeave, AfterCut;
    match m
    case HeadMove(step) =>
      if step.event.ActorCreate? {
        CreateMoveKeeps(c, cfg, step);
      } else if step.event.ActorCall? {
        CallMoveKeeps(c, cfg, step);
      } else {
        TameMoveKeeps(c, cfg, step);
      }
    case Join(step) => JoinKeeps(c, cfg, step);
    case Take(g, i, written) => TakeKeeps(c, g, i, written);
    case Connect(g, a, written) => ConnectKeeps(c, g, a, written);
    case Break(g, a) => BreakKeeps(c, a);
    case Finish(g, a, r) => FinishKeeps(c, g, a, r);
    case Resend(g, r) => ResendKeeps(c, g, r);
    case Leave(g, a) => LeaveKeeps(c, g, a);
    case Cut(g) => CutKeeps(c, g);
  }

  /** A run: the clusters it passes through and the moves between them. */
  ghost predicate IsRun(cfg: Config, cs: seq<Cluster>, ms: seq<Move>) {
    |cs| == |ms| + 1 && Begins(cs[0]) &&
    forall k :: 0 <= k < |ms| ==> Enabled(cs[k], ms[k]) && cs[k + 1] == Next(cs[k], cfg, ms[k])
  }

  lemma {:induction false} EveryRunGood(cfg: Config, cs: seq<Cluster>, ms: seq<Move>, k: nat)
    requires IsRun(cfg, cs, ms) && k <= |ms|
    ensures Good(cs[k])
    decreases k
  {
    hide Good, Enabled, Next, Begins, Started;
    if k == 0 {
      BeginsGood(cs[0]);
    } else {
      EveryRunGood(cfg, cs, ms, k - 1);
      MoveKeeps(cs[k - 1], cfg, ms[k - 1]);
    }
  }

  lemma {:induction false} NotReady(st: State, cfg: Config, now: nat, hs: seq<Handle>, h: Handle)
    requires !WaitCounts(st, cfg, now, h)
    ensures h !in ReadyOf(st, cfg, now, hs)
    decreases |hs|
  {
    if hs != [] { NotReady(st, cfg, now, hs[..|hs| - 1], h); }
  }

  lemma RunningPends(c: Cluster, cfg: Config, now: nat, g: AgentId, a: ActorId, r: RefId)
    requires Good(c) && Working(c, g, a, r) && !Condemned(c, a) && r !in c.reaped
    requires g in c.joined || InWindow(c.head, cfg, now)
    ensures GetNow(c.head, cfg, now, CallRef(r)) == Pends && !WaitCounts(c.head, cfg, now, CallRef(r))
  {
    hide LinksGood, FiledGood, NumbersGood, SpawnsGood, CallsGood, Handing, HeldWhileAway, UpNotLost;
    assert r.actor == a && HostsActor(c, g, a);
    if g in c.joined {
      assert WaitsFor(c.head, r);
    } else {
      assert r !in c.head.refs;
    }
  }

  /** At every point of every run, the identifier a new call on a known actor
      would take is held by no call, running, finished or on its way. */
  lemma IdentifiersNeverShared(cfg: Config, cs: seq<Cluster>, ms: seq<Move>, k: nat, a: ActorId)
    requires IsRun(cfg, cs, ms) && k <= |ms| && a in cs[k].head.actors
    ensures var r := RefId(a, cs[k].head.nextRef);
            !Started(cs[k], r) && r !in cs[k].head.refs && !QueuedFor(cs[k].head, r) && forall g, i :: !HandsAt(cs[k], g, i, r)
  {
    var c := cs[k];
    var r := RefId(a, c.head.nextRef);
    hide IsRun;
    EveryRunGood(cfg, cs, ms, k);
    NewCallIsNew(c, a);
    hide SidesGood, LinksGood, FiledGood, SpawnsGood, CallsGood, RunningGood, NumbersGood, MetGood, RowsHold, HeldWhileAway;
    forall g, i, q | HandsAt(c, g, i, q) ensures q.n < c.head.nextRef {
      HandedOnce(c.head, i);
    }
    QueuedBelow(c.head, r);
  }

  lemma QueuedBelow(st: State, r: RefId)
    requires Handing(st)
    ensures QueuedFor(st, r) ==> r.n < st.nextRef
  {
    if QueuedFor(st, r) {
      assert GoodQueue(st, r.actor, st.actors[r.actor].queued);
      var j :| 0 <= j < |st.actors[r.actor].queued| && st.actors[r.actor].queued[j].ref == r;
      assert KnownCall(st, r.actor, st.actors[r.actor].queued[j]);
    }
  }
}
