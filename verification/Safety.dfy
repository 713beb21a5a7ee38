/** What every run of the head keeps: no device in two hands, nothing stalled,
    rows that point at rows, and nothing that ended coming back. */
module Safety {
  import opened Basics
  import opened Topology
  import opened Chains
  import opened Solver
  import opened Claims
  import opened Tables
  import opened Placement
  import opened Head

  // ------------------------------------------------------ assumptions

  /** What a step assumes of its event: made-up identifiers are new. */
  ghost predicate Sane(st: State, e: Event) {
    match e
    case PgCreate(_, pg, _, _) => pg !in st.pgs
    case ActorCreate(_, a, _, _, _, _, _) => a !in st.actors
    case _ => true
  }

  /** What device exclusivity asks of an event besides: an agent reports each
      device once, and brings back no actor unknown here on a device that a group
      here holds. */
  ghost predicate Undisputed(st: State, e: Event) {
    e.Register? ==> NoDup(e.gpus) && Unclashed(st, e.agent, e.resume)
  }

  predicate LastReport(resume: seq<Resumed>, a: ActorId, k: nat) {
    k < |resume| && resume[k].actor == a && forall j :: k < j < |resume| ==> resume[j].actor != a
  }

  /** The last report of an actor unknown here, which is the one taken on. */
  predicate BroughtIn(st: State, resume: seq<Resumed>, k: nat) {
    k < |resume| && resume[k].actor !in st.actors && LastReport(resume, resume[k].actor, k)
  }

  ghost predicate Unclashed(st: State, agent: AgentId, resume: seq<Resumed>) {
    forall k: nat, p: PgId, i: nat, g ::
      BroughtIn(st, resume, k) && BundleHolds(st, p, i, agent, g) ==> g !in resume[k].gpuIds
  }

  /** A step keeps pending groups holding nothing, and keeps devices in one pair of
      hands if they were. */
  ghost predicate Guarded(st: State, st': State) {
    Blank(st') && (Allocated(st) ==> Allocated(st'))
  }

  // ------------------------------------------------------ device exclusivity

  /** A state holding no more than another, row for row, shares devices no more. */
  lemma AllocatedLess(st: State, st': State)
    requires Allocated(st) && Placement.Shaped(st') && DistinctGpus(st')
    requires forall p: PgId, i: nat, agent, g :: BundleHolds(st', p, i, agent, g) ==> BundleHolds(st, p, i, agent, g)
    requires forall a, agent, g :: ActorHolds(st', a, agent, g) ==>
               ActorHolds(st, a, agent, g) && st'.actors[a].madeIn == st.actors[a].madeIn
    ensures Allocated(st')
  {
  }

  lemma BuryAllocated(st: State, now: nat, a: ActorId)
    requires Blank(st)
    ensures Guarded(st, Bury(st, now, a))
  {
    if Allocated(st) { AllocatedLess(st, Bury(st, now, a)); }
  }

  /** A death keeps devices apart, and leaves nothing stalled that was not. */
  lemma MarkDeadSafe(st: State, cfg: Config, ord: Order, now: nat, a: ActorId)
    requires Blank(st) && IsOrder(ord)
    ensures Guarded(st, MarkDead(st, cfg, ord, now, a))
    ensures NoStall(st, cfg) ==> NoStall(MarkDead(st, cfg, ord, now, a), cfg)
  {
    hide Allocated, Blank, NoStall, TryPlace, Bury, IsOrder;
    BuryAllocated(st, now, a);
    TryPlaceSettles(Bury(st, now, a), cfg, ord);
  }

  lemma {:induction false} MarkAllSafe(st: State, cfg: Config, ord: Order, now: nat, ids: seq<ActorId>)
    requires Blank(st) && IsOrder(ord)
    ensures Guarded(st, MarkAll(st, cfg, ord, now, ids))
    ensures NoStall(st, cfg) ==> NoStall(MarkAll(st, cfg, ord, now, ids), cfg)
    decreases |ids|
  {
    hide Allocated, Blank, NoStall, MarkDead, IsOrder;
    if ids != [] {
      var n := |ids| - 1;
      MarkAllSafe(st, cfg, ord, now, ids[..n]);
      MarkDeadSafe(MarkAll(st, cfg, ord, now, ids[..n]), cfg, ord, now, ids[n]);
    }
  }

  /** Frames written change neither who holds what nor what waits. */
  lemma WriteSafe(st: State, cfg: Config, agent: AgentId, msg: HeadMsg)
    requires agent in st.agents && Blank(st)
    ensures Guarded(st, Write(st, agent, msg))
    ensures NoStall(st, cfg) ==> NoStall(Write(st, agent, msg), cfg)
  {
    var st' := Write(st, agent, msg);
    if Allocated(st) { AllocatedLess(st, st'); }
    if NoStall(st, cfg) {
      SameFree(st, st');
      NoStallCarries(st, st', cfg);
    }
  }

  /** Free devices grow nowhere when live agents are among those before and
      everything held stays held. */
  lemma SameFree(st: State, st': State)
    requires forall group, a :: InGroup(st', group, a) ==> InGroup(st, group, a) && st'.agents[a].gpus == st.agents[a].gpus
    requires forall p: PgId, i: nat, agent, g :: BundleHolds(st, p, i, agent, g) ==> BundleHolds(st', p, i, agent, g)
    requires forall a, agent, g :: ActorHolds(st, a, agent, g) ==> ActorHolds(st', a, agent, g)
    ensures NoMoreFree(st, st')
  {
    forall group, a | InGroup(st', group, a)
      ensures InGroup(st, group, a) && |Free(st', a)| <= |Free(st, a)|
    {
      forall g | Held(st, a, g) ensures Held(st', a, g) {
        if p, i :| BundleHolds(st, p, i, a, g) {
          assert BundleHolds(st', p, i, a, g);
        } else {
          var x :| ActorHolds(st, x, a, g);
          assert ActorHolds(st', x, a, g);
        }
      }
      FreeShrinks(st, st', a, st.agents[a].gpus);
    }
  }

  lemma KillActorSafe(st: State, cfg: Config, ord: Order, now: nat, a: ActorId, delivered: bool)
    requires Blank(st) && IsOrder(ord)
    ensures Guarded(st, KillActor(st, cfg, ord, now, a, delivered))
    ensures NoStall(st, cfg) ==> NoStall(KillActor(st, cfg, ord, now, a, delivered), cfg)
  {
    hide Allocated, Blank, NoStall, MarkDead, IsOrder;
    MarkDeadSafe(st, cfg, ord, now, a);
    if a in st.actors && AgentUp(st, st.actors[a].agent) {
      WriteSafe(st, cfg, st.actors[a].agent, Kill(a));
    }
  }

  lemma {:induction false} KillAllSafe(st: State, cfg: Config, ord: Order, now: nat, ids: seq<ActorId>, reached: set<ActorId>)
    requires Blank(st) && IsOrder(ord)
    ensures Guarded(st, KillAll(st, cfg, ord, now, ids, reached))
    ensures NoStall(st, cfg) ==> NoStall(KillAll(st, cfg, ord, now, ids, reached), cfg)
    decreases |ids|
  {
    hide Allocated, Blank, NoStall, KillActor, IsOrder;
    if ids != [] {
      var n := |ids| - 1;
      KillAllSafe(st, cfg, ord, now, ids[..n], reached);
      KillActorSafe(KillAll(st, cfg, ord, now, ids[..n], reached), cfg, ord, now, ids[n], ids[n] in reached);
    }
  }

  lemma {:induction false} GiveUpSafe(st: State, cfg: Config, ord: Order, now: nat, agents: seq<AgentId>)
    requires Blank(st) && IsOrder(ord)
    ensures Guarded(st, GiveUpAll(st, cfg, ord, now, agents))
    ensures NoStall(st, cfg) ==> NoStall(GiveUpAll(st, cfg, ord, now, agents), cfg)
    decreases |agents|
  {
    hide Allocated, Blank, NoStall, MarkAll, IsOrder;
    if agents != [] {
      var n := |agents| - 1;
      GiveUpSafe(st, cfg, ord, now, agents[..n]);
      var s := GiveUpAll(st, cfg, ord, now, agents[..n]);
      MarkAllSafe(s, cfg, ord, now, ord(HostedBy(s, agents[n])));
    }
  }

  // -------------------------------------------------- step by step

  lemma CreatePgSafe(st: State, cfg: Config, ord: Order, now: nat, client: ClientId, pg: PgId, bundles: seq<nat>, claim: Option<Name>)
    requires Blank(st) && IsOrder(ord) && pg !in st.pgs
    ensures var st' := CreatePg(st, cfg, ord, now, client, pg, bundles, claim); Guarded(st, st') && NoStall(st', cfg)
  {
    hide NoStall, IsOrder, TryPlace;
    var row := Pg(ClientGroup(st, client), client, bundles, claim, NoBundles(|bundles|), Pending, now, None);
    var s := st.(pgs := st.pgs[pg := row]);
    if Allocated(st) { AllocatedLess(st, s); }
    TryPlaceSettles(s, cfg, ord);
  }

  lemma RemovePgSafe(st: State, cfg: Config, ord: Order, now: nat, pg: PgId)
    requires Blank(st) && IsOrder(ord)
    ensures var st' := RemovePg(st, cfg, ord, now, pg); Guarded(st, st') && NoStall(st', cfg)
  {
    hide NoStall, IsOrder, TryPlace;
    var s := if pg in st.pgs then st.(pgs := st.pgs[pg := RemovedRow(st.pgs[pg], now)]) else st;
    if Allocated(st) { AllocatedLess(st, s); }
    TryPlaceSettles(s, cfg, ord);
  }

  /** An actor made in a bundle holds that bundle's devices, which no other
      bundle holds. */
  lemma MadeSafe(st: State, cfg: Config, a: ActorId, pg: PgId, index: nat, row: Actor)
    requires Blank(st) && a !in st.actors && pg in st.pgs && st.pgs[pg].state == Created
    requires index < |st.pgs[pg].assignment| && st.pgs[pg].assignment[index].Some?
    requires row.agent == st.pgs[pg].assignment[index].value.agent &&
             row.gpuIds == st.pgs[pg].assignment[index].value.gpuIds && row.madeIn == Some(pg)
    ensures Guarded(st, st.(actors := st.actors[a := row]))
    ensures NoStall(st, cfg) ==> NoStall(st.(actors := st.actors[a := row]), cfg)
  {
    var st' := st.(actors := st.actors[a := row]);
    forall p: PgId, i: nat, agent, g | BundleHolds(st', p, i, agent, g) ensures BundleHolds(st, p, i, agent, g) {
    }
    forall x, p: PgId, i: nat, agent, g | Allocated(st) && ActorHolds(st', x, agent, g) && BundleHolds(st', p, i, agent, g)
      ensures st'.actors[x].madeIn == Some(p)
    {
      assert BundleHolds(st, p, i, agent, g);
      if x == a {
        assert BundleHolds(st, pg, index, agent, g);
      } else {
        assert ActorHolds(st, x, agent, g);
      }
    }
    if NoStall(st, cfg) {
      SameFree(st, st');
      NoStallCarries(st, st', cfg);
    }
  }

  lemma CreateActorSafe(st: State, cfg: Config, ord: Order, now: nat, client: ClientId, a: ActorId, name: Name,
                        numGpus: nat, pg: PgId, index: nat, delivered: bool)
    requires Blank(st) && NoStall(st, cfg) && IsOrder(ord) && a !in st.actors
    ensures var st' := CreateActor(st, cfg, ord, now, client, a, name, numGpus, pg, index, delivered);
            Guarded(st, st') && NoStall(st', cfg)
  {
    hide Allocated, Blank, NoStall, MarkDead, IsOrder;
    var group := ClientGroup(st, client);
    if Creatable(st, group, name, numGpus, pg, index) {
      var b := st.pgs[pg].assignment[index].value;
      var row := Actor(name, group, b.agent, b.node, b.gpuIds, client, Spawning, [], Some(pg));
      var made := st.(actors := st.actors[a := row]);
      MadeSafe(st, cfg, a, pg, index, row);
      WriteSafe(made, cfg, b.agent, Spawn(a, name, client, b.gpuIds));
      MarkDeadSafe(made, cfg, ord, now, a);
    }
  }

  /** A step that touches neither agents nor groups, nor who holds what. */
  lemma QuietSafe(st: State, st': State, cfg: Config)
    requires Blank(st) && NoStall(st, cfg) && st'.agents == st.agents && st'.pgs == st.pgs
    requires st'.actors.Keys == st.actors.Keys
    requires forall a :: a in st.actors ==>
               Live(st'.actors[a]) == Live(st.actors[a]) && st'.actors[a].agent == st.actors[a].agent &&
               st'.actors[a].gpuIds == st.actors[a].gpuIds && st'.actors[a].madeIn == st.actors[a].madeIn
    ensures Guarded(st, st') && NoStall(st', cfg)
  {
    if Allocated(st) { AllocatedLess(st, st'); }
    SameFree(st, st');
    NoStallCarries(st, st', cfg);
  }

  lemma GreetSafe(st: State, cfg: Config, ord: Order, now: nat, client: ClientId, group: Group, node: NodeId,
                  session: bool, reached: set<ActorId>)
    requires Blank(st) && NoStall(st, cfg) && IsOrder(ord)
    ensures var st' := Greet(st, cfg, ord, now, client, group, node, session, reached); Guarded(st, st') && NoStall(st', cfg)
  {
    hide Allocated, Blank, NoStall, KillAll, IsOrder;
    var s := st.(clients := st.clients[client := HelloRow(st, client, group, node, session)]);
    QuietSafe(st, s, cfg);
    KillAllSafe(s, cfg, ord, now, ord(Orphans(st, group, client)), reached);
  }

  lemma ReapStartAllocated(st: State, client: ClientId, now: nat)
    requires Blank(st)
    ensures Guarded(st, ReapStart(st, client, now))
  {
    if Allocated(st) { AllocatedLess(st, ReapStart(st, client, now)); }
  }

  lemma RefsAllocated(st: State, refs: map<RefId, Ref>)
    requires Blank(st)
    ensures Guarded(st, st.(refs := refs))
  {
    if Allocated(st) { AllocatedLess(st, st.(refs := refs)); }
  }

  lemma ReapSafe(st: State, cfg: Config, ord: Order, now: nat, client: ClientId, token: Option<nat>, reached: set<ActorId>)
    requires Blank(st) && NoStall(st, cfg) && IsOrder(ord)
    ensures var st' := Reap(st, cfg, ord, now, client, token, reached); Guarded(st, st') && NoStall(st', cfg)
  {
    hide Allocated, Blank, NoStall, KillAll, IsOrder, TryPlace, ReapStart;
    QuietSafe(st, st.(reapPending := st.reapPending - {client}), cfg);
    ReapStartAllocated(st, client, now);
    KillAllSafe(ReapStart(st, client, now), cfg, ord, now, ord(OwnedBy(st, client)), reached);
    var killed := KillAll(ReapStart(st, client, now), cfg, ord, now, ord(OwnedBy(st, client)), reached);
    RefsAllocated(killed, RefsOfOthers(killed.refs, client));
    TryPlaceSettles(killed.(refs := RefsOfOthers(killed.refs, client)), cfg, ord);
  }

  lemma CloseSessionSafe(st: State, cfg: Config, ord: Order, now: nat, client: ClientId, reached: set<ActorId>)
    requires Blank(st) && NoStall(st, cfg) && IsOrder(ord)
    ensures var st' := CloseSession(st, cfg, ord, now, client, reached); Guarded(st, st') && NoStall(st', cfg)
  {
    hide Allocated, Blank, NoStall, Reap, IsOrder;
    var s := st.(clients := st.clients - {client});
    QuietSafe(st, s, cfg);
    ReapSafe(s, cfg, ord, now, client, None, reached);
    QuietSafe(s, s.(reapPending := s.reapPending[client := s.nextReap], nextReap := s.nextReap + 1), cfg);
  }

  // --------------------------------------------------------- registration

  /** Rows after adoption: the old ones as they were, and new ones as reported. */
  lemma {:induction false} AdoptMeans(actors: map<ActorId, Actor>, resume: seq<Resumed>, group: Group, agent: AgentId, node: NodeId)
    ensures var after := Adopt(actors, resume, group, agent, node);
            (forall a :: a in actors ==> a in after && after[a] == actors[a]) &&
            (forall a :: a in after && a !in actors ==>
               exists k: nat :: LastReport(resume, a, k) && after[a] == AdoptedRow(resume[k], group, agent, node)) &&
            (forall k :: 0 <= k < |resume| ==> resume[k].actor in after)
    decreases |resume|
  {
    if resume != [] {
      var n := |resume| - 1;
      AdoptMeans(actors, resume[..n], group, agent, node);
      var rest := Adopt(actors, resume[..n], group, agent, node);
      var after := Adopt(actors, resume, group, agent, node);
      forall a | a in after && a !in actors
        ensures exists k: nat :: LastReport(resume, a, k) && after[a] == AdoptedRow(resume[k], group, agent, node)
      {
        if resume[n].actor == a {
          assert LastReport(resume, a, n) && after[a] == AdoptedRow(resume[n], group, agent, node);
        } else {
          var k: nat :| LastReport(resume[..n], a, k) && rest[a] == AdoptedRow(resume[..n][k], group, agent, node);
          assert LastReport(resume, a, k);
        }
      }
      forall k | 0 <= k < |resume| ensures resume[k].actor in after {
        if k < n {
          assert resume[..n][k].actor in rest;
        }
      }
    }
  }

  lemma {:induction false} AdoptRefsFrame(st: State, agent: AgentId, rs: seq<RefId>)
    ensures var s := AdoptRefs(st, agent, rs);
            s == st.(refs := s.refs, nextRef := s.nextRef) && st.nextRef <= s.nextRef
    decreases |rs|
  {
    if rs != [] { AdoptRefsFrame(st, agent, rs[..|rs| - 1]); }
  }

  lemma AdoptedClear(st: State, agent: AgentId, group: Group, node: NodeId, resume: seq<Resumed>, a: ActorId,
                     p: PgId, i: nat, x: AgentId, g: nat)
    requires Unclashed(st, agent, resume) && BundleHolds(st, p, i, x, g) && a !in st.actors
    ensures var after := Adopt(st.actors, resume, group, agent, node); a in after && after[a].agent == x ==> g !in after[a].gpuIds
  {
    AdoptMeans(st.actors, resume, group, agent, node);
    var after := Adopt(st.actors, resume, group, agent, node);
    if a in after {
      var k: nat :| LastReport(resume, a, k) && after[a] == AdoptedRow(resume[k], group, agent, node);
      assert BroughtIn(st, resume, k);
    }
  }

  lemma AdoptAllocated(st: State, agent: AgentId, group: Group, node: NodeId, resume: seq<Resumed>)
    requires Allocated(st) && Unclashed(st, agent, resume)
    ensures Allocated(st.(actors := Adopt(st.actors, resume, group, agent, node)))
  {
    hide Unclashed;
    AdoptMeans(st.actors, resume, group, agent, node);
    var st' := st.(actors := Adopt(st.actors, resume, group, agent, node));
    forall p: PgId, i: nat, x, g | BundleHolds(st', p, i, x, g) ensures BundleHolds(st, p, i, x, g) {
    }
    forall a, p: PgId, i: nat, x, g | ActorHolds(st', a, x, g) && BundleHolds(st', p, i, x, g)
      ensures st'.actors[a].madeIn == Some(p)
    {
      assert BundleHolds(st, p, i, x, g);
      if a in st.actors {
        assert ActorHolds(st, a, x, g);
      } else {
        AdoptedClear(st, agent, group, node, resume, a, p, i, x, g);
      }
    }
  }

  lemma RowAllocated(st: State, agent: AgentId, group: Group, node: NodeId, gpus: seq<nat>, resume: seq<Resumed>)
    requires Allocated(st) && NoDup(gpus) && Unclashed(st, agent, resume)
    ensures var s := RegisterRow(st, agent, group, node, gpus); Allocated(s) && Unclashed(s, agent, resume)
  {
    var s := RegisterRow(st, agent, group, node, gpus);
    AllocatedLess(st, s);
    forall k | BroughtIn(s, resume, k) ensures BroughtIn(st, resume, k) {
    }
    forall p: PgId, i: nat, g | BundleHolds(s, p, i, agent, g) ensures BundleHolds(st, p, i, agent, g) {
    }
  }

  lemma TakeOnAllocated(st: State, agent: AgentId, group: Group, node: NodeId, gpus: seq<nat>, resume: seq<Resumed>, unacked: seq<RefId>)
    requires Allocated(st) && NoDup(gpus) && Unclashed(st, agent, resume)
    ensures Allocated(TakeOn(st, agent, group, node, gpus, resume, unacked))
  {
    hide Allocated, Unclashed, NoDup, RegisterRow, Adopt, Reported;
    var s := RegisterRow(st, agent, group, node, gpus);
    RowAllocated(st, agent, group, node, gpus, resume);
    AdoptAllocated(s, agent, group, node, resume);
    var t := s.(actors := Adopt(s.actors, resume, group, agent, node));
    AdoptRefsFrame(t, agent, Reported(resume, unacked));
    var u := AdoptRefs(t, agent, Reported(resume, unacked));
    CountersAllocated(t, u.refs, u.nextRef);
  }

  lemma CountersAllocated(st: State, refs: map<RefId, Ref>, nextRef: nat)
    requires Allocated(st)
    ensures Allocated(st.(refs := refs, nextRef := nextRef))
  {
    AllocatedLess(st, st.(refs := refs, nextRef := nextRef));
  }

  lemma TakeOnBlank(st: State, agent: AgentId, group: Group, node: NodeId, gpus: seq<nat>, resume: seq<Resumed>, unacked: seq<RefId>)
    requires Blank(st)
    ensures Blank(TakeOn(st, agent, group, node, gpus, resume, unacked))
  {
    hide Adopt, Reported;
    var s := RegisterRow(st, agent, group, node, gpus);
    AdoptRefsFrame(s.(actors := Adopt(s.actors, resume, group, agent, node)), agent, Reported(resume, unacked));
  }

  lemma FlushAllocated(st: State, ord: Order, agent: AgentId, conn: nat, kills: seq<HeadMsg>, through: nat)
    requires Blank(st)
    ensures Guarded(st, Flush(st, ord, agent, conn, kills, through))
  {
    if Allocated(st) { AllocatedLess(st, Flush(st, ord, agent, conn, kills, through)); }
  }

  lemma RegisterSafe(st: State, cfg: Config, ord: Order, now: nat, agent: AgentId, group: Group, node: NodeId,
                     gpus: seq<nat>, resume: seq<Resumed>, unacked: seq<RefId>, through: nat)
    requires Blank(st) && IsOrder(ord)
    ensures var st' := Registered(st, cfg, ord, now, agent, group, node, gpus, resume, unacked, through);
            Blank(st') && NoStall(st', cfg) &&
            (Allocated(st) && NoDup(gpus) && Unclashed(st, agent, resume) ==> Allocated(st'))
  {
    hide Allocated, Blank, NoStall, Unclashed, NoDup, IsOrder, TakeOn, MarkAll, Flush, TryPlace, Reported, Missing, Kills;
    TakeOnBlank(st, agent, group, node, gpus, resume, unacked);
    if Allocated(st) && NoDup(gpus) && Unclashed(st, agent, resume) {
      TakeOnAllocated(st, agent, group, node, gpus, resume, unacked);
    }
    var s := TakeOn(st, agent, group, node, gpus, resume, unacked);
    MarkAllSafe(s, cfg, ord, now, ord(Missing(s, agent, resume)));
    var alive := MarkAll(s, cfg, ord, now, ord(Missing(s, agent, resume)));
    var settled := FailLost(alive, agent, Reported(resume, unacked));
    RefsAllocated(alive, settled.refs);
    FlushAllocated(settled, ord, agent, st.nextSeq, Kills(st, resume), through);
    TryPlaceSettles(Flush(settled, ord, agent, st.nextSeq, Kills(st, resume), through), cfg, ord);
  }

  // ---------------------------------------------------------------- sweep

  /** Fewer live agents, and pending groups only removed: nothing is freed. */
  lemma FewerSafe(st: State, st': State, cfg: Config)
    requires Blank(st) && NoStall(st, cfg) && st'.actors == st.actors
    requires st'.agents.Keys == st.agents.Keys
    requires forall a :: a in st.agents ==>
               st'.agents[a].gpus == st.agents[a].gpus && st'.agents[a].group == st.agents[a].group &&
               (st'.agents[a].alive ==> st.agents[a].alive)
    requires st'.pgs.Keys == st.pgs.Keys
    requires forall p :: p in st.pgs ==>
               st'.pgs[p] == st.pgs[p] || (st.pgs[p].state == Pending && st'.pgs[p].state == Removed)
    ensures Guarded(st, st') && NoStall(st', cfg)
  {
    if Allocated(st) { AllocatedLess(st, st'); }
    forall p: PgId, i: nat, agent, g | BundleHolds(st, p, i, agent, g) ensures BundleHolds(st', p, i, agent, g) {
      assert st.pgs[p].state != Pending;
    }
    SameFree(st, st');
    NoStallCarries(st, st', cfg);
  }

  lemma HistorySafe(st: State, cfg: Config, now: nat)
    requires Blank(st) && NoStall(st, cfg)
    ensures var st' := SweepHistory(st, cfg, now); Guarded(st, st') && NoStall(st', cfg)
  {
    hide AnythingOld;
    var st' := SweepHistory(st, cfg, now);
    if Allocated(st) { AllocatedLess(st, st'); }
    SameFree(st, st');
    NoStallCarries(st, st', cfg);
  }

  lemma SweepSafe(st: State, cfg: Config, ord: Order, now: nat)
    requires Blank(st) && NoStall(st, cfg) && IsOrder(ord)
    ensures var st' := SweepAll(st, cfg, ord, now); Guarded(st, st') && NoStall(st', cfg)
  {
    var s := st.(pgs := TimedOut(st.pgs, cfg, now));
    FewerSafe(st, s, cfg);
    FewerSafe(s, Forget(s, cfg, now), cfg);
    hide Allocated, Blank, NoStall, GiveUpAll, IsOrder, Forget, SweepHistory;
    GiveUpSafe(Forget(s, cfg, now), cfg, ord, now, ord(GivenUp(s, cfg, now)));
    HistorySafe(GiveUpAll(Forget(s, cfg, now), cfg, ord, now, ord(GivenUp(s, cfg, now))), cfg, now);
  }

  /** What a call touches: the counter, its own new row, its actor's queue and
      the frames written. */
  lemma CallFrame(st: State, client: ClientId, a: ActorId, body: nat, delivered: bool)
    ensures MakeCall(st, client, a, body, delivered).agents == st.agents
    ensures MakeCall(st, client, a, body, delivered).pgs == st.pgs
    ensures MakeCall(st, client, a, body, delivered).nextRef == st.nextRef + 1
    ensures FateOf(st, a, delivered) == NoActor ==> MakeCall(st, client, a, body, delivered).refs == st.refs
    ensures FateOf(st, a, delivered) != NoActor ==>
              MakeCall(st, client, a, body, delivered).refs ==
              st.refs[RefId(a, st.nextRef) := Ref(FirstState(FateOf(st, a, delivered)), a, client)]
    ensures FateOf(st, a, delivered) in {Hold, SendFails} ==>
              MakeCall(st, client, a, body, delivered).actors ==
              st.actors[a := Enqueued(st.actors[a], Call(RefId(a, st.nextRef), body))]
    ensures FateOf(st, a, delivered) !in {Hold, SendFails} ==>
              MakeCall(st, client, a, body, delivered).actors == st.actors
  {
    match FateOf(st, a, delivered)
    case NoActor =>
    case TooLate =>
    case Hold =>
    case SendFails =>
    case Goes =>
  }

  lemma QueueOnly(actors: map<ActorId, Actor>, a: ActorId, call: Call)
    requires a in actors && Live(actors[a])
    ensures var m := actors[a := Enqueued(actors[a], call)];
            m.Keys == actors.Keys &&
            forall x :: x in actors ==>
              m[x] == actors[x] || (Live(actors[x]) && m[x] == actors[x].(queued := m[x].queued))
  {
  }

  lemma CallSafe(st: State, cfg: Config, client: ClientId, a: ActorId, body: nat, delivered: bool)
    requires Blank(st) && NoStall(st, cfg)
    ensures var st' := MakeCall(st, client, a, body, delivered); Guarded(st, st') && NoStall(st', cfg)
  {
    hide Allocated, Blank, NoStall, MakeCall;
    CallFrame(st, client, a, body, delivered);
    if FateOf(st, a, delivered) in {Hold, SendFails} {
      QueueOnly(st.actors, a, Call(RefId(a, st.nextRef), body));
    }
    QuietSafe(st, MakeCall(st, client, a, body, delivered), cfg);
  }

  lemma ClaimSafe(st: State, cfg: Config, client: ClientId, name: Name, shape: Option<Request>, net: Net)
    requires Blank(st) && NoStall(st, cfg)
    ensures var st' := TakeClaim(st, client, name, shape, net); Guarded(st, st') && NoStall(st', cfg)
  {
    hide Solve, Allocated, NoStall, ClientGroup;
    QuietSafe(st, TakeClaim(st, client, name, shape, net), cfg);
  }

  lemma LinkSafe(st: State, cfg: Config, now: nat, agent: AgentId, conn: nat)
    requires Blank(st) && NoStall(st, cfg)
    ensures var st' := LoseLink(st, now, agent, conn); Guarded(st, st') && NoStall(st', cfg)
  {
    hide Allocated, Blank, NoStall;
    var st' := LoseLink(st, now, agent, conn);
    if st' != st {
      assert st' == st.(agents := st'.agents) && st'.agents.Keys == st.agents.Keys;
      assert forall a :: a in st.agents && a != agent ==> st'.agents[a] == st.agents[a];
      FewerSafe(st, st', cfg);
    }
  }

  /** The remaining steps change neither agents, groups nor who holds what. */
  lemma SmallStepSafe(st: State, cfg: Config, e: Event, st': State)
    requires Blank(st) && NoStall(st, cfg)
    requires match e
             case ConnClosed(client) => st' == CloseConn(st, client)
             case SpawnResult(a, _) => st' == Spawned(st, a)
             case ActorResult(r, ok, payload, error) => st' == Resolve(st, r, ok, payload, error)
             case FabricsDerived(islands, tagged) => st' == st.(islands := islands, tagged := tagged)
             case _ => st' == st
    ensures Guarded(st, st') && NoStall(st', cfg)
  {
    hide Allocated, Blank, NoStall;
    QuietSafe(st, st', cfg);
  }

  // ------------------------------------------------------------- any step

  /** Every step leaves nothing stalled, and keeps devices apart unless a
      registration disputes them. */
  lemma StepSafe(st: State, cfg: Config, ord: Order, now: nat, e: Event)
    requires Blank(st) && NoStall(st, cfg) && IsOrder(ord) && Sane(st, e)
    ensures var st' := Apply(st, cfg, ord, now, e);
            Blank(st') && NoStall(st', cfg) && (Allocated(st) && Undisputed(st, e) ==> Allocated(st'))
  {
    hide Allocated, Blank, NoStall, IsOrder, CreatePg, RemovePg, CreateActor, KillActor, Greet, CloseSession, Reap,
         Registered, MarkDead, SweepAll, NoDup, Unclashed, MakeCall, TakeClaim, LoseLink, CloseConn, Spawned, Resolve;
    match e
    case PgCreate(client, pg, bundles, claim) => CreatePgSafe(st, cfg, ord, now, client, pg, bundles, claim);
    case PgRemove(pg) => RemovePgSafe(st, cfg, ord, now, pg);
    case ActorCreate(client, a, name, n, pg, i, ok) => CreateActorSafe(st, cfg, ord, now, client, a, name, n, pg, i, ok);
    case ActorCall(client, a, body, ok) => CallSafe(st, cfg, client, a, body, ok);
    case ActorKill(a, ok) => KillActorSafe(st, cfg, ord, now, a, ok);
    case ClaimName(client, name, shape, net) => ClaimSafe(st, cfg, client, name, shape, net);
    case Hello(client, group, node, session, reached) => GreetSafe(st, cfg, ord, now, client, group, node, session, reached);
    case SessionClosed(client, reached) => CloseSessionSafe(st, cfg, ord, now, client, reached);
    case ReapTimer(client, token, reached) => ReapSafe(st, cfg, ord, now, client, Some(token), reached);
    case Register(agent, group, node, gpus, resume, unacked, through) =>
      RegisterSafe(st, cfg, ord, now, agent, group, node, gpus, resume, unacked, through);
    case LinkLost(agent, conn) => LinkSafe(st, cfg, now, agent, conn);
    case SpawnResult(a, ok) =>
      if ok {
        SmallStepSafe(st, cfg, e, Spawned(st, a));
      } else {
        MarkDeadSafe(st, cfg, ord, now, a);
      }
    case ConnClosed(client) => SmallStepSafe(st, cfg, e, CloseConn(st, client));
    case ActorResult(r, ok, payload, error) => SmallStepSafe(st, cfg, e, Resolve(st, r, ok, payload, error));
    case ActorExit(a) => MarkDeadSafe(st, cfg, ord, now, a);
    case Sweep => SweepSafe(st, cfg, ord, now);
    case FabricsDerived(islands, tagged) => SmallStepSafe(st, cfg, e, st.(islands := islands, tagged := tagged));
  }
}
