/** When devices stay in one pair of hands: exactly which registrations dispute a
    device, a run in which one does, and that agents bring none about while the head
    keeps the rows of the actors they host. */
module Devices {
  import opened Basics
  import opened Topology
  import opened Chains
  import opened Solver
  import opened Tables
  import opened Placement
  import opened Head
  import opened Deaths
  import opened Safety
  import opened Rows
  import opened Runs
  import opened Calls
  import opened Effects
  import opened Joins
  import opened Cluster
  import opened Sessions

  // ------------------------------------------------- exactly which steps

  /** An actor brought in is live at the end of the registration, on the devices
      its agent reported. */
  lemma BroughtInHolds(st: State, cfg: Config, ord: Order, now: nat, agent: AgentId, group: Group, node: NodeId,
                       gpus: seq<nat>, resume: seq<Resumed>, unacked: seq<RefId>, through: nat, k: nat, g: nat)
    requires IsOrder(ord) && BroughtIn(st, resume, k) && g in resume[k].gpuIds
    ensures var st' := Registered(st, cfg, ord, now, agent, group, node, gpus, resume, unacked, through);
            ActorHolds(st', resume[k].actor, agent, g) && st'.actors[resume[k].actor].madeIn == None
  {
    var a := resume[k].actor;
    var s := TakeOn(st, agent, group, node, gpus, resume, unacked);
    TakenOn(st, agent, group, node, gpus, resume, unacked, k);
    hide TakeOn, Reported, Kills, TryPlace, MarkAll, Drains;
    var ids := ord(Missing(s, agent, resume));
    assert a !in Missing(s, agent, resume);
    assert a !in SetOf(ids);
    hide IsOrder, Missing;
    MarkAllDied(s, cfg, ord, now, ids);
    var c := MarkAll(s, cfg, ord, now, ids);
    assert c.actors[a] == s.actors[a];
    var t := FailLost(c, agent, Reported(resume, unacked));
    var f := Flush(t, ord, agent, st.nextSeq, Kills(st, resume), through);
    TryPlaceOnlyPlaces(f, cfg, ord);
  }

  lemma TakenOn(st: State, agent: AgentId, group: Group, node: NodeId, gpus: seq<nat>, resume: seq<Resumed>,
                unacked: seq<RefId>, k: nat)
    requires BroughtIn(st, resume, k)
    ensures var s := TakeOn(st, agent, group, node, gpus, resume, unacked);
            resume[k].actor in s.actors && s.actors[resume[k].actor] == AdoptedRow(resume[k], group, agent, node)
  {
    hide Adopt, AdoptRefs, Reported;
    var s := RegisterRow(st, agent, group, node, gpus);
    AdoptMeans(s.actors, resume, group, agent, node);
    AdoptRefsFrame(s.(actors := Adopt(s.actors, resume, group, agent, node)), agent, Reported(resume, unacked));
  }

  /** What a registration leaves of the groups: those that held devices hold them,
      and the agent has the devices it reported. */
  lemma BundlesStay(st: State, cfg: Config, ord: Order, now: nat, agent: AgentId, group: Group, node: NodeId,
                    gpus: seq<nat>, resume: seq<Resumed>, unacked: seq<RefId>, through: nat)
    requires Blank(st)
    ensures var st' := Registered(st, cfg, ord, now, agent, group, node, gpus, resume, unacked, through);
            agent in st'.agents && st'.agents[agent].gpus == gpus &&
            forall p: PgId, i: nat, x, g :: BundleHolds(st, p, i, x, g) ==> BundleHolds(st', p, i, x, g)
  {
    hide Adopt, AdoptRefs, Reported, Kills, TryPlace, MarkAll, Drains, Missing;
    var r := RegisterRow(st, agent, group, node, gpus);
    AdoptRefsFrame(r.(actors := Adopt(r.actors, resume, group, agent, node)), agent, Reported(resume, unacked));
    var s := TakeOn(st, agent, group, node, gpus, resume, unacked);
    var ids := ord(Missing(s, agent, resume));
    MarkAllDied(s, cfg, ord, now, ids);
    var c := MarkAll(s, cfg, ord, now, ids);
    var t := FailLost(c, agent, Reported(resume, unacked));
    var f := Flush(t, ord, agent, st.nextSeq, Kills(st, resume), through);
    TryPlaceOnlyPlaces(f, cfg, ord);
    forall p: PgId, i: nat, x, g | BundleHolds(st, p, i, x, g) ensures BundleHolds(TryPlace(f, cfg, ord), p, i, x, g) {
      assert st.pgs[p].state != Pending;
    }
  }

  lemma ClashShows(st: State, a: ActorId, p: PgId, i: nat, agent: AgentId, g: nat)
    requires BundleHolds(st, p, i, agent, g) && ActorHolds(st, a, agent, g) && st.actors[a].madeIn == None
    ensures !Allocated(st)
  {
  }

  lemma RepeatShows(st: State, agent: AgentId)
    requires agent in st.agents && !NoDup(st.agents[agent].gpus)
    ensures !Allocated(st)
  {
  }

  lemma AllocatedIsBlank(st: State)
    requires Allocated(st)
    ensures Blank(st)
  {
  }

  lemma ADispute(st: State, agent: AgentId, resume: seq<Resumed>) returns (k: nat, p: PgId, i: nat, g: nat)
    requires !Unclashed(st, agent, resume)
    ensures BroughtIn(st, resume, k) && BundleHolds(st, p, i, agent, g) && g in resume[k].gpuIds
  {
    k, p, i, g :| BroughtIn(st, resume, k) && BundleHolds(st, p, i, agent, g) && g in resume[k].gpuIds;
  }

  /** A registration keeps devices in one pair of hands exactly when the agent
      reports each device once and brings in no actor on a device a group holds. */
  lemma RegisterExactly(st: State, cfg: Config, ord: Order, now: nat, e: Event)
    requires Allocated(st) && IsOrder(ord) && e.Register?
    ensures Allocated(Apply(st, cfg, ord, now, e)) <==> Undisputed(st, e)
  {
    hide Registered, IsOrder, Allocated, Unclashed, NoDup, BundleHolds, ActorHolds, BroughtIn;
    var st' := Registered(st, cfg, ord, now, e.agent, e.group, e.node, e.gpus, e.resume, e.unacked, e.through);
    AllocatedIsBlank(st);
    RegisterSafe(st, cfg, ord, now, e.agent, e.group, e.node, e.gpus, e.resume, e.unacked, e.through);
    BundlesStay(st, cfg, ord, now, e.agent, e.group, e.node, e.gpus, e.resume, e.unacked, e.through);
    if !NoDup(e.gpus) {
      RepeatShows(st', e.agent);
    } else if !Unclashed(st, e.agent, e.resume) {
      var k, p, i, g := ADispute(st, e.agent, e.resume);
      ClashIn(st, cfg, ord, now, e, k, p, i, g);
    }
  }

  lemma ClashIn(st: State, cfg: Config, ord: Order, now: nat, e: Event, k: nat, p: PgId, i: nat, g: nat)
    requires Blank(st) && IsOrder(ord) && e.Register?
    requires BroughtIn(st, e.resume, k) && BundleHolds(st, p, i, e.agent, g) && g in e.resume[k].gpuIds
    ensures !Allocated(Registered(st, cfg, ord, now, e.agent, e.group, e.node, e.gpus, e.resume, e.unacked, e.through))
  {
    hide Registered, IsOrder, Allocated, Blank, BundleHolds;
    BundlesStay(st, cfg, ord, now, e.agent, e.group, e.node, e.gpus, e.resume, e.unacked, e.through);
    BroughtInHolds(st, cfg, ord, now, e.agent, e.group, e.node, e.gpus, e.resume, e.unacked, e.through, k, g);
    ClashShows(Registered(st, cfg, ord, now, e.agent, e.group, e.node, e.gpus, e.resume, e.unacked, e.through),
               e.resume[k].actor, p, i, e.agent, g);
  }

  ghost predicate UndisputedRun(cfg: Config, start: nat, steps: seq<Step>) {
    forall i :: 0 <= i < |steps| ==> Undisputed(After(cfg, start, steps[..i]), steps[i].event)
  }

  ghost predicate AllocatedThroughout(cfg: Config, start: nat, steps: seq<Step>) {
    forall k :: 0 <= k <= |steps| ==> Allocated(After(cfg, start, steps[..k]))
  }

  lemma StepExactly(cfg: Config, start: nat, steps: seq<Step>, k: nat)
    requires SaneRun(cfg, start, steps) && k < |steps| && Allocated(After(cfg, start, steps[..k]))
    ensures Allocated(After(cfg, start, steps[..k + 1])) <==> Undisputed(After(cfg, start, steps[..k]), steps[k].event)
  {
    hide Apply, Allocated, After, HeadInvariant;
    SanePrefix(cfg, start, steps, k);
    EveryRunHolds(cfg, start, steps[..k]);
    assert SaneAt(cfg, start, steps, k);
    LastStep(cfg, start, steps, k);
    if steps[k].event.Register? {
      RegisterExactly(After(cfg, start, steps[..k]), cfg, steps[k].ord, steps[k].now, steps[k].event);
    } else {
      StepHolds(After(cfg, start, steps[..k]), cfg, steps[k]);
    }
  }

  /** Over every run, no device is ever reserved twice, and no live actor ever holds
      a device of a group it was not made in, exactly when no registration of the
      run disputes one. */
  lemma {:induction false} EveryRunExclusiveExactly(cfg: Config, start: nat, steps: seq<Step>)
    requires SaneRun(cfg, start, steps)
    ensures AllocatedThroughout(cfg, start, steps) <==> UndisputedRun(cfg, start, steps)
  {
    hide Allocated, Undisputed, SaneRun;
    if UndisputedRun(cfg, start, steps) {
      forall k | 0 <= k <= |steps| ensures Allocated(After(cfg, start, steps[..k])) {
        UndisputedUpTo(cfg, start, steps, k);
      }
    }
    if AllocatedThroughout(cfg, start, steps) {
      hide After;
      forall i | 0 <= i < |steps| ensures Undisputed(After(cfg, start, steps[..i]), steps[i].event) {
        assert Allocated(After(cfg, start, steps[..i])) && Allocated(After(cfg, start, steps[..i + 1]));
        StepExactly(cfg, start, steps, i);
      }
    }
  }

  lemma {:induction false} UndisputedUpTo(cfg: Config, start: nat, steps: seq<Step>, k: nat)
    requires SaneRun(cfg, start, steps) && k <= |steps|
    requires forall i :: 0 <= i < k ==> Undisputed(After(cfg, start, steps[..i]), steps[i].event)
    ensures Allocated(After(cfg, start, steps[..k]))
  {
    if k == 0 {
      assert steps[..0] == [];
    } else {
      hide After, Allocated, Undisputed, SaneRun;
      UndisputedUpTo(cfg, start, steps, k - 1);
      StepExactly(cfg, start, steps, k - 1);
    }
  }

  // ---- a run in which a registration does

  const LAPSED := Resumed(7, 0, [0], 5, [])

  /** An actor is made in a group's only bundle. Its agent's link is lost, it is
      killed meanwhile and its driver's session closes. Inside the grace the history
      sweep drops the dead row, and the agent, which never heard of the kill, comes
      back with the actor. */
  ghost function Lapse(cfg: Config, ord: Order): seq<Step> {
    [Step(0, ord, Register(1, 0, 0, [0], [], [], 0)),
     Step(0, ord, Hello(5, 0, 0, true, {})),
     Step(0, ord, PgCreate(5, 9, [1], None)),
     Step(0, ord, ActorCreate(5, 7, 0, 1, 9, 0, true)),
     Step(0, ord, LinkLost(1, 1)),
     Step(0, ord, ActorKill(7, false)),
     Step(0, ord, SessionClosed(5, {})),
     Step(cfg.keepMs + 1, ord, Sweep),
     Step(cfg.keepMs + 1, ord, Register(1, 0, 0, [0], [LAPSED], [], 0))]
  }

  /** The group's bundle is device 0 of agent 1. */
  ghost predicate GroupStands(st: State) {
    st.pgs.Keys == {9} && st.pgs[9].state == Created && |st.pgs[9].assignment| == 1 && st.pgs[9].assignment[0].Some? &&
    st.pgs[9].assignment[0].value.agent == 1 && st.pgs[9].assignment[0].value.gpuIds == [0]
  }

  const AGENT := Agent(0, 0, [0], true, None, None, 1)

  ghost predicate Opened(st: State) {
    Bare(st) && st.actors == map[] && st.agents == map[1 := AGENT] && st.clients.Keys == {5} && st.clients[5].group == 0
  }

  ghost predicate Grouped(st: State) {
    GroupStands(st) && st.actors == map[] && st.agents == map[1 := AGENT] && st.clients.Keys == {5} && st.clients[5].group == 0
  }

  predicate Hosting(st: State, a: AgentId) {
    st.actors.Keys == {7} && st.actors[7].agent == a && st.actors[7].owner == 5
  }

  lemma OpensDesk(cfg: Config, ord: Order)
    requires IsOrder(ord)
    ensures var s := Apply(Fresh(0), cfg, ord, 0, Register(1, 0, 0, [0], [], [], 0));
            Opened(Apply(s, cfg, ord, 0, Hello(5, 0, 0, true, {})))
  {
    var s := Apply(Fresh(0), cfg, ord, 0, Register(1, 0, 0, [0], [], [], 0));
    BareRegister(Fresh(0), cfg, ord, 0, 1, 0, 0, [0], [], 0);
    hide Registered;
    assert Orphans(s, 0, 5) == {};
    OrderOfNone(ord);
  }

  lemma OrderOfOne(ord: Order, x: nat)
    requires IsOrder(ord)
    ensures ord({x}) == [x]
  {
    var s := ord({x});
    NoDupSize(s);
    assert SetOf(s) == {x};
    assert |s| == 1 && s[0] in s;
  }

  lemma OneFits(st: State)
    requires st.agents == map[1 := AGENT] && st.actors == map[]
    requires forall p: PgId, i: nat, a, g :: !BundleHolds(st, p, i, a, g)
    ensures Fits(st, 0, [1])
  {
    assert !Held(st, 1, 0);
    assert [0][..0] == [];
    assert FilterFree(st, 1, [0]) == [0];
    assert [1][..0] == [];
    assert Load([1], [1], 1) == 1;
    assert HostsFit(st, 0, [1], [1]);
  }

  lemma PlacesOne(st: State, cfg: Config, row: Pg)
    requires row == Pg(0, 5, [1], None, NoBundles(1), Pending, 0, None)
    requires st.agents == map[1 := AGENT] && st.actors == map[] && st.pgs == map[9 := row]
    ensures var bs := PlaceFor(st, cfg, row); bs.Some? && |bs.value| == 1 && bs.value[0].agent == 1 && bs.value[0].gpuIds == [0]
  {
    hide PlaceFor, Fits;
    OneFits(st);
    assert Waits(st, cfg, 9);
    if PlaceFor(st, cfg, row).None? { NotPlacedNotFits(st, cfg, 9); }
    PlaceTakes(st, cfg, row);
    var b := PlaceFor(st, cfg, row).value[0];
    assert b.gpuIds[0] in b.gpuIds;
  }

  lemma MakesGroup(st: State, cfg: Config, ord: Order)
    requires IsOrder(ord) && Opened(st)
    ensures Grouped(Apply(st, cfg, ord, 0, PgCreate(5, 9, [1], None)))
  {
    hide PlaceFor, IsOrder;
    var row := Pg(0, 5, [1], None, NoBundles(1), Pending, 0, None);
    var s := st.(pgs := st.pgs[9 := row]);
    assert s.pgs == map[9 := row] && s.pgs.Keys == {9};
    OrderOfOne(ord, 9);
    PlacesOne(s, cfg, row);
    assert [9][1..] == [];
    assert PlaceAll(PlaceOne(s, cfg, 9), cfg, []) == PlaceOne(s, cfg, 9);
    assert TryPlace(s, cfg, ord) == PlaceAll(s, cfg, [9]) == PlaceOne(s, cfg, 9);
  }

  lemma MakesHost(st: State, cfg: Config, ord: Order)
    requires Grouped(st)
    ensures var s := Apply(st, cfg, ord, 0, ActorCreate(5, 7, 0, 1, 9, 0, true));
            GroupStands(s) && Hosting(s, 1) && Live(s.actors[7]) && s.agents == map[1 := AGENT]
  {
  }

  lemma LosesLink(st: State, cfg: Config, ord: Order)
    requires GroupStands(st) && Hosting(st, 1) && Live(st.actors[7]) && st.agents == map[1 := AGENT]
    ensures var s := Apply(st, cfg, ord, 0, LinkLost(1, 1));
            GroupStands(s) && Hosting(s, 1) && Live(s.actors[7]) && !AgentUp(s, 1)
  {
  }

  lemma Stands(st: State, st': State)
    requires GroupStands(st) && OnlyPlaced(st.pgs, st'.pgs)
    ensures GroupStands(st')
  {
  }

  lemma KillsHost(st: State, cfg: Config, ord: Order)
    requires GroupStands(st) && Hosting(st, 1) && Live(st.actors[7]) && !AgentUp(st, 1)
    ensures var s := Apply(st, cfg, ord, 0, ActorKill(7, false));
            GroupStands(s) && Hosting(s, 1) && s.actors[7].state == Dead(0)
  {
    hide TryPlace;
    TryPlaceOnlyPlaces(Bury(st, 0, 7), cfg, ord);
    Stands(st, TryPlace(Bury(st, 0, 7), cfg, ord));
  }

  lemma ClosesDesk(st: State, cfg: Config, ord: Order)
    requires cfg.graceMs != 0 && GroupStands(st) && Hosting(st, 1) && st.actors[7].state == Dead(0)
    ensures var s := Apply(st, cfg, ord, 0, SessionClosed(5, {}));
            GroupStands(s) && Hosting(s, 1) && s.actors[7].state == Dead(0) && 5 !in s.clients
  {
  }

  /** Giving up on agents touches neither a dead row nor a placed group. */
  lemma GiveUpLeaves(st: State, cfg: Config, ord: Order, now: nat, agents: seq<AgentId>)
    requires IsOrder(ord) && GroupStands(st) && Hosting(st, 1) && st.actors[7].state == Dead(0)
    ensures var up := GiveUpAll(st, cfg, ord, now, agents);
            GroupStands(up) && up.actors == st.actors && up.clients == st.clients
  {
    hide GiveUpAll, IsOrder, GroupStands;
    GiveUpDied(st, cfg, ord, now, agents);
    Stands(st, GiveUpAll(st, cfg, ord, now, agents));
  }

  lemma HistoryDrops(st: State, cfg: Config)
    requires GroupStands(st) && Hosting(st, 1) && st.actors[7].state == Dead(0) && 5 !in st.clients
    ensures var s := SweepHistory(st, cfg, cfg.keepMs + 1); GroupStands(s) && s.actors == map[]
  {
    hide OldAgent;
    assert OldActor(st, cfg, cfg.keepMs + 1, 7);
  }

  lemma SweepsRow(st: State, cfg: Config, ord: Order)
    requires IsOrder(ord) && GroupStands(st) && Hosting(st, 1) && st.actors[7].state == Dead(0) && 5 !in st.clients
    ensures var s := Apply(st, cfg, ord, cfg.keepMs + 1, Sweep); GroupStands(s) && s.actors == map[]
  {
    hide GiveUpAll, IsOrder, SweepHistory, GivesUp;
    var now := cfg.keepMs + 1;
    var t := st.(pgs := TimedOut(st.pgs, cfg, now));
    assert t.pgs == st.pgs;
    var f := Forget(t, cfg, now);
    GiveUpLeaves(f, cfg, ord, now, ord(GivenUp(t, cfg, now)));
    HistoryDrops(GiveUpAll(f, cfg, ord, now, ord(GivenUp(t, cfg, now))), cfg);
  }

  /** The tables before the agent comes back. */
  ghost predicate RowLapsed(st: State) {
    GroupStands(st) && st.actors == map[]
  }

  lemma AtStart(cfg: Config, steps: seq<Step>)
    ensures After(cfg, 0, steps[..0]) == Fresh(0)
  {
    assert steps[..0] == [];
  }

  lemma LapseOpens(cfg: Config, ord: Order)
    requires IsOrder(ord)
    ensures Opened(After(cfg, 0, Lapse(cfg, ord)[..2])) && Grouped(After(cfg, 0, Lapse(cfg, ord)[..3]))
  {
    hide Apply, After, Opened, Grouped, IsOrder;
    var steps := Lapse(cfg, ord);
    AtStart(cfg, steps);
    LastStep(cfg, 0, steps, 0);
    LastStep(cfg, 0, steps, 1);
    OpensDesk(cfg, ord);
    LastStep(cfg, 0, steps, 2);
    MakesGroup(After(cfg, 0, steps[..2]), cfg, ord);
  }

  lemma LapseUpTo(cfg: Config, ord: Order)
    requires IsOrder(ord) && cfg.graceMs != 0
    ensures RowLapsed(After(cfg, 0, Lapse(cfg, ord)[..8]))
  {
    hide Apply, After, Opened, Grouped, GroupStands, Hosting, IsOrder, AgentUp;
    var steps := Lapse(cfg, ord);
    LapseOpens(cfg, ord);
    LastStep(cfg, 0, steps, 3);
    MakesHost(After(cfg, 0, steps[..3]), cfg, ord);
    LastStep(cfg, 0, steps, 4);
    LosesLink(After(cfg, 0, steps[..4]), cfg, ord);
    LastStep(cfg, 0, steps, 5);
    KillsHost(After(cfg, 0, steps[..5]), cfg, ord);
    LastStep(cfg, 0, steps, 6);
    ClosesDesk(After(cfg, 0, steps[..6]), cfg, ord);
    LastStep(cfg, 0, steps, 7);
    SweepsRow(After(cfg, 0, steps[..7]), cfg, ord);
  }

  lemma LapseIsSane(cfg: Config, ord: Order)
    requires IsOrder(ord)
    ensures SaneRun(cfg, 0, Lapse(cfg, ord))
  {
    hide After, Apply, IsOrder;
    var steps := Lapse(cfg, ord);
    LapseOpens(cfg, ord);
    forall i | 0 <= i < |steps| ensures SaneAt(cfg, 0, steps, i) {
    }
  }

  /** For every configuration whose grace outlasts the history it keeps, and every
      map order: devices are in one pair of hands up to the agent's return, and
      after it device 0 is a group's and a live actor's whose row, like that of every
      actor brought in, no longer says it was made there. */
  lemma LapseDisputes(cfg: Config, ord: Order)
    requires IsOrder(ord) && cfg.graceMs > cfg.keepMs + 1
    ensures SaneRun(cfg, 0, Lapse(cfg, ord))
    ensures Allocated(After(cfg, 0, Lapse(cfg, ord)[..8])) && !Allocated(After(cfg, 0, Lapse(cfg, ord)))
  {
    hide After, SaneRun, Allocated, Apply, IsOrder;
    var steps := Lapse(cfg, ord);
    LapseIsSane(cfg, ord);
    LapseUpTo(cfg, ord);
    AtStart(cfg, steps);
    forall i | 0 <= i < 8 ensures Undisputed(After(cfg, 0, steps[..i]), steps[i].event) {
    }
    UndisputedUpTo(cfg, 0, steps, 8);
    StepExactly(cfg, 0, steps, 8);
    assert steps[..9] == steps;
    var st := After(cfg, 0, steps[..8]);
    assert BroughtIn(st, [LAPSED], 0) && BundleHolds(st, 9, 0, 1, 0);
  }

  // ------------------------------------------- where groups can be placed

  /** Every agent with a row, and every agent a group was placed on, is among
      `known`. */
  ghost predicate On(st: State, known: set<AgentId>) {
    st.agents.Keys <= known &&
    forall p, i :: p in st.pgs && 0 <= i < |st.pgs[p].assignment| && st.pgs[p].assignment[i].Some? ==>
      st.pgs[p].assignment[i].value.agent in known
  }

  lemma {:induction false} DrawnFrom(free: map<AgentId, seq<nat>>, bundles: seq<nat>, hosts: seq<seq<AgentId>>,
                                     nodes: map<AgentId, NodeId>, envs: seq<RankEnv>)
    requires |hosts| == |envs| == |bundles|
    ensures var r := Draw(free, bundles, hosts, nodes, envs);
            r.Some? ==> forall i :: 0 <= i < |r.value| ==> r.value[i].agent in free
    decreases |bundles|
  {
    if bundles != [] {
      var need := Need(bundles[0]);
      var a := FirstWith(hosts[0], free, need);
      if a.Some? {
        var rest := free[a.value := free[a.value][need..]];
        DrawnFrom(rest, bundles[1..], hosts[1..], nodes, envs[1..]);
        assert rest.Keys == free.Keys;
      }
    }
  }

  lemma {:induction false} FitFirstOn(st: State, group: Group, bundles: seq<nat>, driver: Option<NodeId>, scopes: seq<Scope>)
    ensures var r := FitFirst(st, group, bundles, driver, scopes);
            r.Some? ==> forall i :: 0 <= i < |r.value| ==> r.value[i].agent in st.agents
    decreases |scopes|
  {
    if scopes != [] {
      DrawnFrom(AllFree(st), bundles, Same(|bundles|, Hosts(st, group, driver, scopes[0])), NodeMap(st), Same(|bundles|, NoEnv));
      FitFirstOn(st, group, bundles, driver, scopes[1..]);
    }
  }

  lemma FitRanksOn(st: State, group: Group, bundles: seq<nat>, layout: Layout, ranks: seq<Member>)
    ensures var r := FitRanks(st, group, bundles, layout, ranks);
            r.Some? ==> forall i :: 0 <= i < |r.value| ==> r.value[i].agent in st.agents
  {
    hide FitRanks;
    var r := FitRanks(st, group, bundles, layout, ranks);
    if r.Some? {
      forall i | 0 <= i < |r.value| ensures r.value[i].agent in st.agents {
        RanksSized(st, group, bundles, layout, ranks);
        RanksGetBundles(st, group, bundles, layout, ranks, i);
      }
    }
  }

  lemma RanksSized(st: State, group: Group, bundles: seq<nat>, layout: Layout, ranks: seq<Member>)
    requires FitRanks(st, group, bundles, layout, ranks).Some?
    ensures |FitRanks(st, group, bundles, layout, ranks).value| == |ranks|
  {
  }

  lemma PlaceForOn(st: State, cfg: Config, pg: Pg)
    ensures var r := PlaceFor(st, cfg, pg);
            r.Some? ==> forall i :: 0 <= i < |r.value| ==> r.value[i].agent in st.agents
  {
    hide FitRanks, FitFirst, ClaimOrder, Scopes;
    var driver := DriverNode(st, pg.owner);
    match ClaimOrder(st, pg.group, pg.claim, driver)
    case Refused =>
    case InOrderOf(s, ranks) => FitRanksOn(st, pg.group, pg.bundles, s.layout, ranks);
    case NotOrdered =>
      var scopes := Scopes(st, cfg, pg.group, pg.bundles, driver, pg.claim);
      if scopes.Ok? {
        FitFirstOn(st, pg.group, pg.bundles, driver, scopes.value);
      }
  }

  lemma PlaceOneOn(st: State, cfg: Config, id: PgId, known: set<AgentId>)
    requires On(st, known)
    ensures On(PlaceOne(st, cfg, id), known)
  {
    hide PlaceFor;
    if id in st.pgs { PlaceForOn(st, cfg, st.pgs[id]); }
  }

  lemma {:induction false} PlaceAllOn(st: State, cfg: Config, ids: seq<PgId>, known: set<AgentId>)
    requires On(st, known)
    ensures On(PlaceAll(st, cfg, ids), known)
    decreases |ids|
  {
    hide On, PlaceOne;
    if ids != [] {
      PlaceOneOn(st, cfg, ids[0], known);
      PlaceAllOn(PlaceOne(st, cfg, ids[0]), cfg, ids[1..], known);
    }
  }

  /** Changes that place nothing and add no agent. */
  lemma OnLess(st: State, st': State, known: set<AgentId>)
    requires On(st, known) && st'.agents.Keys <= st.agents.Keys
    requires forall p :: p in st'.pgs ==> p in st.pgs && st'.pgs[p].assignment == st.pgs[p].assignment
    ensures On(st', known)
  {
  }

  lemma MarkDeadOn(st: State, cfg: Config, ord: Order, now: nat, a: ActorId, known: set<AgentId>)
    requires On(st, known)
    ensures On(MarkDead(st, cfg, ord, now, a), known)
  {
    hide On, PlaceAll, FanOut;
    OnLess(st, Bury(st, now, a), known);
    PlaceAllOn(Bury(st, now, a), cfg, ord(st.pgs.Keys), known);
  }

  lemma {:induction false} MarkAllOn(st: State, cfg: Config, ord: Order, now: nat, ids: seq<ActorId>, known: set<AgentId>)
    requires On(st, known)
    ensures On(MarkAll(st, cfg, ord, now, ids), known)
    decreases |ids|
  {
    hide On, MarkDead;
    if ids != [] {
      var n := |ids| - 1;
      MarkAllOn(st, cfg, ord, now, ids[..n], known);
      MarkDeadOn(MarkAll(st, cfg, ord, now, ids[..n]), cfg, ord, now, ids[n], known);
    }
  }

  lemma KillActorOn(st: State, cfg: Config, ord: Order, now: nat, a: ActorId, delivered: bool, known: set<AgentId>)
    requires On(st, known)
    ensures On(KillActor(st, cfg, ord, now, a, delivered), known)
  {
    hide On, MarkDead;
    MarkDeadOn(st, cfg, ord, now, a, known);
    if a in st.actors && AgentUp(st, st.actors[a].agent) {
      OnLess(st, Write(st, st.actors[a].agent, Kill(a)), known);
    }
  }

  lemma {:induction false} KillAllOn(st: State, cfg: Config, ord: Order, now: nat, ids: seq<ActorId>, reached: set<ActorId>,
                                     known: set<AgentId>)
    requires On(st, known)
    ensures On(KillAll(st, cfg, ord, now, ids, reached), known)
    decreases |ids|
  {
    hide On, KillActor;
    if ids != [] {
      var n := |ids| - 1;
      KillAllOn(st, cfg, ord, now, ids[..n], reached, known);
      KillActorOn(KillAll(st, cfg, ord, now, ids[..n], reached), cfg, ord, now, ids[n], ids[n] in reached, known);
    }
  }

  lemma {:induction false} GiveUpAllOn(st: State, cfg: Config, ord: Order, now: nat, agents: seq<AgentId>, known: set<AgentId>)
    requires On(st, known)
    ensures On(GiveUpAll(st, cfg, ord, now, agents), known)
    decreases |agents|
  {
    hide On, MarkAll;
    if agents != [] {
      var n := |agents| - 1;
      GiveUpAllOn(st, cfg, ord, now, agents[..n], known);
      var s := GiveUpAll(st, cfg, ord, now, agents[..n]);
      MarkAllOn(s, cfg, ord, now, ord(HostedBy(s, agents[n])), known);
    }
  }

  lemma CreatePgOn(st: State, cfg: Config, ord: Order, now: nat, client: ClientId, pg: PgId, bundles: seq<nat>,
                   claim: Option<Name>, known: set<AgentId>)
    requires On(st, known)
    ensures On(CreatePg(st, cfg, ord, now, client, pg, bundles, claim), known)
  {
    hide PlaceAll;
    var row := Pg(ClientGroup(st, client), client, bundles, claim, NoBundles(|bundles|), Pending, now, None);
    var s := st.(pgs := st.pgs[pg := row]);
    PlaceAllOn(s, cfg, ord(s.pgs.Keys), known);
  }

  lemma CreateActorOn(st: State, cfg: Config, ord: Order, now: nat, client: ClientId, a: ActorId, name: Name,
                      numGpus: nat, pg: PgId, index: nat, delivered: bool, known: set<AgentId>)
    requires On(st, known)
    ensures On(CreateActor(st, cfg, ord, now, client, a, name, numGpus, pg, index, delivered), known)
  {
    hide On, MarkDead;
    var group := ClientGroup(st, client);
    if Creatable(st, group, name, numGpus, pg, index) {
      var b := st.pgs[pg].assignment[index].value;
      var row := Actor(name, group, b.agent, b.node, b.gpuIds, client, Spawning, [], Some(pg));
      var made := st.(actors := st.actors[a := row]);
      OnLess(st, made, known);
      OnLess(st, Write(made, b.agent, Spawn(a, name, client, b.gpuIds)), known);
      MarkDeadOn(made, cfg, ord, now, a, known);
    }
  }

  lemma GreetOn(st: State, cfg: Config, ord: Order, now: nat, client: ClientId, group: Group, node: NodeId,
                session: bool, reached: set<ActorId>, known: set<AgentId>)
    requires On(st, known)
    ensures On(Greet(st, cfg, ord, now, client, group, node, session, reached), known)
  {
    hide On, KillAll, Driven;
    var s := st.(clients := st.clients[client := HelloRow(st, client, group, node, session)]);
    OnLess(st, s, known);
    KillAllOn(s, cfg, ord, now, ord(Orphans(st, group, client)), reached, known);
  }

  lemma ReapOn(st: State, cfg: Config, ord: Order, now: nat, client: ClientId, token: Option<nat>, reached: set<ActorId>,
               known: set<AgentId>)
    requires On(st, known)
    ensures On(Reap(st, cfg, ord, now, client, token, reached), known)
  {
    hide On, KillAll, PlaceAll, Released;
    var s := ReapStart(st, client, now);
    OnLess(st, s, known);
    OnLess(st, st.(reapPending := st.reapPending - {client}), known);
    KillAllOn(s, cfg, ord, now, ord(OwnedBy(st, client)), reached, known);
    var killed := KillAll(s, cfg, ord, now, ord(OwnedBy(st, client)), reached);
    var dropped := killed.(refs := RefsOfOthers(killed.refs, client));
    OnLess(killed, dropped, known);
    PlaceAllOn(dropped, cfg, ord(dropped.pgs.Keys), known);
  }

  lemma CloseSessionOn(st: State, cfg: Config, ord: Order, now: nat, client: ClientId, reached: set<ActorId>, known: set<AgentId>)
    requires On(st, known)
    ensures On(CloseSession(st, cfg, ord, now, client, reached), known)
  {
    hide On, Reap;
    var s := st.(clients := st.clients - {client});
    OnLess(st, s, known);
    ReapOn(s, cfg, ord, now, client, None, reached, known);
    OnLess(st, s.(reapPending := s.reapPending[client := s.nextReap], nextReap := s.nextReap + 1), known);
  }

  lemma SweepOn(st: State, cfg: Config, ord: Order, now: nat, known: set<AgentId>)
    requires On(st, known)
    ensures On(SweepAll(st, cfg, ord, now), known)
  {
    hide On, GiveUpAll, AnythingOld, OldActor, OldPg, OldAgent, GivesUp;
    var s := st.(pgs := TimedOut(st.pgs, cfg, now));
    OnLess(st, Forget(s, cfg, now), known);
    var agents := ord(GivenUp(s, cfg, now));
    GiveUpAllOn(Forget(s, cfg, now), cfg, ord, now, agents, known);
    var up := GiveUpAll(Forget(s, cfg, now), cfg, ord, now, agents);
    OnLess(up, SweepHistory(up, cfg, now), known);
  }

  lemma RegisterOn(st: State, cfg: Config, ord: Order, now: nat, agent: AgentId, group: Group, node: NodeId,
                   gpus: seq<nat>, resume: seq<Resumed>, unacked: seq<RefId>, through: nat, known: set<AgentId>)
    requires On(st, known) && agent in known
    ensures On(Registered(st, cfg, ord, now, agent, group, node, gpus, resume, unacked, through), known)
  {
    hide Adopt, AdoptRefs, Reported, Kills, MarkAll, Drains, Missing, PlaceAll;
    var r := RegisterRow(st, agent, group, node, gpus);
    AdoptRefsFrame(r.(actors := Adopt(r.actors, resume, group, agent, node)), agent, Reported(resume, unacked));
    var s := TakeOn(st, agent, group, node, gpus, resume, unacked);
    assert On(s, known);
    hide On;
    var ids := ord(Missing(s, agent, resume));
    MarkAllOn(s, cfg, ord, now, ids, known);
    var c := MarkAll(s, cfg, ord, now, ids);
    var f := Flush(FailLost(c, agent, Reported(resume, unacked)), ord, agent, st.nextSeq, Kills(st, resume), through);
    OnLess(c, f, known);
    PlaceAllOn(f, cfg, ord(f.pgs.Keys), known);
  }

  lemma RemovePgOn(st: State, cfg: Config, ord: Order, now: nat, pg: PgId, known: set<AgentId>)
    requires On(st, known)
    ensures On(RemovePg(st, cfg, ord, now, pg), known)
  {
    hide On, PlaceAll;
    var s := if pg in st.pgs then st.(pgs := st.pgs[pg := RemovedRow(st.pgs[pg], now)]) else st;
    OnLess(st, s, known);
    PlaceAllOn(s, cfg, ord(s.pgs.Keys), known);
  }

  lemma SpawnedOn(st: State, a: ActorId, known: set<AgentId>)
    requires On(st, known)
    ensures On(Spawned(st, a), known)
  {
    OnLess(st, Spawned(st, a), known);
  }

  /** Only a registration adds an agent that groups can be placed on. */
  lemma StepOn(st: State, cfg: Config, ord: Order, now: nat, e: Event, known: set<AgentId>)
    requires On(st, known) && (e.Register? ==> e.agent in known)
    ensures On(Apply(st, cfg, ord, now, e), known)
  {
    hide On, CreatePg, RemovePg, CreateActor, KillActor, Greet, CloseSession, Reap, Registered, MarkDead, SweepAll, MakeCall,
         TakeClaim, LoseLink, CloseConn, Spawned, Resolve;
    UntouchedSteps(st, now, e);
    match e
    case PgCreate(client, pg, bundles, claim) => CreatePgOn(st, cfg, ord, now, client, pg, bundles, claim, known);
    case PgRemove(pg) => RemovePgOn(st, cfg, ord, now, pg, known);
    case ActorCreate(client, a, name, n, pg, i, ok) => CreateActorOn(st, cfg, ord, now, client, a, name, n, pg, i, ok, known);
    case ActorKill(a, ok) => KillActorOn(st, cfg, ord, now, a, ok, known);
    case Hello(client, group, node, session, reached) => GreetOn(st, cfg, ord, now, client, group, node, session, reached, known);
    case SessionClosed(client, reached) => CloseSessionOn(st, cfg, ord, now, client, reached, known);
    case ReapTimer(client, token, reached) => ReapOn(st, cfg, ord, now, client, Some(token), reached, known);
    case Register(agent, group, node, gpus, resume, unacked, through) =>
      RegisterOn(st, cfg, ord, now, agent, group, node, gpus, resume, unacked, through, known);
    case SpawnResult(a, ok) =>
      SpawnedOn(st, a, known);
      MarkDeadOn(st, cfg, ord, now, a, known);
    case ActorExit(a) => MarkDeadOn(st, cfg, ord, now, a, known);
    case Sweep => SweepOn(st, cfg, ord, now, known);
    case ActorCall(client, a, body, ok) =>
      CallFrame(st, client, a, body, ok);
      OnLess(st, MakeCall(st, client, a, body, ok), known);
    case ClaimName(client, name, shape, net) => OnLess(st, TakeClaim(st, client, name, shape, net), known);
    case ConnClosed(client) => OnLess(st, CloseConn(st, client), known);
    case LinkLost(agent, conn) => OnLess(st, LoseLink(st, now, agent, conn), known);
    case ActorResult(r, ok, payload, error) =>
      ResolveIs(st, r, ok, payload, error);
      OnLess(st, Resolve(st, r, ok, payload, error), known);
    case FabricsDerived(islands, tagged) => OnLess(st, st.(islands := islands, tagged := tagged), known);
  }

  // ---------------------------------------------------- with their agents

  /** Nothing an agent of this head hosts, or is yet to spawn, is unknown here, and
      groups are placed only on agents that joined. */
  ghost predicate Tracked(c: Cluster) {
    On(c.head, c.joined) &&
    (forall g, a :: HostsActor(c, g, a) && g in c.joined ==> a in c.head.actors) &&
    (forall g, i: nat, a :: SpawnsAt(c, g, i, a) ==> a in c.head.actors)
  }

  /** A move that drops no row of an actor an agent hosts or is yet to spawn, which
      only a history sweep could, and in which no agent reports a device twice. */
  ghost predicate Careful(c: Cluster, m: Move, c': Cluster) {
    (m.Join? ==> m.step.event.Register? && NoDup(m.step.event.gpus)) &&
    (m.HeadMove? ==>
       (forall g, a :: HostsActor(c, g, a) && g in c.joined && a in c.head.actors ==> a in c'.head.actors) &&
       (forall g, i: nat, a :: SpawnsAt(c, g, i, a) && a in c.head.actors ==> a in c'.head.actors))
  }

  /** A registration of a tracked cluster disputes nothing: an agent new here is one
      no group was placed on, and all that another brings back is known. */
  lemma JoinUndisputed(c: Cluster, step: Step)
    requires Tracked(c) && Joining(c, step) && NoDup(step.event.gpus)
    ensures Undisputed(c.head, step.event)
  {
    var e := step.event;
    forall k: nat, p: PgId, i: nat, g | BroughtIn(c.head, e.resume, k) && BundleHolds(c.head, p, i, e.agent, g)
      ensures false
    {
      assert HostsActor(c, e.agent, e.resume[k].actor);
    }
  }

  lemma HeadTracked(c: Cluster, cfg: Config, step: Step)
    requires Good(c) && Tracked(c) && HeadMoves(c, step) && Careful(c, HeadMove(step), AfterHead(c, cfg, step))
    ensures Tracked(AfterHead(c, cfg, step))
  {
    hide Apply, Good, On, HeadMoves;
    var c' := AfterHead(c, cfg, step);
    HeadSpawns(c, cfg, step);
    StepOn(c.head, cfg, step.ord, step.now, step.event, c.joined) by {
      NoRegister(c, step);
    }
    assert c'.sides == c.sides && c'.joined == c.joined;
    forall g, a | HostsActor(c', g, a) && g in c'.joined ensures a in c'.head.actors {
      assert HostsActor(c, g, a);
    }
  }

  lemma NoRegister(c: Cluster, step: Step)
    requires HeadMoves(c, step)
    ensures !step.event.Register?
  {
  }

  /** A spawn on its way after a step of the head was on its way, or is of an actor
      just made. */
  lemma HeadSpawns(c: Cluster, cfg: Config, step: Step)
    requires Good(c) && HeadMoves(c, step)
    ensures var c' := AfterHead(c, cfg, step);
            forall g, i: nat, a :: SpawnsAt(c', g, i, a) ==>
              (SpawnsAt(c, g, i, a) || (a in c'.head.actors && step.event.ActorCreate? && a == step.event.actor))
  {
    var e := step.event;
    var c' := AfterHead(c, cfg, step);
    hide Apply, SidesGood, LinksGood, MetGood, FiledGood, NumbersGood, SpawnsGood, CallsGood, RunningGood, Handing, HeldWhileAway,
         IsOrder, Steady, Tame, Makes, MakesOne;
    if e.ActorCreate? {
      CreatesActor(c.head, cfg, step);
      MakesFrames(c, c', e.actor);
    } else if e.ActorCall? {
      CallsActor(c.head, cfg, step);
      CallFrames(c, c', RefId(e.actor, c.head.nextRef));
    } else {
      StepTame(c.head, cfg, step.ord, step.now, e);
      TameKillsOnly(c.head, c'.head, DeadlyFor(c.head, cfg, step.now, e), EndedBy(c.head, cfg, e));
      TameFrames(c, c');
    }
  }

  lemma TameKillsOnly(st: State, st': State, dead: set<ActorId>, ended: set<RefId>)
    requires Tame(st, st', dead, ended)
    ensures OnlyKillsAdded(st.sent, st'.sent)
  {
  }

  lemma CreatesActor(st: State, cfg: Config, step: Step)
    requires RowsHold(st) && Sane(st, step.event) && step.event.ActorCreate?
    ensures Makes(st, Apply(st, cfg, step.ord, step.now, step.event), step.event.actor)
  {
    var e := step.event;
    hide CreateActor, Makes;
    MakesActor(st, cfg, step.ord, step.now, e.client, e.actor, e.name, e.numGpus, e.pg, e.index, e.delivered);
  }

  lemma CallsActor(st: State, cfg: Config, step: Step)
    requires step.event.ActorCall?
    ensures MakesOne(st, Apply(st, cfg, step.ord, step.now, step.event), RefId(step.event.actor, st.nextRef))
  {
    var e := step.event;
    hide MakeCall, MakesOne;
    MakesCall(st, e.client, e.actor, e.body, e.delivered);
  }

  lemma JoinTracked(c: Cluster, cfg: Config, step: Step)
    requires Good(c) && Tracked(c) && Joining(c, step)
    ensures Tracked(AfterJoin(c, cfg, step))
  {
    var e := step.event;
    hide SidesGood, LinksGood, MetGood, FiledGood, NumbersGood, SpawnsGood, CallsGood, RunningGood, HeadGood, Apply;
    JoinsAs(c, cfg, step);
    var c' := AfterJoin(c, cfg, step);
    JoinSides(c, c', e);
    JoinFrames(c, c', e);
    OnMore(c.head, c.joined, c'.joined);
    StepOn(c.head, cfg, step.ord, step.now, e, c'.joined);
    assert RowsJoined(c.head, c'.head, e.agent, e.resume);
    hide On, CallsJoined, FramesJoined, QueuesJoined, CountersJoined;
    forall g, a | HostsActor(c', g, a) && g in c'.joined ensures a in c'.head.actors {
      assert HostsActor(c, g, a);
    }
  }

  lemma OnMore(st: State, known: set<AgentId>, more: set<AgentId>)
    requires On(st, known) && known <= more
    ensures On(st, more)
  {
  }

  /** Tracking survives when the head stays and hosts and frames only go. */
  lemma TrackedLess(c: Cluster, c': Cluster)
    requires Tracked(c) && c'.head == c.head && c'.joined == c.joined
    requires forall g, a :: HostsActor(c', g, a) ==> HostsActor(c, g, a) || a in c.head.actors
    requires forall g, i: nat, a :: SpawnsAt(c', g, i, a) ==> SpawnsAt(c, g, i, a)
    ensures Tracked(c')
  {
    hide On;
  }

  /** A host is new only by the spawn that was on its way. */
  lemma TakeTracked(c: Cluster, g: AgentId, i: nat, written: bool)
    requires Tracked(c) && Open(c, g, i)
    ensures Tracked(TakeFrame(c, g, i, written)) && TakeFrame(c, g, i, written).head == c.head
  {
    hide On, Tracked;
    var c' := TakeFrame(c, g, i, written);
    var msg := c.head.sent[i].msg;
    if msg.Spawn? {
      assert SpawnsAt(c, g, i, msg.actor);
      SpawnKnown(c, g, i, msg.actor);
    }
    TrackedLess(c, c');
  }

  lemma SpawnKnown(c: Cluster, g: AgentId, i: nat, a: ActorId)
    requires Tracked(c) && SpawnsAt(c, g, i, a)
    ensures a in c.head.actors
  {
    hide On;
  }

  /** Moves of an agent alone. */
  lemma SideTracked(c: Cluster, m: Move, cfg: Config)
    requires Tracked(c) && Enabled(c, m) && !m.HeadMove? && !m.Join?
    ensures Tracked(Next(c, cfg, m)) && Next(c, cfg, m).head == c.head
  {
    hide Tracked;
    if m.Take? {
      TakeTracked(c, m.agent, m.i, m.written);
    } else {
      TrackedLess(c, Next(c, cfg, m));
    }
  }

  ghost predicate CarefulRun(cs: seq<Cluster>, ms: seq<Move>) {
    |cs| == |ms| + 1 && forall j :: 0 <= j < |ms| ==> Careful(cs[j], ms[j], cs[j + 1])
  }

  lemma BeginsTracked(c: Cluster)
    requires Begins(c)
    ensures Tracked(c) && Allocated(c.head) && Blank(c.head)
    ensures forall cfg: Config :: NoStall(c.head, cfg)
  {
  }

  /** One move of a tracked cluster. */
  lemma MoveTracked(c: Cluster, cfg: Config, m: Move)
    requires Good(c) && Tracked(c) && Enabled(c, m) && Careful(c, m, Next(c, cfg, m))
    requires Allocated(c.head) && Blank(c.head) && NoStall(c.head, cfg)
    ensures var c' := Next(c, cfg, m); Tracked(c') && Allocated(c'.head) && Blank(c'.head) && NoStall(c'.head, cfg)
  {
    hide Good, Tracked, Allocated, Blank, NoStall, Apply;
    match m
    case HeadMove(step) =>
      HeadTracked(c, cfg, step);
      StepSafe(c.head, cfg, step.ord, step.now, step.event);
    case Join(step) =>
      JoinUndisputed(c, step);
      JoinTracked(c, cfg, step);
      StepSafe(c.head, cfg, step.ord, step.now, step.event);
    case _ =>
      hide Next, Enabled;
      SideTracked(c, m, cfg);
  }

  /** No double allocation over whole runs of a head with its agents, with nothing
      assumed of what the agents bring back: at every point devices are in one pair
      of hands, if agents report each device once and no history sweep drops the row
      of an actor that an agent still hosts or is yet to spawn. */
  lemma {:induction false} ExclusiveWithAgents(cfg: Config, cs: seq<Cluster>, ms: seq<Move>, k: nat)
    requires IsRun(cfg, cs, ms) && CarefulRun(cs, ms) && k <= |ms|
    ensures Allocated(cs[k].head) && NoStall(cs[k].head, cfg)
    ensures Tracked(cs[k]) && Blank(cs[k].head)
    decreases k
  {
    hide Good, Enabled, Next, Begins, Tracked, Allocated, NoStall, Blank, Careful;
    if k == 0 {
      BeginsTracked(cs[0]);
    } else {
      ExclusiveWithAgents(cfg, cs, ms, k - 1);
      EveryRunGood(cfg, cs, ms, k - 1);
      var j := k - 1;
      assert Careful(cs[j], ms[j], cs[j + 1]);
      MoveTracked(cs[j], cfg, ms[j]);
    }
  }
}
