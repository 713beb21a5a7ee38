/** Placement passes: where a pending group may go, placing every pending group
    that can be placed, device exclusivity, and that nothing stalls. */
module Placement {
  import opened Basics
  import Islands
  import opened Topology
  import opened Chains
  import opened Solver
  import opened Claims
  import opened Tables

  // ------------------------------------------------------------ candidates

  /** Placement order of agents: on the driver's node first, then by
      registration. */
  predicate AgentLe(st: State, driver: Option<NodeId>, x: AgentId, y: AgentId) {
    x in st.agents && y in st.agents ==>
      var (dx, dy) := (Some(st.agents[x].node) != driver, Some(st.agents[y].node) != driver);
      (!dx && dy) ||
      (dx == dy && (st.agents[x].seqNo < st.agents[y].seqNo ||
                    (st.agents[x].seqNo == st.agents[y].seqNo && x <= y)))
  }

  /** Nodes a group may be placed on: any, or those of a claim or an island. */
  datatype Scope = Anywhere | Within(nodes: set<NodeId>)

  predicate InScope(st: State, group: Group, scope: Scope, a: AgentId) {
    InGroup(st, group, a) && (scope.Within? ==> st.agents[a].node in scope.nodes)
  }

  function InsertAgent(st: State, driver: Option<NodeId>, x: AgentId, s: seq<AgentId>): seq<AgentId> {
    if s == [] || AgentLe(st, driver, x, s[0]) then [x] + s
    else [s[0]] + InsertAgent(st, driver, x, s[1..])
  }

  /** Agents sorted into placement order. */
  function SortAgents(st: State, driver: Option<NodeId>, s: seq<AgentId>): seq<AgentId> {
    if s == [] then [] else InsertAgent(st, driver, s[0], SortAgents(st, driver, s[1..]))
  }

  lemma {:induction false} InsertAgentKeeps(st: State, driver: Option<NodeId>, x: AgentId, s: seq<AgentId>)
    ensures forall a :: a in InsertAgent(st, driver, x, s) <==> a == x || a in s
    ensures NoDup(s) && x !in s ==> NoDup(InsertAgent(st, driver, x, s))
    decreases |s|
  {
    if s != [] && !AgentLe(st, driver, x, s[0]) {
      InsertAgentKeeps(st, driver, x, s[1..]);
      assert forall a :: a in s <==> a == s[0] || a in s[1..];
      assert NoDup(s) ==> s[0] !in s[1..];
    }
  }

  lemma {:induction false} SortAgentsKeeps(st: State, driver: Option<NodeId>, s: seq<AgentId>)
    ensures forall a :: a in SortAgents(st, driver, s) <==> a in s
    ensures NoDup(s) ==> NoDup(SortAgents(st, driver, s))
    decreases |s|
  {
    if s != [] {
      SortAgentsKeeps(st, driver, s[1..]);
      InsertAgentKeeps(st, driver, s[0], SortAgents(st, driver, s[1..]));
      assert forall a :: a in s <==> a == s[0] || a in s[1..];
      assert NoDup(s) ==> s[0] !in s[1..];
    }
  }

  function Hosts(st: State, group: Group, driver: Option<NodeId>, scope: Scope): seq<AgentId> {
    SortAgents(st, driver, InOrder(set a | a in st.agents && InScope(st, group, scope, a)))
  }

  lemma HostsAre(st: State, group: Group, driver: Option<NodeId>, scope: Scope)
    ensures NoDup(Hosts(st, group, driver, scope))
    ensures forall a :: a in Hosts(st, group, driver, scope) <==> InScope(st, group, scope, a)
  {
    SortAgentsKeeps(st, driver, InOrder(set a | a in st.agents && InScope(st, group, scope, a)));
  }

  ghost predicate InPlacementOrder(st: State, driver: Option<NodeId>, s: seq<AgentId>) {
    forall i, j :: 0 <= i < j < |s| ==> AgentLe(st, driver, s[i], s[j])
  }

  lemma {:induction false} InsertAgentOrdered(st: State, driver: Option<NodeId>, x: AgentId, s: seq<AgentId>)
    requires InPlacementOrder(st, driver, s) && x in st.agents && forall a :: a in s ==> a in st.agents
    ensures InPlacementOrder(st, driver, InsertAgent(st, driver, x, s))
    decreases |s|
  {
    if s != [] {
      if AgentLe(st, driver, x, s[0]) {
        assert forall i :: 0 <= i < |s| ==> s[i] in s && AgentLe(st, driver, x, s[i]);
      } else {
        InsertAgentOrdered(st, driver, x, s[1..]);
        InsertAgentKeeps(st, driver, x, s[1..]);
        var rest := InsertAgent(st, driver, x, s[1..]);
        forall i | 0 <= i < |rest| ensures AgentLe(st, driver, s[0], rest[i]) {
          assert rest[i] in rest && s[0] in s;
        }
      }
    }
  }

  lemma {:induction false} SortAgentsOrdered(st: State, driver: Option<NodeId>, s: seq<AgentId>)
    requires forall a :: a in s ==> a in st.agents
    ensures InPlacementOrder(st, driver, SortAgents(st, driver, s))
    decreases |s|
  {
    if s != [] {
      SortAgentsOrdered(st, driver, s[1..]);
      SortAgentsKeeps(st, driver, s[1..]);
      InsertAgentOrdered(st, driver, s[0], SortAgents(st, driver, s[1..]));
    }
  }

  lemma HostsInOrder(st: State, group: Group, driver: Option<NodeId>, scope: Scope)
    ensures InPlacementOrder(st, driver, Hosts(st, group, driver, scope))
  {
    SortAgentsOrdered(st, driver, InOrder(set a | a in st.agents && InScope(st, group, scope, a)));
  }

  lemma {:induction false} FirstWithIsFirst(ids: seq<AgentId>, free: map<AgentId, seq<nat>>, need: nat, k: nat)
    requires k < |ids| && ids[k] in free && |free[ids[k]]| >= need
    ensures exists j :: 0 <= j <= k && FirstWith(ids, free, need) == Some(ids[j])
    decreases |ids|
  {
    if !(ids[0] in free && |free[ids[0]]| >= need) {
      FirstWithIsFirst(ids[1..], free, need, k - 1);
      var j :| 0 <= j <= k - 1 && FirstWith(ids[1..], free, need) == Some(ids[1..][j]);
      assert ids[1..][j] == ids[j + 1];
    }
  }

  /** Bundle 0 lands on the driver's node when an agent in scope there has room
      for it. */
  lemma FirstOnDriver(st: State, group: Group, bundles: seq<nat>, driver: NodeId, scope: Scope, a: AgentId)
    requires bundles != [] && Fit(st, group, bundles, Some(driver), scope).Some?
    requires InScope(st, group, scope, a) && st.agents[a].node == driver && |Free(st, a)| >= Need(bundles[0])
    ensures var b := Fit(st, group, bundles, Some(driver), scope).value[0];
            b.agent in st.agents && st.agents[b.agent].node == driver
  {
    var ids := Hosts(st, group, Some(driver), scope);
    HostsAre(st, group, Some(driver), scope);
    HostsInOrder(st, group, Some(driver), scope);
    var k :| 0 <= k < |ids| && ids[k] == a;
    FirstWithIsFirst(ids, AllFree(st), Need(bundles[0]), k);
    var j :| 0 <= j <= k && FirstWith(ids, AllFree(st), Need(bundles[0])) == Some(ids[j]);
    assert ids[j] in ids;
    assert j < k ==> AgentLe(st, Some(driver), ids[j], ids[k]);
  }

  function NodeMap(st: State): map<AgentId, NodeId> {
    map a | a in st.agents :: st.agents[a].node
  }

  function Same<T>(k: nat, x: T): (r: seq<T>)
    ensures |r| == k && forall i :: 0 <= i < k ==> r[i] == x
  {
    seq(k, _ => x)
  }

  /** First fit over one scope's agents. */
  ghost function Fit(st: State, group: Group, bundles: seq<nat>, driver: Option<NodeId>, scope: Scope): Option<seq<Bundle>> {
    Draw(AllFree(st), bundles, Same(|bundles|, Hosts(st, group, driver, scope)),
         NodeMap(st), Same(|bundles|, NoEnv))
  }

  // -------------------------------------------------------------- scopes

  function FreeSum(free: map<AgentId, seq<nat>>, ids: seq<AgentId>): nat {
    if ids == [] then 0
    else FreeSum(free, ids[..|ids| - 1]) + if ids[|ids| - 1] in free then |free[ids[|ids| - 1]]| else 0
  }

  function TotalNeed(bundles: seq<nat>): nat {
    if bundles == [] then 0 else TotalNeed(bundles[..|bundles| - 1]) + Need(bundles[|bundles| - 1])
  }

  ghost function FreeIn(st: State, group: Group, nodes: set<NodeId>): nat {
    FreeSum(AllFree(st), Hosts(st, group, None, Within(nodes)))
  }

  function IslandedNodes(islands: seq<Islands.Island>): set<NodeId> {
    set i, n | 0 <= i < |islands| && n in islands[i].nodes :: n
  }

  /** An island of two or more, or a lone node, with its sort key. */
  datatype Ranked = Ranked(away: bool, nodes: seq<NodeId>)

  predicate RankedLe(x: Ranked, y: Ranked) {
    (!x.away && y.away) ||
    (x.away == y.away &&
     (|x.nodes| < |y.nodes| || (|x.nodes| == |y.nodes| && LexLe(x.nodes, y.nodes))))
  }

  lemma RankedOrder()
    ensures TotalOrder(RankedLe)
  {
    forall x: Ranked, y: Ranked ensures RankedLe(x, y) || RankedLe(y, x) {
      LexTotal(x.nodes, y.nodes);
    }
    forall x: Ranked, y: Ranked, z: Ranked | RankedLe(x, y) && RankedLe(y, z)
      ensures RankedLe(x, z)
    {
      if x.away == y.away == z.away && |x.nodes| == |y.nodes| == |z.nodes| {
        LexTransitive(x.nodes, y.nodes, z.nodes);
      }
    }
  }

  predicate AwayFrom(driver: Option<NodeId>, nodes: seq<NodeId>) {
    driver.None? || driver.value !in nodes
  }

  /** The node sets that alone hold enough: islands, then lone nodes. */
  ghost function Sufficient(st: State, group: Group, need: nat, driver: Option<NodeId>, sets: seq<seq<NodeId>>): seq<Ranked> {
    if sets == [] then []
    else
      var n := |sets| - 1;
      Sufficient(st, group, need, driver, sets[..n]) +
      if FreeIn(st, group, SetOf(sets[n])) >= need then [Ranked(AwayFrom(driver, sets[n]), sets[n])] else []
  }

  function LoneNodes(st: State, group: Group): seq<NodeId> {
    InOrder(set a | a in st.agents && InGroup(st, group, a) && st.agents[a].node !in IslandedNodes(st.islands) :: st.agents[a].node)
  }

  function ScopeList(rs: seq<Ranked>): seq<Scope> {
    seq(|rs|, i requires 0 <= i < |rs| => Within(SetOf(rs[i].nodes)))
  }

  function ClaimedNodes(view: Solution): set<NodeId> {
    set name, i | name in view.sets && 0 <= i < |view.sets[name]| :: view.sets[name][i].node
  }

  function ServedNodes(st: State, group: Group): set<NodeId> {
    set a | a in st.agents && InGroup(st, group, a) :: st.agents[a].node
  }

  ghost predicate OptedIn(st: State, cfg: Config, group: Group) {
    cfg.islandPlacement && exists a :: InGroup(st, group, a) && st.agents[a].node in st.tagged
  }

  /** The scopes to try, best first. A claim fixes the nodes. A group of two or
      more bundles whose nodes claim a fabric stays inside one island, the
      driver's first and then the smallest sufficient. Anything else goes
      anywhere. */
  ghost function Scopes(st: State, cfg: Config, group: Group, bundles: seq<nat>, driver: Option<NodeId>,
                        claim: Option<Name>): Result<seq<Scope>> {
    if claim.Some? then
      if (group, claim.value) !in st.claims then Err
      else
        var nodes := ClaimedNodes(st.claims[(group, claim.value)].view);
        if nodes == {} || !(nodes <= ServedNodes(st, group)) then Err else Ok([Within(nodes)])
    else if |bundles| < 2 || !OptedIn(st, cfg, group) then Ok([Anywhere])
    else
      var lone := LoneNodes(st, group);
      var sets := seq(|st.islands|, i requires 0 <= i < |st.islands| => st.islands[i].nodes) +
                  seq(|lone|, i requires 0 <= i < |lone| => [lone[i]]);
      var rs := Sufficient(st, group, TotalNeed(bundles), driver, sets);
      RankedOrder();
      if rs == [] then Err else Ok(ScopeList(Sort(rs, RankedLe)))
  }

  ghost function FitFirst(st: State, group: Group, bundles: seq<nat>, driver: Option<NodeId>, scopes: seq<Scope>): Option<seq<Bundle>> {
    if scopes == [] then None
    else
      var r := Fit(st, group, bundles, driver, scopes[0]);
      if r.Some? then r else FitFirst(st, group, bundles, driver, scopes[1..])
  }

  // ------------------------------------------------------- ordered claims

  function HopOf(p: Option<Path>): Option<Hop> {
    if p.None? then None else Some(Hop(p.value.remote.addr, p.value.local.iface))
  }

  /** The variables that name a rank's neighbours. */
  function EnvOf(layout: Layout, m: Member): RankEnv {
    Neighbours(layout, HopOf(m.prev), HopOf(m.next))
  }

  datatype Ordered = NotOrdered | Refused | InOrderOf(set_: SetReq, ranks: seq<Member>)

  /** The rank order of a claim of one ring or line set, for this driver. */
  function ClaimOrder(st: State, group: Group, claim: Option<Name>, driver: Option<NodeId>): Ordered {
    if claim.None? || (group, claim.value) !in st.claims then NotOrdered
    else
      var c := st.claims[(group, claim.value)];
      if |c.req.sets| != 1 || c.req.sets[0].layout == Mesh || c.req.sets[0].name !in c.view.sets then NotOrdered
      else
        var s := c.req.sets[0];
        var r := Ranks(s.layout, c.view.sets[s.name], driver);
        if r.Err? then Refused else InOrderOf(s, r.value)
  }

  /** Bundle `i` on the `i`-th rank's node, on the first agent there with room. */
  ghost function FitRanks(st: State, group: Group, bundles: seq<nat>, layout: Layout, ranks: seq<Member>): Option<seq<Bundle>> {
    if |bundles| != |ranks| then None
    else
      Draw(AllFree(st), bundles,
           seq(|ranks|, i requires 0 <= i < |ranks| => Hosts(st, group, None, Within({ranks[i].node}))),
           NodeMap(st),
           seq(|ranks|, i requires 0 <= i < |ranks| => EnvOf(layout, ranks[i])))
  }

  // ------------------------------------------------------------ one pass

  function DriverNode(st: State, owner: ClientId): Option<NodeId> {
    if owner in st.clients then Some(st.clients[owner].node) else None
  }

  /** Where a pending group goes now, or None. */
  ghost function PlaceFor(st: State, cfg: Config, pg: Pg): Option<seq<Bundle>> {
    var driver := DriverNode(st, pg.owner);
    var ordered := ClaimOrder(st, pg.group, pg.claim, driver);
    match ordered
    case Refused => None
    case InOrderOf(s, ranks) => FitRanks(st, pg.group, pg.bundles, s.layout, ranks)
    case NotOrdered =>
      var scopes := Scopes(st, cfg, pg.group, pg.bundles, driver, pg.claim);
      if scopes.Err? then None else FitFirst(st, pg.group, pg.bundles, driver, scopes.value)
  }

  function Somes(bs: seq<Bundle>): (r: seq<Option<Bundle>>)
    ensures |r| == |bs| && forall i :: 0 <= i < |bs| ==> r[i] == Some(bs[i])
  {
    seq(|bs|, i requires 0 <= i < |bs| => Some(bs[i]))
  }

  ghost function PlaceOne(st: State, cfg: Config, id: PgId): State {
    if id !in st.pgs || st.pgs[id].state != Pending then st
    else
      var bs := PlaceFor(st, cfg, st.pgs[id]);
      if bs.None? then st
      else st.(pgs := st.pgs[id := st.pgs[id].(assignment := Somes(bs.value), state := Created)])
  }

  ghost function PlaceAll(st: State, cfg: Config, ids: seq<PgId>): State
    decreases |ids|
  {
    if ids == [] then st else PlaceAll(PlaceOne(st, cfg, ids[0]), cfg, ids[1..])
  }

  /** Place every pending group that can be placed, in the map's order. */
  ghost function TryPlace(st: State, cfg: Config, ord: Order): State {
    PlaceAll(st, cfg, ord(st.pgs.Keys))
  }

  // ---------------------------------------------------- what placement draws

  /** The devices a placement takes are an agent's, free, of the right number, and
      no two bundles share one. */
  ghost predicate Takes(st: State, bundles: seq<nat>, bs: seq<Bundle>) {
    |bs| == |bundles| &&
    (forall i :: 0 <= i < |bs| ==>
       |bs[i].gpuIds| == Need(bundles[i]) && NoDup(bs[i].gpuIds) && bs[i].agent in st.agents &&
       forall g :: g in bs[i].gpuIds ==> g in st.agents[bs[i].agent].gpus && !Held(st, bs[i].agent, g)) &&
    (forall i, j, g :: 0 <= i < j < |bs| && bs[i].agent == bs[j].agent && g in bs[i].gpuIds ==> g !in bs[j].gpuIds)
  }

  lemma DrawTakes(st: State, bundles: seq<nat>, hosts: seq<seq<AgentId>>, envs: seq<RankEnv>)
    requires DistinctGpus(st) && |hosts| == |envs| == |bundles|
    ensures var r := Draw(AllFree(st), bundles, hosts, NodeMap(st), envs); r.Some? ==> Takes(st, bundles, r.value)
  {
    DrawIsDrawn(AllFree(st), bundles, hosts, NodeMap(st), envs);
  }

  lemma {:induction false} FitFirstTakes(st: State, group: Group, bundles: seq<nat>, driver: Option<NodeId>, scopes: seq<Scope>)
    requires DistinctGpus(st)
    ensures var r := FitFirst(st, group, bundles, driver, scopes); r.Some? ==> Takes(st, bundles, r.value)
    decreases |scopes|
  {
    if scopes != [] {
      DrawTakes(st, bundles, Same(|bundles|, Hosts(st, group, driver, scopes[0])), Same(|bundles|, NoEnv));
      FitFirstTakes(st, group, bundles, driver, scopes[1..]);
    }
  }

  lemma PlaceTakes(st: State, cfg: Config, pg: Pg)
    requires DistinctGpus(st)
    ensures PlaceFor(st, cfg, pg).Some? ==> Takes(st, pg.bundles, PlaceFor(st, cfg, pg).value)
  {
    var driver := DriverNode(st, pg.owner);
    match ClaimOrder(st, pg.group, pg.claim, driver)
    case Refused =>
    case InOrderOf(s, ranks) =>
      if |pg.bundles| == |ranks| {
        DrawTakes(st, pg.bundles,
                  seq(|ranks|, i requires 0 <= i < |ranks| => Hosts(st, pg.group, None, Within({ranks[i].node}))),
                  seq(|ranks|, i requires 0 <= i < |ranks| => EnvOf(s.layout, ranks[i])));
      }
    case NotOrdered =>
      var scopes := Scopes(st, cfg, pg.group, pg.bundles, driver, pg.claim);
      if scopes.Ok? {
        FitFirstTakes(st, pg.group, pg.bundles, driver, scopes.value);
      }
  }

  // ------------------------------------------------------ no double allocation

  /** No device is reserved by two bundles, of one group or of two, and a live
      actor's devices overlap no group but the one it was created in. */
  ghost predicate Exclusive(st: State) {
    (forall p, i, q, j, agent, g ::
       BundleHolds(st, p, i, agent, g) && BundleHolds(st, q, j, agent, g) ==> p == q && i == j) &&
    (forall a, p: PgId, i: nat, agent, g ::
       ActorHolds(st, a, agent, g) && BundleHolds(st, p, i, agent, g) ==> st.actors[a].madeIn == Some(p))
  }

  /** A pending group holds nothing, and a created one holds all it asked for. */
  ghost predicate PgShaped(pg: Pg) {
    (pg.state.Pending? ==> forall i :: 0 <= i < |pg.assignment| ==> pg.assignment[i].None?) &&
    (pg.state.Created? ==>
       |pg.assignment| == |pg.bundles| &&
       forall i :: 0 <= i < |pg.assignment| ==>
         pg.assignment[i].Some? && NoDup(pg.assignment[i].value.gpuIds) &&
         |pg.assignment[i].value.gpuIds| == Need(pg.bundles[i]))
  }

  ghost predicate Shaped(st: State) {
    forall p :: p in st.pgs ==> PgShaped(st.pgs[p])
  }

  /** A pending group holds nothing. */
  ghost predicate Blank(st: State) {
    forall p, i :: p in st.pgs && st.pgs[p].state == Pending && 0 <= i < |st.pgs[p].assignment| ==>
                     st.pgs[p].assignment[i].None?
  }

  ghost predicate Allocated(st: State) {
    Exclusive(st) && Shaped(st) && DistinctGpus(st)
  }

  /** Giving a pending group free devices keeps every device in one pair of
      hands. */
  lemma GrantKeeps(st: State, id: PgId, bs: seq<Bundle>)
    requires Allocated(st) && id in st.pgs && st.pgs[id].state == Pending && Takes(st, st.pgs[id].bundles, bs)
    ensures Allocated(st.(pgs := st.pgs[id := st.pgs[id].(assignment := Somes(bs), state := Created)]))
  {
    var st' := st.(pgs := st.pgs[id := st.pgs[id].(assignment := Somes(bs), state := Created)]);
    forall p, i: nat, agent, g | BundleHolds(st', p, i, agent, g)
      ensures p != id ==> BundleHolds(st, p, i, agent, g)
      ensures p == id ==> i < |bs| && bs[i].agent == agent && g in bs[i].gpuIds && !Held(st, agent, g)
    {
    }
    forall p, i, q, j, agent, g | BundleHolds(st', p, i, agent, g) && BundleHolds(st', q, j, agent, g)
      ensures p == q && i == j
    {
      if p != id && q != id {
        assert BundleHolds(st, p, i, agent, g) && BundleHolds(st, q, j, agent, g);
      }
    }
    forall a, p: PgId, i: nat, agent, g | ActorHolds(st', a, agent, g) && BundleHolds(st', p, i, agent, g)
      ensures st'.actors[a].madeIn == Some(p)
    {
      assert ActorHolds(st, a, agent, g);
    }
  }

  lemma PlaceOneKeeps(st: State, cfg: Config, id: PgId)
    requires Allocated(st)
    ensures Allocated(PlaceOne(st, cfg, id))
  {
    hide Takes;
    hide PlaceFor;
    if id in st.pgs && st.pgs[id].state == Pending {
      PlaceTakes(st, cfg, st.pgs[id]);
      if PlaceFor(st, cfg, st.pgs[id]).Some? {
        GrantKeeps(st, id, PlaceFor(st, cfg, st.pgs[id]).value);
      }
    }
  }

  lemma {:induction false} PlaceAllKeeps(st: State, cfg: Config, ids: seq<PgId>)
    requires Allocated(st)
    ensures Allocated(PlaceAll(st, cfg, ids))
    decreases |ids|
  {
    hide PlaceOne;
    hide Allocated;
    if ids != [] {
      PlaceOneKeeps(st, cfg, ids[0]);
      PlaceAllKeeps(PlaceOne(st, cfg, ids[0]), cfg, ids[1..]);
    }
  }

  // -------------------------------------------------------------- no stall

  /** The groups the no-stall promise covers: pending, outside any claim, of
      equal bundles, and not confined to an island. */
  ghost predicate Waits(st: State, cfg: Config, id: PgId) {
    id in st.pgs && st.pgs[id].state == Pending && st.pgs[id].claim.None? &&
    AllEqual(st.pgs[id].bundles) && (|st.pgs[id].bundles| < 2 || !cfg.islandPlacement)
  }

  ghost predicate NoStall(st: State, cfg: Config) {
    forall id :: Waits(st, cfg, id) ==> !Fits(st, st.pgs[id].group, st.pgs[id].bundles)
  }

  lemma {:induction false} FreeShrinks(st: State, st': State, agent: AgentId, gpus: seq<nat>)
    requires forall g :: Held(st, agent, g) ==> Held(st', agent, g)
    ensures |FilterFree(st', agent, gpus)| <= |FilterFree(st, agent, gpus)|
    decreases |gpus|
  {
    hide Held;
    if gpus != [] {
      FreeShrinks(st, st', agent, gpus[..|gpus| - 1]);
    }
  }

  lemma {:induction false} LoadElsewhere(bundles: seq<nat>, host: seq<AgentId>, a: AgentId)
    requires |host| == |bundles| && a !in host
    ensures Load(bundles, host, a) == 0
    decreases |host|
  {
    if host != [] {
      LoadElsewhere(bundles[..|host| - 1], host[..|host| - 1], a);
    }
  }

  /** Live agents of a group are no more than before and hold no more free. */
  ghost predicate NoMoreFree(st: State, st': State) {
    forall group, a :: InGroup(st', group, a) ==> InGroup(st, group, a) && |Free(st', a)| <= |Free(st, a)|
  }

  /** What did not fit does not fit when less is free. */
  lemma FitsLess(st: State, st': State, group: Group, bundles: seq<nat>)
    requires NoMoreFree(st, st') && Fits(st', group, bundles)
    ensures Fits(st, group, bundles)
  {
    var host :| HostsFit(st', group, bundles, host);
    forall a | a in st.agents ensures Load(bundles, host, a) <= |Free(st, a)| {
      if a in host {
        var i :| 0 <= i < |host| && host[i] == a;
        assert InGroup(st', group, a);
      } else {
        LoadElsewhere(bundles, host, a);
      }
    }
    forall i | 0 <= i < |host| ensures InGroup(st, group, host[i]) {
      assert InGroup(st', group, host[i]);
    }
    assert HostsFit(st, group, bundles, host);
  }

  /** A step that frees nothing and adds no pending group stalls nothing. */
  lemma NoStallCarries(st: State, st': State, cfg: Config)
    requires NoStall(st, cfg) && NoMoreFree(st, st')
    requires forall id :: id in st'.pgs && st'.pgs[id].state == Pending ==> id in st.pgs && st.pgs[id] == st'.pgs[id]
    ensures NoStall(st', cfg)
  {
    forall id | Waits(st', cfg, id) ensures !Fits(st', st'.pgs[id].group, st'.pgs[id].bundles) {
      assert Waits(st, cfg, id);
      if Fits(st', st'.pgs[id].group, st'.pgs[id].bundles) {
        FitsLess(st, st', st'.pgs[id].group, st'.pgs[id].bundles);
      }
    }
  }

  /** A waiting group that a pass does not place does not fit. */
  lemma NotPlacedNotFits(st: State, cfg: Config, id: PgId)
    requires Waits(st, cfg, id) && PlaceFor(st, cfg, st.pgs[id]).None?
    ensures !Fits(st, st.pgs[id].group, st.pgs[id].bundles)
  {
    var pg := st.pgs[id];
    var driver := DriverNode(st, pg.owner);
    var ids := Hosts(st, pg.group, driver, Anywhere);
    HostsAre(st, pg.group, driver, Anywhere);
    assert ClaimOrder(st, pg.group, pg.claim, driver) == NotOrdered;
    assert Scopes(st, cfg, pg.group, pg.bundles, driver, pg.claim) == Ok([Anywhere]);
    assert Fit(st, pg.group, pg.bundles, driver, Anywhere).None?;
    FirstFitComplete(st, pg.group, pg.bundles, ids, Same(|pg.bundles|, ids), NodeMap(st), Same(|pg.bundles|, NoEnv));
  }

  /** Placing one group leaves no more free and changes no other group. */
  lemma PlaceOneTightens(st: State, cfg: Config, id: PgId)
    requires Blank(st)
    ensures NoMoreFree(st, PlaceOne(st, cfg, id)) && Blank(PlaceOne(st, cfg, id))
    ensures var st' := PlaceOne(st, cfg, id);
            st' == st.(pgs := st'.pgs) && st'.pgs.Keys == st.pgs.Keys &&
            (forall p :: p in st.pgs && p != id ==> st'.pgs[p] == st.pgs[p]) &&
            (id in st.pgs && st'.pgs[id] != st.pgs[id] ==> st.pgs[id].state == Pending && st'.pgs[id].state == Created)
  {
    hide PlaceFor;
    var st' := PlaceOne(st, cfg, id);
    forall group, a | InGroup(st', group, a)
      ensures InGroup(st, group, a) && |Free(st', a)| <= |Free(st, a)|
    {
      forall g | Held(st, a, g) ensures Held(st', a, g) {
        PlaceOneHolds(st, cfg, id, a, g);
      }
      FreeShrinks(st, st', a, st.agents[a].gpus);
    }
  }

  lemma PlaceOneHolds(st: State, cfg: Config, id: PgId, a: AgentId, g: nat)
    requires Blank(st) && Held(st, a, g)
    ensures Held(PlaceOne(st, cfg, id), a, g)
  {
    hide PlaceFor;
    var st' := PlaceOne(st, cfg, id);
    if p, i :| BundleHolds(st, p, i, a, g) {
      assert p != id || st' == st;
      assert BundleHolds(st', p, i, a, g);
    } else {
      var x :| ActorHolds(st, x, a, g);
      assert ActorHolds(st', x, a, g);
    }
  }

  /** Every waiting group among `ids` is settled. */
  ghost predicate NoStallOn(st: State, cfg: Config, ids: set<PgId>) {
    forall id :: id in ids && Waits(st, cfg, id) ==> !Fits(st, st.pgs[id].group, st.pgs[id].bundles)
  }

  lemma NoStallOnStep(st: State, cfg: Config, ids: set<PgId>, id: PgId)
    requires NoStallOn(st, cfg, ids) && Blank(st)
    ensures NoStallOn(PlaceOne(st, cfg, id), cfg, ids + {id})
  {
    hide PlaceFor;
    var st' := PlaceOne(st, cfg, id);
    PlaceOneTightens(st, cfg, id);
    forall x | x in ids + {id} && Waits(st', cfg, x)
      ensures !Fits(st', st'.pgs[x].group, st'.pgs[x].bundles)
    {
      assert st'.pgs[x] == st.pgs[x] && Waits(st, cfg, x);
      if x == id {
        NotPlacedNotFits(st, cfg, id);
      }
      if Fits(st', st'.pgs[x].group, st'.pgs[x].bundles) {
        FitsLess(st, st', st'.pgs[x].group, st'.pgs[x].bundles);
      }
    }
  }

  lemma {:induction false} PlaceAllSettles(st: State, cfg: Config, ids: seq<PgId>, done: set<PgId>)
    requires NoStallOn(st, cfg, done) && Blank(st)
    ensures NoStallOn(PlaceAll(st, cfg, ids), cfg, done + SetOf(ids))
    decreases |ids|
  {
    hide PlaceOne;
    hide NoStallOn;
    hide Blank;
    if ids == [] {
      assert done + SetOf(ids) == done;
    } else {
      PlaceOneTightens(st, cfg, ids[0]);
      NoStallOnStep(st, cfg, done, ids[0]);
      PlaceAllSettles(PlaceOne(st, cfg, ids[0]), cfg, ids[1..], done + {ids[0]});
      assert done + SetOf(ids) == done + {ids[0]} + SetOf(ids[1..]);
    }
  }

  lemma {:induction false} PlaceAllFrame(st: State, cfg: Config, ids: seq<PgId>)
    requires Blank(st)
    ensures Blank(PlaceAll(st, cfg, ids))
    ensures var st' := PlaceAll(st, cfg, ids);
            st' == st.(pgs := st'.pgs) && st'.pgs.Keys == st.pgs.Keys &&
            forall p :: p in st.pgs && st'.pgs[p] != st.pgs[p] ==>
              st.pgs[p].state == Pending && st'.pgs[p].state == Created
    decreases |ids|
  {
    hide PlaceOne;
    hide Blank;
    if ids != [] {
      PlaceOneTightens(st, cfg, ids[0]);
      PlaceAllFrame(PlaceOne(st, cfg, ids[0]), cfg, ids[1..]);
    }
  }

  /** A pass leaves no waiting group that fits, whatever it started from and in
      whatever order the map is walked, and keeps devices in one pair of hands. */
  lemma TryPlaceSettles(st: State, cfg: Config, ord: Order)
    requires Blank(st) && IsOrder(ord)
    ensures NoStall(TryPlace(st, cfg, ord), cfg) && Blank(TryPlace(st, cfg, ord))
    ensures Allocated(st) ==> Allocated(TryPlace(st, cfg, ord))
    ensures var st' := TryPlace(st, cfg, ord);
            st' == st.(pgs := st'.pgs) && st'.pgs.Keys == st.pgs.Keys &&
            forall p :: p in st.pgs && st'.pgs[p] != st.pgs[p] ==>
              st.pgs[p].state == Pending && st'.pgs[p].state == Created
  {
    hide PlaceAll;
    hide Blank;
    hide Allocated;
    var ids := ord(st.pgs.Keys);
    if Allocated(st) { PlaceAllKeeps(st, cfg, ids); }
    PlaceAllSettles(st, cfg, ids, {});
    PlaceAllFrame(st, cfg, ids);
    assert SetOf(ids) == st.pgs.Keys;
    var st' := TryPlace(st, cfg, ord);
    forall id | Waits(st', cfg, id) ensures !Fits(st', st'.pgs[id].group, st'.pgs[id].bundles) {
      assert id in {} + SetOf(ids);
    }
  }

  // ---------------------------------------- where a claimed group is placed

  /** The variable naming a neighbour gives the far end of the best unforwarded
      link to it, and is absent exactly when there is no neighbour. */
  ghost predicate HopTo(t: Net, link: Link, from: NodeId, to: Option<NodeId>, h: Option<Hop>) {
    if to.None? then h.None?
    else exists p :: IsPath(t, from, to.value, link, true, p) &&
                     BestPath(t, from, to.value, link, true) == Some(p) && h == HopOf(Some(p))
  }

  function NodeOf(bs: seq<Bundle>, i: Option<nat>): Option<NodeId>
    requires i.Some? ==> i.value < |bs|
  {
    if i.None? then None else Some(bs[i.value].node)
  }

  /** Rank `i`'s variables lead to the ranks before and after it. */
  ghost predicate NamesNeighbours(t: Net, s: SetReq, bs: seq<Bundle>, i: nat)
    requires i < |bs|
  {
    bs[i].env.Neighbours? && bs[i].env.layout == s.layout &&
    HopTo(t, s.link, bs[i].node, NodeOf(bs, PrevOf(s.layout, |bs|, i)), bs[i].env.prev) &&
    HopTo(t, s.link, bs[i].node, NodeOf(bs, NextOf(s.layout, |bs|, i)), bs[i].env.next)
  }

  lemma {:induction false} DrawLabels(free: map<AgentId, seq<nat>>, bundles: seq<nat>, hosts: seq<seq<AgentId>>,
                                      nodes: map<AgentId, NodeId>, envs: seq<RankEnv>, i: nat)
    requires |hosts| == |envs| == |bundles| && Draw(free, bundles, hosts, nodes, envs).Some? && i < |bundles|
    ensures var b := Draw(free, bundles, hosts, nodes, envs).value[i];
            b.agent in hosts[i] && b.env == envs[i] && (b.agent in nodes ==> b.node == nodes[b.agent])
    decreases |bundles|
  {
    var need := Need(bundles[0]);
    var a := FirstWith(hosts[0], free, need).value;
    if i > 0 {
      DrawLabels(free[a := free[a][need..]], bundles[1..], hosts[1..], nodes, envs[1..], i - 1);
    }
  }

  /** Bundle `i` of an ordered placement goes to rank `i`'s node. */
  lemma RanksGetBundles(st: State, group: Group, bundles: seq<nat>, layout: Layout, ranks: seq<Member>, i: nat)
    requires FitRanks(st, group, bundles, layout, ranks).Some? && i < |ranks|
    ensures |FitRanks(st, group, bundles, layout, ranks).value| == |ranks|
    ensures var b := FitRanks(st, group, bundles, layout, ranks).value[i];
            InGroup(st, group, b.agent) && st.agents[b.agent].node == ranks[i].node &&
            b.node == ranks[i].node && b.env == EnvOf(layout, ranks[i])
  {
    var hosts := seq(|ranks|, i requires 0 <= i < |ranks| => Hosts(st, group, None, Within({ranks[i].node})));
    var envs := seq(|ranks|, i requires 0 <= i < |ranks| => EnvOf(layout, ranks[i]));
    DrawLabels(AllFree(st), bundles, hosts, NodeMap(st), envs, i);
    HostsAre(st, group, None, Within({ranks[i].node}));
  }

  /** A claim held here whose view is what `solve` answered over `t`. */
  ghost predicate SolvedOver(st: State, t: Net, key: (Group, Name)) {
    key in st.claims && IslandsDistinct(t) && Solve(t, st.claims[key].req) == Ok(st.claims[key].view)
  }

  /** A ring or line claim of one set. */
  predicate OrderedReq(req: Request) {
    |req.sets| == 1 && req.sets[0].layout != Mesh
  }

  lemma LinkNamesHop(t: Net, s: SetReq, rs: seq<Member>, bs: seq<Bundle>, i: nat, j: Option<nat>, p: Option<Path>)
    requires |rs| == |bs| && i < |rs| && (j.Some? ==> j.value < |rs|)
    requires forall k :: 0 <= k < |bs| ==> bs[k].node == rs[k].node
    requires LinkTo(t, s, rs, i, j, p)
    ensures HopTo(t, s.link, bs[i].node, NodeOf(bs, j), HopOf(p))
  {
    if j.Some? {
      BestPathIsBest(t, rs[i].node, rs[j.value].node, s.link, true);
      assert IsPath(t, bs[i].node, bs[j.value].node, s.link, true, p.value);
    }
  }

  /** Ordered placement end to end. A group placed under a solved ring or line
      claim has its bundles on the solved order turned or reversed, bundle `i`
      on the `i`-th rank, on an agent of its own group. Rank 0 is on the
      driver's node when the claim holds it. Each rank's variables give the
      best unforwarded link to the rank after it and to the rank before it. */
  lemma OrderedPlacement(st: State, cfg: Config, pg: Pg, t: Net)
    requires pg.claim.Some? && SolvedOver(st, t, (pg.group, pg.claim.value))
    requires OrderedReq(st.claims[(pg.group, pg.claim.value)].req)
    requires PlaceFor(st, cfg, pg).Some?
    ensures var c := st.claims[(pg.group, pg.claim.value)]; var s := c.req.sets[0];
            var bs := PlaceFor(st, cfg, pg).value; var driver := DriverNode(st, pg.owner);
            s.name in c.view.sets && GoodSet(t, s, c.view.sets[s.name]) &&
            var ms := c.view.sets[s.name];
            Ranks(s.layout, ms, driver).Ok? &&
            var rs := Ranks(s.layout, ms, driver).value;
            |bs| == |rs| == |ms| == |s.bundles| &&
            (forall i :: 0 <= i < |bs| ==>
               bs[i].node == rs[i].node && InGroup(st, pg.group, bs[i].agent) &&
               st.agents[bs[i].agent].node == rs[i].node && NamesNeighbours(t, s, bs, i)) &&
            ((exists i :: 0 <= i < |ms| && Some(ms[i].node) == driver) ==> Some(bs[0].node) == driver)
  {
    hide GoodSet, PlaceFor, FitRanks, Ranks, BestPath, NamesNeighbours, RankLinked, Solve;
    var c := st.claims[(pg.group, pg.claim.value)];
    var s := c.req.sets[0];
    SolutionIsSound(t, c.req);
    assert GoodSet(t, s, c.view.sets[s.name]);
    var ms := c.view.sets[s.name];
    var driver := DriverNode(st, pg.owner);
    PlacedInOrder(st, cfg, pg);
    var rs := Ranks(s.layout, ms, driver).value;
    var bs := PlaceFor(st, cfg, pg).value;
    SetIsWired(t, s, ms);
    RanksKeepNeighbours(t, s, ms, driver);
    RankZeroOnDriver(t, s, ms, driver);
    RankCount(st, pg.group, pg.bundles, s.layout, rs);
    forall i | 0 <= i < |rs|
      ensures |bs| == |rs| && bs[i].node == rs[i].node && InGroup(st, pg.group, bs[i].agent)
      ensures st.agents[bs[i].agent].node == rs[i].node && bs[i].env == EnvOf(s.layout, rs[i])
    {
      RanksGetBundles(st, pg.group, pg.bundles, s.layout, rs, i);
    }
    SizeOfSet(t, s, ms);
    forall i | 0 <= i < |rs| ensures NamesNeighbours(t, s, bs, i) {
      RankNamesNeighbours(t, s, rs, bs, i);
    }
  }

  lemma SetIsWired(t: Net, s: SetReq, ms: seq<Member>)
    requires GoodSet(t, s, ms)
    ensures Wired(t, s, ms)
  {
  }

  lemma SizeOfSet(t: Net, s: SetReq, ms: seq<Member>)
    requires GoodSet(t, s, ms)
    ensures |ms| == |s.bundles|
  {
  }

  lemma RankCount(st: State, group: Group, bundles: seq<nat>, layout: Layout, ranks: seq<Member>)
    ensures var r := FitRanks(st, group, bundles, layout, ranks); r.Some? ==> |r.value| == |ranks|
  {
  }

  lemma PlacedInOrder(st: State, cfg: Config, pg: Pg)
    requires pg.claim.Some? && (pg.group, pg.claim.value) in st.claims
    requires var c := st.claims[(pg.group, pg.claim.value)];
             OrderedReq(c.req) && c.req.sets[0].name in c.view.sets
    requires PlaceFor(st, cfg, pg).Some?
    ensures var c := st.claims[(pg.group, pg.claim.value)]; var s := c.req.sets[0];
            var r := Ranks(s.layout, c.view.sets[s.name], DriverNode(st, pg.owner));
            r.Ok? && PlaceFor(st, cfg, pg) == FitRanks(st, pg.group, pg.bundles, s.layout, r.value)
  {
  }

  lemma RankNamesNeighbours(t: Net, s: SetReq, rs: seq<Member>, bs: seq<Bundle>, i: nat)
    requires |rs| == |bs| && i < |rs| && RankLinked(t, s, rs, i)
    requires forall k :: 0 <= k < |bs| ==> bs[k].node == rs[k].node
    requires bs[i].env == EnvOf(s.layout, rs[i])
    ensures NamesNeighbours(t, s, bs, i)
  {
    LinkNamesHop(t, s, rs, bs, i, PrevOf(s.layout, |rs|, i), rs[i].prev);
    LinkNamesHop(t, s, rs, bs, i, NextOf(s.layout, |rs|, i), rs[i].next);
  }

  lemma OneScope(st: State, group: Group, bundles: seq<nat>, driver: Option<NodeId>, scopes: seq<Scope>)
    requires |scopes| == 1
    ensures FitFirst(st, group, bundles, driver, scopes) == Fit(st, group, bundles, driver, scopes[0])
  {
    hide Fit;
    assert scopes[1..] == [];
    assert FitFirst(st, group, bundles, driver, scopes[1..]) == None;
  }

  /** A group under a claim is placed on the claim's own nodes and nowhere
      else, whatever the claim's shape. */
  lemma ClaimFence(st: State, cfg: Config, pg: Pg, i: nat)
    requires pg.claim.Some? && PlaceFor(st, cfg, pg).Some? && i < |PlaceFor(st, cfg, pg).value|
    ensures (pg.group, pg.claim.value) in st.claims
    ensures PlaceFor(st, cfg, pg).value[i].node in ClaimedNodes(st.claims[(pg.group, pg.claim.value)].view)
  {
    var driver := DriverNode(st, pg.owner);
    match ClaimOrder(st, pg.group, pg.claim, driver)
    case InOrderOf(s, ranks) =>
      RanksGetBundles(st, pg.group, pg.bundles, s.layout, ranks, i);
      var view := st.claims[(pg.group, pg.claim.value)].view;
      RanksStayInside(s.layout, view.sets[s.name], driver, i);
      var k :| 0 <= k < |view.sets[s.name]| && view.sets[s.name][k].node == ranks[i].node;
      assert view.sets[s.name][k].node in ClaimedNodes(view);
    case NotOrdered =>
      var scopes := Scopes(st, cfg, pg.group, pg.bundles, driver, pg.claim).value;
      var scope := scopes[0];
      OneScope(st, pg.group, pg.bundles, driver, scopes);
      var hosts := Same(|pg.bundles|, Hosts(st, pg.group, driver, scope));
      assert PlaceFor(st, cfg, pg) == Fit(st, pg.group, pg.bundles, driver, scope);
      DrawLabels(AllFree(st), pg.bundles, hosts, NodeMap(st), Same(|pg.bundles|, NoEnv), i);
      HostsAre(st, pg.group, driver, scope);
  }

  lemma RanksStayInside(layout: Layout, ms: seq<Member>, driver: Option<NodeId>, i: nat)
    requires Ranks(layout, ms, driver).Ok? && i < |Ranks(layout, ms, driver).value|
    ensures exists k :: 0 <= k < |ms| && ms[k].node == Ranks(layout, ms, driver).value[i].node
  {
    var rs := Ranks(layout, ms, driver).value;
    var at := Position(ms, driver);
    if layout == Line && at.Some? && at.value > 0 {
      assert ms[|ms| - 1 - i].node == rs[i].node;
    } else if layout == Ring && at.Some? {
      var j := if i + at.value < |ms| then i + at.value else i + at.value - |ms|;
      assert ms[j].node == rs[i].node;
    } else {
      assert ms[i].node == rs[i].node;
    }
  }

  // ------------------------------------- where a group on a fabric is placed

  /** The nodes of one island, or one node on no island. */
  ghost predicate OneFabric(st: State, group: Group, nodes: seq<NodeId>) {
    (exists i :: 0 <= i < |st.islands| && st.islands[i].nodes == nodes) ||
    (|nodes| == 1 && nodes[0] in LoneNodes(st, group))
  }

  lemma {:induction false} SufficientAre(st: State, group: Group, need: nat, driver: Option<NodeId>, sets: seq<seq<NodeId>>)
    ensures forall r :: r in Sufficient(st, group, need, driver, sets) ==>
              r.nodes in sets && FreeIn(st, group, SetOf(r.nodes)) >= need && r.away == AwayFrom(driver, r.nodes)
    decreases |sets|
  {
    if sets != [] {
      SufficientAre(st, group, need, driver, sets[..|sets| - 1]);
    }
  }

  lemma {:induction false} FitFirstChooses(st: State, group: Group, bundles: seq<nat>, driver: Option<NodeId>, scopes: seq<Scope>)
    requires FitFirst(st, group, bundles, driver, scopes).Some?
    ensures exists k :: 0 <= k < |scopes| &&
              FitFirst(st, group, bundles, driver, scopes) == Fit(st, group, bundles, driver, scopes[k]) &&
              forall j :: 0 <= j < k ==> Fit(st, group, bundles, driver, scopes[j]).None?
    decreases |scopes|
  {
    hide Fit;
    if Fit(st, group, bundles, driver, scopes[0]).Some? {
      assert FitFirst(st, group, bundles, driver, scopes) == Fit(st, group, bundles, driver, scopes[0]);
    } else {
      FitFirstChooses(st, group, bundles, driver, scopes[1..]);
      var k :| 0 <= k < |scopes[1..]| &&
               FitFirst(st, group, bundles, driver, scopes[1..]) == Fit(st, group, bundles, driver, scopes[1..][k]) &&
               forall j :: 0 <= j < k ==> Fit(st, group, bundles, driver, scopes[1..][j]).None?;
      assert scopes[1..][k] == scopes[k + 1];
      forall j | 0 <= j < k + 1 ensures Fit(st, group, bundles, driver, scopes[j]).None? {
        if j > 0 { assert scopes[j] == scopes[1..][j - 1]; }
      }
    }
  }

  /** The node sets a fabric group may go to: islands, then lone nodes. */
  ghost function FabricSets(st: State, group: Group): seq<seq<NodeId>> {
    var lone := LoneNodes(st, group);
    seq(|st.islands|, i requires 0 <= i < |st.islands| => st.islands[i].nodes) +
    seq(|lone|, i requires 0 <= i < |lone| => [lone[i]])
  }

  lemma FabricSetsAre(st: State, group: Group, nodes: seq<NodeId>)
    requires nodes in FabricSets(st, group)
    ensures OneFabric(st, group, nodes)
  {
    hide LoneNodes;
    var k :| 0 <= k < |FabricSets(st, group)| && FabricSets(st, group)[k] == nodes;
    if k < |st.islands| {
      assert st.islands[k].nodes == nodes;
    } else {
      assert nodes == [LoneNodes(st, group)[k - |st.islands|]];
    }
  }

  /** The scopes of a fabric group are the sufficient ones, the driver's first,
      then the smallest. */
  lemma ScopesBestFirst(st: State, cfg: Config, group: Group, bundles: seq<nat>, driver: Option<NodeId>)
    requires |bundles| >= 2 && OptedIn(st, cfg, group) && Scopes(st, cfg, group, bundles, driver, None).Ok?
    ensures exists rs: seq<Ranked> ::
              Scopes(st, cfg, group, bundles, driver, None) == Ok(ScopeList(rs)) && Sorted(rs, RankedLe) &&
              forall r :: r in rs <==> r in Sufficient(st, group, TotalNeed(bundles), driver, FabricSets(st, group))
  {
    RankedOrder();
    var rs := Sort(Sufficient(st, group, TotalNeed(bundles), driver, FabricSets(st, group)), RankedLe);
    assert Scopes(st, cfg, group, bundles, driver, None) == Ok(ScopeList(rs));
  }

  lemma FabricPlace(st: State, cfg: Config, pg: Pg)
    requires pg.claim.None? && PlaceFor(st, cfg, pg).Some?
    ensures var r := Scopes(st, cfg, pg.group, pg.bundles, DriverNode(st, pg.owner), None);
            r.Ok? && PlaceFor(st, cfg, pg) == FitFirst(st, pg.group, pg.bundles, DriverNode(st, pg.owner), r.value)
  {
    hide Scopes, FitFirst;
  }

  /** The scope a fabric group's placement came from. */
  lemma ChosenScope(st: State, cfg: Config, group: Group, bundles: seq<nat>, driver: Option<NodeId>) returns (nodes: seq<NodeId>)
    requires |bundles| >= 2 && OptedIn(st, cfg, group) && Scopes(st, cfg, group, bundles, driver, None).Ok?
    requires FitFirst(st, group, bundles, driver, Scopes(st, cfg, group, bundles, driver, None).value).Some?
    ensures OneFabric(st, group, nodes) && FreeIn(st, group, SetOf(nodes)) >= TotalNeed(bundles)
    ensures FitFirst(st, group, bundles, driver, Scopes(st, cfg, group, bundles, driver, None).value) ==
            Fit(st, group, bundles, driver, Within(SetOf(nodes)))
  {
    hide Scopes, Fit, FitFirst, OptedIn, Sufficient, FabricSets, OneFabric, FreeIn, RankedLe, TotalNeed;
    var scopes := Scopes(st, cfg, group, bundles, driver, None).value;
    ScopesBestFirst(st, cfg, group, bundles, driver);
    var need := TotalNeed(bundles);
    var rs: seq<Ranked> :| scopes == ScopeList(rs) && Sorted(rs, RankedLe) &&
                           forall r :: r in rs <==> r in Sufficient(st, group, need, driver, FabricSets(st, group));
    FitFirstChooses(st, group, bundles, driver, scopes);
    var k :| 0 <= k < |scopes| &&
             FitFirst(st, group, bundles, driver, scopes) == Fit(st, group, bundles, driver, scopes[k]) &&
             forall j :: 0 <= j < k ==> Fit(st, group, bundles, driver, scopes[j]).None?;
    nodes := rs[k].nodes;
    SufficientAre(st, group, need, driver, FabricSets(st, group));
    assert rs[k] in rs;
    FabricSetsAre(st, group, nodes);
  }

  /** A group of two or more bundles whose nodes claim a fabric is placed inside
      one island, or on one node, that alone had enough free. */
  lemma IslandFence(st: State, cfg: Config, pg: Pg)
    requires pg.claim.None? && |pg.bundles| >= 2 && OptedIn(st, cfg, pg.group) && PlaceFor(st, cfg, pg).Some?
    ensures exists nodes ::
              OneFabric(st, pg.group, nodes) && FreeIn(st, pg.group, SetOf(nodes)) >= TotalNeed(pg.bundles) &&
              forall i :: 0 <= i < |PlaceFor(st, cfg, pg).value| ==> PlaceFor(st, cfg, pg).value[i].node in nodes
  {
    hide Scopes, PlaceFor, Fit, FitFirst, OptedIn, OneFabric, FreeIn, TotalNeed;
    var driver := DriverNode(st, pg.owner);
    FabricPlace(st, cfg, pg);
    var nodes := ChosenScope(st, cfg, pg.group, pg.bundles, driver);
    InsideScope(st, pg.group, pg.bundles, driver, SetOf(nodes));
  }

  lemma InsideScope(st: State, group: Group, bundles: seq<nat>, driver: Option<NodeId>, nodes: set<NodeId>)
    ensures var r := Fit(st, group, bundles, driver, Within(nodes));
            r.Some? ==> forall i :: 0 <= i < |r.value| ==> r.value[i].node in nodes
  {
    var r := Fit(st, group, bundles, driver, Within(nodes));
    if r.Some? {
      var hosts := Hosts(st, group, driver, Within(nodes));
      HostsAre(st, group, driver, Within(nodes));
      forall i | 0 <= i < |r.value| ensures r.value[i].node in nodes {
        DrawLabels(AllFree(st), bundles, Same(|bundles|, hosts), NodeMap(st), Same(|bundles|, NoEnv), i);
      }
    }
  }
}
