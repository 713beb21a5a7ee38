/** Exactly when a pending group is placed: anywhere, on a fabric, under a claim, or rank
    by rank. */
module Fittings {
  import opened Basics
  import opened Topology
  import opened Chains
  import opened Solver
  import opened Claims
  import opened Tables
  import opened Placement

  // ------------------------------------------------------------- one scope

  ghost predicate HostsFitIn(st: State, group: Group, bundles: seq<nat>, scope: Scope, host: seq<AgentId>) {
    |host| == |bundles| && (forall i :: 0 <= i < |host| ==> InScope(st, group, scope, host[i])) &&
    forall a :: a in st.agents ==> Load(bundles, host, a) <= |Free(st, a)|
  }

  /** Some choice of live agents of the group inside the scope, one for each bundle, asks
      of no agent more than it has free. */
  ghost predicate FitsIn(st: State, group: Group, bundles: seq<nat>, scope: Scope) {
    exists host :: HostsFitIn(st, group, bundles, scope, host)
  }

  function AgentsOf(bs: seq<Bundle>): (r: seq<AgentId>)
    ensures |r| == |bs| && forall i :: 0 <= i < |bs| ==> r[i] == bs[i].agent
  {
    seq(|bs|, i requires 0 <= i < |bs| => bs[i].agent)
  }

  lemma {:induction false} LoadFront(bundles: seq<nat>, host: seq<AgentId>, a: AgentId)
    requires |host| == |bundles| && host != []
    ensures Load(bundles, host, a) == Load(bundles[1..], host[1..], a) + if host[0] == a then Need(bundles[0]) else 0
    decreases |host|
  {
    var n := |host| - 1;
    if n > 0 {
      LoadFront(bundles[..n], host[..n], a);
      assert bundles[..n][1..] == bundles[1..][..n - 1] && host[..n][1..] == host[1..][..n - 1];
    }
  }

  /** What is drawn asks of no list more than it holds. */
  lemma {:induction false} DrawFits(free: map<AgentId, seq<nat>>, bundles: seq<nat>, hosts: seq<seq<AgentId>>,
                                    nodes: map<AgentId, NodeId>, envs: seq<RankEnv>, a: AgentId)
    requires |hosts| == |envs| == |bundles| && Draw(free, bundles, hosts, nodes, envs).Some? && a in free
    ensures Load(bundles, AgentsOf(Draw(free, bundles, hosts, nodes, envs).value), a) <= |free[a]|
    decreases |bundles|
  {
    if bundles != [] {
      var need := Need(bundles[0]);
      var x := FirstWith(hosts[0], free, need).value;
      var left := free[x := free[x][need..]];
      DrawFits(left, bundles[1..], hosts[1..], nodes, envs[1..], a);
      var bs := Draw(free, bundles, hosts, nodes, envs).value;
      assert bs[0].agent == x && AgentsOf(bs)[1..] == AgentsOf(bs[1..]);
      assert bs[1..] == Draw(left, bundles[1..], hosts[1..], nodes, envs[1..]).value;
      LoadFront(bundles, AgentsOf(bs), a);
    }
  }

  /** First fit inside a scope succeeds only with a fit, and for equal bundles whenever
      there is one. */
  lemma FitExactly(st: State, group: Group, bundles: seq<nat>, driver: Option<NodeId>, scope: Scope)
    ensures Placement.Fit(st, group, bundles, driver, scope).Some? ==> FitsIn(st, group, bundles, scope)
    ensures AllEqual(bundles) && FitsIn(st, group, bundles, scope) ==> Placement.Fit(st, group, bundles, driver, scope).Some?
  {
    HostsAre(st, group, driver, scope);
    if Placement.Fit(st, group, bundles, driver, scope).Some? {
      DrawnInside(st, group, bundles, driver, scope);
    } else if AllEqual(bundles) {
      ScopeIsFull(st, group, bundles, driver, scope);
    }
  }

  lemma DrawnInside(st: State, group: Group, bundles: seq<nat>, driver: Option<NodeId>, scope: Scope)
    requires Placement.Fit(st, group, bundles, driver, scope).Some?
    ensures FitsIn(st, group, bundles, scope)
  {
    var hosts := Same(|bundles|, Hosts(st, group, driver, scope));
    var envs := Same(|bundles|, NoEnv);
    var host := AgentsOf(Placement.Fit(st, group, bundles, driver, scope).value);
    HostsAre(st, group, driver, scope);
    forall i | 0 <= i < |host| ensures InScope(st, group, scope, host[i]) {
      DrawLabels(AllFree(st), bundles, hosts, NodeMap(st), envs, i);
    }
    forall a | a in st.agents ensures Load(bundles, host, a) <= |Free(st, a)| {
      DrawFits(AllFree(st), bundles, hosts, NodeMap(st), envs, a);
    }
    assert HostsFitIn(st, group, bundles, scope, host);
  }

  lemma ScopeIsFull(st: State, group: Group, bundles: seq<nat>, driver: Option<NodeId>, scope: Scope)
    requires AllEqual(bundles) && Placement.Fit(st, group, bundles, driver, scope).None?
    ensures !FitsIn(st, group, bundles, scope)
  {
    var ids := Hosts(st, group, driver, scope);
    HostsAre(st, group, driver, scope);
    var need := Need(bundles[0]);
    FirstFitIsFull(AllFree(st), bundles, ids, Same(|bundles|, ids), NodeMap(st), Same(|bundles|, NoEnv), need);
    forall host | HostsFitIn(st, group, bundles, scope, host) ensures false {
      CountedAll(ids, host);
      CountWithinCapacity(st, bundles, host, ids, need);
    }
  }

  lemma {:induction false} FirstSomewhere(st: State, group: Group, bundles: seq<nat>, driver: Option<NodeId>, scopes: seq<Scope>)
    ensures FitFirst(st, group, bundles, driver, scopes).Some? <==>
            exists k :: 0 <= k < |scopes| && Placement.Fit(st, group, bundles, driver, scopes[k]).Some?
    decreases |scopes|
  {
    hide Placement.Fit;
    if scopes != [] {
      FirstSomewhere(st, group, bundles, driver, scopes[1..]);
      if k :| 0 <= k < |scopes| && Placement.Fit(st, group, bundles, driver, scopes[k]).Some? {
        if k > 0 { assert scopes[1..][k - 1] == scopes[k]; }
      }
      if k :| 0 <= k < |scopes[1..]| && Placement.Fit(st, group, bundles, driver, scopes[1..][k]).Some? {
        assert scopes[k + 1] == scopes[1..][k];
      }
    }
  }

  // ------------------------------------------------------- no claim, no fabric

  lemma Unclaimed(st: State, cfg: Config, pg: Pg)
    requires pg.claim.None?
    ensures var driver := DriverNode(st, pg.owner); var r := Scopes(st, cfg, pg.group, pg.bundles, driver, None);
            PlaceFor(st, cfg, pg) == if r.Err? then None else FitFirst(st, pg.group, pg.bundles, driver, r.value)
  {
    hide Scopes, FitFirst;
  }

  /** A group of equal bundles under no claim and bound to no fabric is placed exactly
      when its bundles fit the free devices of the group's live agents. */
  lemma PlacedAnywhere(st: State, cfg: Config, pg: Pg)
    requires pg.claim.None? && (|pg.bundles| < 2 || !OptedIn(st, cfg, pg.group)) && AllEqual(pg.bundles)
    ensures PlaceFor(st, cfg, pg).Some? <==> Fits(st, pg.group, pg.bundles)
  {
    var driver := DriverNode(st, pg.owner);
    Unclaimed(st, cfg, pg);
    assert Scopes(st, cfg, pg.group, pg.bundles, driver, None) == Ok([Anywhere]);
    hide Scopes, PlaceFor, OptedIn;
    FirstSomewhere(st, pg.group, pg.bundles, driver, [Anywhere]);
    FitExactly(st, pg.group, pg.bundles, driver, Anywhere);
    hide Placement.Fit;
    FitsAnywhere(st, pg.group, pg.bundles);
  }

  lemma FitsAnywhere(st: State, group: Group, bundles: seq<nat>)
    ensures FitsIn(st, group, bundles, Anywhere) <==> Fits(st, group, bundles)
  {
    if host :| HostsFitIn(st, group, bundles, Anywhere, host) { assert HostsFit(st, group, bundles, host); }
    if host :| HostsFit(st, group, bundles, host) { assert HostsFitIn(st, group, bundles, Anywhere, host); }
  }

  // ------------------------------------------------------------- on a fabric

  ghost function LoadSum(bundles: seq<nat>, host: seq<AgentId>, ids: seq<AgentId>): nat
    requires |host| == |bundles|
  {
    if ids == [] then 0 else LoadSum(bundles, host, ids[..|ids| - 1]) + Load(bundles, host, ids[|ids| - 1])
  }

  lemma {:induction false} LoadSumPush(bundles: seq<nat>, host: seq<AgentId>, ids: seq<AgentId>)
    requires |host| == |bundles| && host != [] && NoDup(ids)
    ensures var n := |host| - 1;
            LoadSum(bundles, host, ids) == LoadSum(bundles[..n], host[..n], ids) + if host[n] in ids then Need(bundles[n]) else 0
    decreases |ids|
  {
    if ids != [] {
      DropLast(ids);
      LoadSumPush(bundles, host, ids[..|ids| - 1]);
    }
  }

  lemma {:induction false} LoadSumNone(ids: seq<AgentId>)
    ensures LoadSum([], [], ids) == 0
    decreases |ids|
  {
    if ids != [] { LoadSumNone(ids[..|ids| - 1]); }
  }

  /** All that the hosts are asked for is all that the bundles need. */
  lemma {:induction false} LoadsAreNeed(bundles: seq<nat>, host: seq<AgentId>, ids: seq<AgentId>)
    requires |host| == |bundles| && NoDup(ids) && forall i :: 0 <= i < |host| ==> host[i] in ids
    ensures LoadSum(bundles, host, ids) == TotalNeed(bundles)
    decreases |host|
  {
    if host == [] {
      LoadSumNone(ids);
    } else {
      var n := |host| - 1;
      LoadSumPush(bundles, host, ids);
      LoadsAreNeed(bundles[..n], host[..n], ids);
    }
  }

  lemma {:induction false} LoadsWithinFree(st: State, bundles: seq<nat>, host: seq<AgentId>, ids: seq<AgentId>)
    requires |host| == |bundles| && forall a :: a in ids ==> a in st.agents && Load(bundles, host, a) <= |Free(st, a)|
    ensures LoadSum(bundles, host, ids) <= FreeSum(AllFree(st), ids)
    decreases |ids|
  {
    if ids != [] {
      LoadsWithinFree(st, bundles, host, ids[..|ids| - 1]);
      assert ids[|ids| - 1] in ids;
    }
  }

  /** What fits inside some nodes finds enough free there. */
  lemma FitsHasRoom(st: State, group: Group, bundles: seq<nat>, nodes: set<NodeId>)
    requires FitsIn(st, group, bundles, Within(nodes))
    ensures FreeIn(st, group, nodes) >= TotalNeed(bundles)
  {
    var ids := Hosts(st, group, None, Within(nodes));
    HostsAre(st, group, None, Within(nodes));
    var host :| HostsFitIn(st, group, bundles, Within(nodes), host);
    LoadsAreNeed(bundles, host, ids);
    LoadsWithinFree(st, bundles, host, ids);
  }

  lemma FabricIsListed(st: State, group: Group, nodes: seq<NodeId>)
    requires OneFabric(st, group, nodes)
    ensures nodes in FabricSets(st, group)
  {
    hide LoneNodes;
    var sets := FabricSets(st, group);
    if i :| 0 <= i < |st.islands| && st.islands[i].nodes == nodes {
      assert sets[i] == nodes;
    } else {
      var lone := LoneNodes(st, group);
      var k :| 0 <= k < |lone| && lone[k] == nodes[0];
      assert sets[|st.islands| + k] == [lone[k]] == nodes;
    }
  }

  lemma {:induction false} SufficientHas(st: State, group: Group, need: nat, driver: Option<NodeId>, sets: seq<seq<NodeId>>,
                                         nodes: seq<NodeId>)
    requires nodes in sets && FreeIn(st, group, SetOf(nodes)) >= need
    ensures Ranked(AwayFrom(driver, nodes), nodes) in Sufficient(st, group, need, driver, sets)
    decreases |sets|
  {
    hide FreeIn, AwayFrom;
    var n := |sets| - 1;
    if nodes in sets[..n] { SufficientHas(st, group, need, driver, sets[..n], nodes); }
  }

  /** The scopes of a fabric group are those of the fabrics with enough free. */
  lemma FabricScopes(st: State, cfg: Config, group: Group, bundles: seq<nat>, driver: Option<NodeId>, nodes: seq<NodeId>)
    requires |bundles| >= 2 && OptedIn(st, cfg, group) && OneFabric(st, group, nodes)
    requires FreeIn(st, group, SetOf(nodes)) >= TotalNeed(bundles)
    ensures var r := Scopes(st, cfg, group, bundles, driver, None); r.Ok? && Within(SetOf(nodes)) in r.value
  {
    var need := TotalNeed(bundles);
    FabricIsListed(st, group, nodes);
    SufficientHas(st, group, need, driver, FabricSets(st, group), nodes);
    var ranked := Ranked(AwayFrom(driver, nodes), nodes);
    var rs := Sufficient(st, group, need, driver, FabricSets(st, group));
    assert ranked in rs;
    RankedOrder();
    var sorted := Sort(rs, RankedLe);
    assert Scopes(st, cfg, group, bundles, driver, None) == Ok(ScopeList(sorted));
    var k :| 0 <= k < |sorted| && sorted[k] == ranked;
    assert ScopeList(sorted)[k] == Within(SetOf(nodes));
  }

  /** A group of two or more equal bundles whose nodes claim a fabric is placed exactly
      when its bundles fit inside one island, or on one node of none. */
  lemma PlacedOnFabric(st: State, cfg: Config, pg: Pg)
    requires pg.claim.None? && |pg.bundles| >= 2 && OptedIn(st, cfg, pg.group) && AllEqual(pg.bundles)
    ensures PlaceFor(st, cfg, pg).Some? <==>
            exists nodes :: OneFabric(st, pg.group, nodes) && FitsIn(st, pg.group, pg.bundles, Within(SetOf(nodes)))
  {
    hide Scopes, PlaceFor, Placement.Fit, FitFirst, OptedIn, OneFabric, FreeIn, TotalNeed, FitsIn;
    var driver := DriverNode(st, pg.owner);
    Unclaimed(st, cfg, pg);
    if PlaceFor(st, cfg, pg).Some? {
      var nodes := ChosenScope(st, cfg, pg.group, pg.bundles, driver);
      FitExactly(st, pg.group, pg.bundles, driver, Within(SetOf(nodes)));
    }
    if nodes :| OneFabric(st, pg.group, nodes) && FitsIn(st, pg.group, pg.bundles, Within(SetOf(nodes))) {
      FitsHasRoom(st, pg.group, pg.bundles, SetOf(nodes));
      FabricScopes(st, cfg, pg.group, pg.bundles, driver, nodes);
      FitExactly(st, pg.group, pg.bundles, driver, Within(SetOf(nodes)));
      FirstSomewhere(st, pg.group, pg.bundles, driver, Scopes(st, cfg, pg.group, pg.bundles, driver, None).value);
    }
  }

  /** The fabric such a group is placed on is a best one it fits on: the driver's if any
      is, and of the smallest among those as near to the driver. */
  lemma PlacedOnBest(st: State, cfg: Config, pg: Pg) returns (nodes: seq<NodeId>)
    requires pg.claim.None? && |pg.bundles| >= 2 && OptedIn(st, cfg, pg.group) && AllEqual(pg.bundles)
    requires PlaceFor(st, cfg, pg).Some?
    ensures OneFabric(st, pg.group, nodes) &&
            PlaceFor(st, cfg, pg) == Placement.Fit(st, pg.group, pg.bundles, DriverNode(st, pg.owner), Within(SetOf(nodes)))
    ensures forall other :: OneFabric(st, pg.group, other) && FitsIn(st, pg.group, pg.bundles, Within(SetOf(other))) ==>
              NoBetter(DriverNode(st, pg.owner), nodes, other)
  {
    hide Scopes, PlaceFor, Placement.Fit, FitFirst, OptedIn, Sufficient, FabricSets, OneFabric, FreeIn, TotalNeed, FitsIn,
         RankedLe, NoBetter;
    var driver := DriverNode(st, pg.owner);
    var need := TotalNeed(pg.bundles);
    FabricPlace(st, cfg, pg);
    var scopes := Scopes(st, cfg, pg.group, pg.bundles, driver, None).value;
    ScopesBestFirst(st, cfg, pg.group, pg.bundles, driver);
    var rs: seq<Ranked> :| scopes == ScopeList(rs) && Sorted(rs, RankedLe) &&
                           forall r :: r in rs <==> r in Sufficient(st, pg.group, need, driver, FabricSets(st, pg.group));
    FitFirstChooses(st, pg.group, pg.bundles, driver, scopes);
    var k :| 0 <= k < |scopes| &&
             FitFirst(st, pg.group, pg.bundles, driver, scopes) == Placement.Fit(st, pg.group, pg.bundles, driver, scopes[k]) &&
             forall j :: 0 <= j < k ==> Placement.Fit(st, pg.group, pg.bundles, driver, scopes[j]).None?;
    nodes := rs[k].nodes;
    SufficientAre(st, pg.group, need, driver, FabricSets(st, pg.group));
    assert rs[k] in rs;
    FabricSetsAre(st, pg.group, nodes);
    forall other | OneFabric(st, pg.group, other) && FitsIn(st, pg.group, pg.bundles, Within(SetOf(other)))
      ensures NoBetter(driver, nodes, other)
    {
      var m := FabricAt(st, pg, rs, other);
      assert scopes[m] == Within(SetOf(other));
      FitExactly(st, pg.group, pg.bundles, driver, Within(SetOf(other)));
      assert k <= m;
      RankedNoBetter(driver, rs[k], rs[m]);
    }
  }

  /** Where a fabric that fits stands among the ranked ones. */
  lemma FabricAt(st: State, pg: Pg, rs: seq<Ranked>, other: seq<NodeId>) returns (m: nat)
    requires OneFabric(st, pg.group, other) && FitsIn(st, pg.group, pg.bundles, Within(SetOf(other)))
    requires var driver := DriverNode(st, pg.owner);
             forall r :: r in Sufficient(st, pg.group, TotalNeed(pg.bundles), driver, FabricSets(st, pg.group)) ==> r in rs
    ensures m < |rs| && rs[m] == Ranked(AwayFrom(DriverNode(st, pg.owner), other), other)
  {
    hide Sufficient, FabricSets, OneFabric, FreeIn, TotalNeed, FitsIn, DriverNode, AwayFrom;
    var driver := DriverNode(st, pg.owner);
    FitsHasRoom(st, pg.group, pg.bundles, SetOf(other));
    FabricIsListed(st, pg.group, other);
    SufficientHas(st, pg.group, TotalNeed(pg.bundles), driver, FabricSets(st, pg.group), other);
    var ranked := Ranked(AwayFrom(driver, other), other);
    assert ranked in rs;
    m :| 0 <= m < |rs| && rs[m] == ranked;
  }

  /** The other set of nodes does not hold the driver where this one does not, and is not
      the smaller of two that both do or both do not. */
  predicate NoBetter(driver: Option<NodeId>, nodes: seq<NodeId>, other: seq<NodeId>) {
    var here, there := driver.Some? && driver.value in nodes, driver.Some? && driver.value in other;
    (there ==> here) && (here == there ==> |nodes| <= |other|)
  }

  lemma RankedNoBetter(driver: Option<NodeId>, x: Ranked, y: Ranked)
    requires x == y || RankedLe(x, y)
    requires x.away == AwayFrom(driver, x.nodes) && y.away == AwayFrom(driver, y.nodes)
    ensures NoBetter(driver, x.nodes, y.nodes)
  {
  }

  // ----------------------------------------------------------- under a claim

  /** The claim is held, names nodes, and the group has a live agent on each. */
  ghost predicate ClaimServed(st: State, key: (Group, Name)) {
    key in st.claims && ClaimedNodes(st.claims[key].view) != {} &&
    forall n :: n in ClaimedNodes(st.claims[key].view) ==> exists a :: InGroup(st, key.0, a) && st.agents[a].node == n
  }

  /** A group of equal bundles under a claim with no rank order is placed exactly when the
      claim is served and its bundles fit on the claim's nodes. */
  lemma PlacedUnderClaim(st: State, cfg: Config, pg: Pg)
    requires pg.claim.Some? && ClaimOrder(st, pg.group, pg.claim, DriverNode(st, pg.owner)) == NotOrdered && AllEqual(pg.bundles)
    ensures var key := (pg.group, pg.claim.value);
            PlaceFor(st, cfg, pg).Some? <==>
              ClaimServed(st, key) && FitsIn(st, pg.group, pg.bundles, Within(ClaimedNodes(st.claims[key].view)))
  {
    var driver := DriverNode(st, pg.owner);
    var key := (pg.group, pg.claim.value);
    ClaimScopes(st, cfg, pg.group, pg.bundles, driver, pg.claim.value);
    hide Scopes, Placement.Fit, FitFirst, FitsIn, ClaimOrder, ClaimServed;
    if ClaimServed(st, key) {
      var scope := Within(ClaimedNodes(st.claims[key].view));
      FirstSomewhere(st, pg.group, pg.bundles, driver, [scope]);
      FitExactly(st, pg.group, pg.bundles, driver, scope);
      assert [scope][0] == scope;
    }
  }

  lemma ClaimScopes(st: State, cfg: Config, group: Group, bundles: seq<nat>, driver: Option<NodeId>, claim: Name)
    ensures var r := Scopes(st, cfg, group, bundles, driver, Some(claim)); var key := (group, claim);
            if ClaimServed(st, key) then r == Ok([Within(ClaimedNodes(st.claims[key].view))]) else r.Err?
  {
    hide ClaimedNodes;
    var key := (group, claim);
    if key in st.claims {
      var nodes := ClaimedNodes(st.claims[key].view);
      assert nodes <= ServedNodes(st, group) <==>
             forall n :: n in nodes ==> exists a :: InGroup(st, group, a) && st.agents[a].node == n;
    }
  }

  // ------------------------------------------------------------- rank by rank

  /** A live agent of the group on the node has room for the bundle. */
  ghost predicate RoomOn(st: State, group: Group, node: NodeId, bundle: nat) {
    exists a :: InGroup(st, group, a) && st.agents[a].node == node && |Free(st, a)| >= Need(bundle)
  }

  /** Some list's agent has enough for the bundle. */
  predicate RoomIn(free: map<AgentId, seq<nat>>, ids: seq<AgentId>, bundle: nat) {
    exists a :: a in ids && a in free && |free[a]| >= Need(bundle)
  }

  /** With no agent in two lists, each bundle is drawn exactly when its own list has an
      agent with enough. */
  lemma {:induction false} DrawApart(free: map<AgentId, seq<nat>>, bundles: seq<nat>, hosts: seq<seq<AgentId>>,
                                     nodes: map<AgentId, NodeId>, envs: seq<RankEnv>)
    requires |hosts| == |envs| == |bundles|
    requires forall i, j, a :: 0 <= i < j < |hosts| && a in hosts[i] ==> a !in hosts[j]
    ensures Draw(free, bundles, hosts, nodes, envs).Some? <==>
            forall i :: 0 <= i < |bundles| ==> RoomIn(free, hosts[i], bundles[i])
    decreases |bundles|
  {
    if bundles != [] {
      var a := FirstWith(hosts[0], free, Need(bundles[0]));
      if a.Some? {
        var left := free[a.value := free[a.value][Need(bundles[0])..]];
        DrawApart(left, bundles[1..], hosts[1..], nodes, envs[1..]);
        RestSame(free, left, a.value, bundles, hosts);
      }
    }
  }

  /** Drawing from the first list leaves the others as they were. */
  lemma RestSame(free: map<AgentId, seq<nat>>, left: map<AgentId, seq<nat>>, x: AgentId, bundles: seq<nat>, hosts: seq<seq<AgentId>>)
    requires |hosts| == |bundles| && bundles != [] && x in hosts[0] && x in free && |free[x]| >= Need(bundles[0])
    requires left.Keys == free.Keys && forall a :: a in free && a != x ==> left[a] == free[a]
    requires forall i, j, a :: 0 <= i < j < |hosts| && a in hosts[i] ==> a !in hosts[j]
    ensures (forall i :: 0 <= i < |bundles[1..]| ==> RoomIn(left, hosts[1..][i], bundles[1..][i])) <==>
            (forall i :: 0 <= i < |bundles| ==> RoomIn(free, hosts[i], bundles[i]))
  {
    forall i | 0 < i < |bundles|
      ensures RoomIn(left, hosts[1..][i - 1], bundles[1..][i - 1]) <==> RoomIn(free, hosts[i], bundles[i])
    {
      assert hosts[1..][i - 1] == hosts[i] && bundles[1..][i - 1] == bundles[i] && x !in hosts[i];
    }
    forall i | 0 <= i < |bundles[1..]| ensures hosts[1..][i] == hosts[i + 1] && bundles[1..][i] == bundles[i + 1] {
    }
  }

  /** Rank by rank over distinct nodes: exactly when there is a bundle for each rank and
      each rank's node has an agent with room for it. */
  lemma RanksFitExactly(st: State, group: Group, bundles: seq<nat>, layout: Layout, ranks: seq<Member>)
    requires NoDup(NodesOf(ranks))
    ensures FitRanks(st, group, bundles, layout, ranks).Some? <==>
            |bundles| == |ranks| && forall i :: 0 <= i < |ranks| ==> RoomOn(st, group, ranks[i].node, bundles[i])
  {
    hide Draw, Hosts, AllFree, RoomOn, EnvOf, RoomIn;
    if |bundles| == |ranks| {
      var hosts := seq(|ranks|, i requires 0 <= i < |ranks| => Hosts(st, group, None, Within({ranks[i].node})));
      var envs := seq(|ranks|, i requires 0 <= i < |ranks| => EnvOf(layout, ranks[i]));
      forall i, j, a | 0 <= i < j < |hosts| && a in hosts[i] ensures a !in hosts[j] {
        assert NodesOf(ranks)[i] != NodesOf(ranks)[j];
        HostsAre(st, group, None, Within({ranks[i].node}));
        HostsAre(st, group, None, Within({ranks[j].node}));
      }
      DrawApart(AllFree(st), bundles, hosts, NodeMap(st), envs);
      forall i | 0 <= i < |ranks|
        ensures RoomOn(st, group, ranks[i].node, bundles[i]) <==> RoomIn(AllFree(st), hosts[i], bundles[i])
      {
        RoomIs(st, group, ranks[i].node, bundles[i]);
      }
    }
  }

  lemma RoomIs(st: State, group: Group, node: NodeId, bundle: nat)
    ensures RoomOn(st, group, node, bundle) <==> RoomIn(AllFree(st), Hosts(st, group, None, Within({node})), bundle)
  {
    hide Hosts, Free;
    HostsAre(st, group, None, Within({node}));
    if a :| InGroup(st, group, a) && st.agents[a].node == node && |Free(st, a)| >= Need(bundle) {
      assert a in Hosts(st, group, None, Within({node})) && AllFree(st)[a] == Free(st, a);
    }
  }

  /** A group under a solved ring or line claim is placed exactly when the driver is not
      strictly inside a line, there is a bundle for each rank, and the node of each rank in
      turn has a live agent of the group with room for it. */
  lemma PlacedInRanks(st: State, cfg: Config, pg: Pg, t: Net)
    requires pg.claim.Some? && SolvedOver(st, t, (pg.group, pg.claim.value))
    requires OrderedReq(st.claims[(pg.group, pg.claim.value)].req)
    ensures var c := st.claims[(pg.group, pg.claim.value)]; var s := c.req.sets[0];
            s.name in c.view.sets &&
            var r := Ranks(s.layout, c.view.sets[s.name], DriverNode(st, pg.owner));
            PlaceFor(st, cfg, pg).Some? <==>
              r.Ok? && |pg.bundles| == |r.value| &&
              forall i :: 0 <= i < |r.value| ==> RoomOn(st, pg.group, r.value[i].node, pg.bundles[i])
  {
    hide GoodSet, Solve, Ranks, FitRanks, RoomOn, Scopes, FitFirst;
    var c := st.claims[(pg.group, pg.claim.value)];
    var s := c.req.sets[0];
    SolutionIsSound(t, c.req);
    assert GoodSet(t, s, c.view.sets[s.name]);
    var r := Ranks(s.layout, c.view.sets[s.name], DriverNode(st, pg.owner));
    if r.Ok? {
      RanksDistinct(t, s, c.view.sets[s.name], DriverNode(st, pg.owner));
      RanksFitExactly(st, pg.group, pg.bundles, s.layout, r.value);
    }
  }

  lemma RanksDistinct(t: Net, s: SetReq, ms: seq<Member>, driver: Option<NodeId>)
    requires GoodSet(t, s, ms) && Ranks(s.layout, ms, driver).Ok?
    ensures NoDup(NodesOf(Ranks(s.layout, ms, driver).value))
  {
    var ns, rs := NodesOf(ms), NodesOf(Ranks(s.layout, ms, driver).value);
    RanksAreTurnedOrReversed(s.layout, ms, driver);
    if r :| 0 <= r <= |ns| && rs == Turned(ns, r) {
      TurnedDistinct(ns, r);
    }
  }

  lemma TurnedDistinct(ns: seq<NodeId>, r: nat)
    requires NoDup(ns) && r <= |ns|
    ensures NoDup(Turned(ns, r))
  {
  }

  // ---------------------------------------------------------- what a pass leaves

  /** The groups exactness is known of: of equal bundles, or rank by rank over distinct
      nodes. */
  ghost predicate Regular(st: State, pg: Pg) {
    match ClaimOrder(st, pg.group, pg.claim, DriverNode(st, pg.owner))
    case NotOrdered => AllEqual(pg.bundles)
    case Refused => true
    case InOrderOf(_, ranks) => NoDup(NodesOf(ranks))
  }

  /** Only the groups differ, and nothing more is free. */
  ghost predicate Tighter(st: State, st': State) {
    st' == st.(pgs := st'.pgs) && NoMoreFree(st, st')
  }

  lemma FitsInLess(st: State, st': State, group: Group, bundles: seq<nat>, scope: Scope)
    requires Tighter(st, st') && FitsIn(st', group, bundles, scope)
    ensures FitsIn(st, group, bundles, scope)
  {
    var host :| HostsFitIn(st', group, bundles, scope, host);
    forall a | a in st.agents ensures Load(bundles, host, a) <= |Free(st, a)| {
      if a in host {
        var i :| 0 <= i < |host| && host[i] == a;
        assert InGroup(st', group, a);
      } else {
        LoadElsewhere(bundles, host, a);
      }
    }
    assert HostsFitIn(st, group, bundles, scope, host);
  }

  lemma RoomLess(st: State, st': State, group: Group, node: NodeId, bundle: nat)
    requires Tighter(st, st') && RoomOn(st', group, node, bundle)
    ensures RoomOn(st, group, node, bundle)
  {
    hide Free;
    var a :| InGroup(st', group, a) && st'.agents[a].node == node && |Free(st', a)| >= Need(bundle);
    assert InGroup(st, group, a);
  }

  /** What a regular group finds no place for, it finds none for with less free. */
  lemma StillNoPlace(st: State, st': State, cfg: Config, pg: Pg)
    requires Tighter(st, st') && Regular(st, pg) && PlaceFor(st, cfg, pg).None?
    ensures PlaceFor(st', cfg, pg).None?
  {
    hide PlaceFor, FitsIn, NoMoreFree, FitRanks, Fits, Scopes, RoomOn;
    assert ClaimOrder(st', pg.group, pg.claim, DriverNode(st', pg.owner)) == ClaimOrder(st, pg.group, pg.claim, DriverNode(st, pg.owner));
    match ClaimOrder(st, pg.group, pg.claim, DriverNode(st, pg.owner))
    case Refused => RefusedHasNone(st', cfg, pg);
    case InOrderOf(s, ranks) => RanksNoPlace(st, st', cfg, pg, s, ranks);
    case NotOrdered =>
      if pg.claim.Some? {
        ClaimNoPlace(st, st', cfg, pg);
      } else if |pg.bundles| < 2 || !OptedIn(st, cfg, pg.group) {
        PlacedAnywhere(st, cfg, pg);
        PlacedAnywhere(st', cfg, pg);
        FitsAnywhere(st, pg.group, pg.bundles);
        FitsAnywhere(st', pg.group, pg.bundles);
        if FitsIn(st', pg.group, pg.bundles, Anywhere) { FitsInLess(st, st', pg.group, pg.bundles, Anywhere); }
      } else {
        FabricNoPlace(st, st', cfg, pg);
      }
  }

  lemma RefusedHasNone(st: State, cfg: Config, pg: Pg)
    requires ClaimOrder(st, pg.group, pg.claim, DriverNode(st, pg.owner)) == Refused
    ensures PlaceFor(st, cfg, pg).None?
  {
  }

  lemma RanksNoPlace(st: State, st': State, cfg: Config, pg: Pg, s: SetReq, ranks: seq<Member>)
    requires Tighter(st, st') && PlaceFor(st, cfg, pg).None? && NoDup(NodesOf(ranks))
    requires ClaimOrder(st, pg.group, pg.claim, DriverNode(st, pg.owner)) == InOrderOf(s, ranks)
    ensures PlaceFor(st', cfg, pg).None?
  {
    hide FitRanks, RoomOn, NoMoreFree;
    RanksFitExactly(st, pg.group, pg.bundles, s.layout, ranks);
    RanksFitExactly(st', pg.group, pg.bundles, s.layout, ranks);
    if FitRanks(st', pg.group, pg.bundles, s.layout, ranks).Some? {
      forall i | 0 <= i < |ranks| ensures RoomOn(st, pg.group, ranks[i].node, pg.bundles[i]) {
        RoomLess(st, st', pg.group, ranks[i].node, pg.bundles[i]);
      }
    }
  }

  lemma ClaimNoPlace(st: State, st': State, cfg: Config, pg: Pg)
    requires Tighter(st, st') && PlaceFor(st, cfg, pg).None? && AllEqual(pg.bundles) && pg.claim.Some?
    requires ClaimOrder(st, pg.group, pg.claim, DriverNode(st, pg.owner)) == NotOrdered
    ensures PlaceFor(st', cfg, pg).None?
  {
    var key := (pg.group, pg.claim.value);
    assert ClaimOrder(st', pg.group, pg.claim, DriverNode(st', pg.owner)) == NotOrdered;
    assert ClaimServed(st, key) == ClaimServed(st', key);
    PlacedUnderClaim(st, cfg, pg);
    PlacedUnderClaim(st', cfg, pg);
    hide PlaceFor, FitsIn, NoMoreFree, ClaimServed, ClaimedNodes, ClaimOrder;
    if ClaimServed(st, key) && FitsIn(st', pg.group, pg.bundles, Within(ClaimedNodes(st.claims[key].view))) {
      FitsInLess(st, st', pg.group, pg.bundles, Within(ClaimedNodes(st.claims[key].view)));
    }
  }

  lemma FabricNoPlace(st: State, st': State, cfg: Config, pg: Pg)
    requires Tighter(st, st') && PlaceFor(st, cfg, pg).None? && AllEqual(pg.bundles)
    requires pg.claim.None? && |pg.bundles| >= 2 && OptedIn(st, cfg, pg.group)
    ensures PlaceFor(st', cfg, pg).None?
  {
    hide PlaceFor, FitsIn, NoMoreFree, OneFabric;
    assert OptedIn(st', cfg, pg.group);
    PlacedOnFabric(st, cfg, pg);
    PlacedOnFabric(st', cfg, pg);
    if nodes :| OneFabric(st', pg.group, nodes) && FitsIn(st', pg.group, pg.bundles, Within(SetOf(nodes))) {
      SameFabric(st, st', pg.group, nodes);
      FitsInLess(st, st', pg.group, pg.bundles, Within(SetOf(nodes)));
    }
  }

  lemma SameFabric(st: State, st': State, group: Group, nodes: seq<NodeId>)
    requires st' == st.(pgs := st'.pgs) && OneFabric(st', group, nodes)
    ensures OneFabric(st, group, nodes)
  {
    forall n | n in LoneNodes(st', group) ensures n in LoneNodes(st, group) {
      var a :| a in st'.agents && InGroup(st', group, a) && st'.agents[a].node !in IslandedNodes(st'.islands) && st'.agents[a].node == n;
      assert InGroup(st, group, a);
    }
  }

  /** No pending regular group among `ids` has a place. */
  ghost predicate NoneOn(st: State, cfg: Config, ids: set<PgId>) {
    forall id :: id in ids && id in st.pgs && st.pgs[id].state == Pending && Regular(st, st.pgs[id]) ==>
      PlaceFor(st, cfg, st.pgs[id]).None?
  }

  lemma NoneOnStep(st: State, cfg: Config, ids: set<PgId>, id: PgId)
    requires NoneOn(st, cfg, ids) && Blank(st)
    ensures NoneOn(PlaceOne(st, cfg, id), cfg, ids + {id})
  {
    hide PlaceFor, NoMoreFree, Blank;
    var st' := PlaceOne(st, cfg, id);
    PlaceOneTightens(st, cfg, id);
    forall x | x in ids + {id} && x in st'.pgs && st'.pgs[x].state == Pending && Regular(st', st'.pgs[x])
      ensures PlaceFor(st', cfg, st'.pgs[x]).None?
    {
      assert st'.pgs[x] == st.pgs[x];
      SameRegular(st, st', st.pgs[x]);
      StillNoPlace(st, st', cfg, st.pgs[x]);
    }
  }

  lemma SameRegular(st: State, st': State, pg: Pg)
    requires st' == st.(pgs := st'.pgs)
    ensures Regular(st, pg) <==> Regular(st', pg)
  {
    assert ClaimOrder(st', pg.group, pg.claim, DriverNode(st', pg.owner)) == ClaimOrder(st, pg.group, pg.claim, DriverNode(st, pg.owner));
  }

  lemma {:induction false} PassLeaves(st: State, cfg: Config, ids: seq<PgId>, done: set<PgId>)
    requires NoneOn(st, cfg, done) && Blank(st)
    ensures NoneOn(PlaceAll(st, cfg, ids), cfg, done + SetOf(ids))
    decreases |ids|
  {
    hide PlaceOne, NoneOn, Blank;
    if ids == [] {
      assert done + SetOf(ids) == done;
    } else {
      PlaceOneTightens(st, cfg, ids[0]);
      NoneOnStep(st, cfg, done, ids[0]);
      PassLeaves(PlaceOne(st, cfg, ids[0]), cfg, ids[1..], done + {ids[0]});
      assert done + SetOf(ids) == done + {ids[0]} + SetOf(ids[1..]);
    }
  }

  /** A placement pass, in any map order, leaves no regular group pending that has a place,
      whether it may go anywhere, is bound to a fabric or stands under a claim. */
  lemma PassPlacesAll(st: State, cfg: Config, ord: Order, id: PgId)
    requires Blank(st) && IsOrder(ord)
    requires var st' := TryPlace(st, cfg, ord); id in st'.pgs && st'.pgs[id].state == Pending && Regular(st', st'.pgs[id])
    ensures var st' := TryPlace(st, cfg, ord); PlaceFor(st', cfg, st'.pgs[id]).None?
  {
    hide PlaceAll, Blank, PlaceFor, Regular;
    var ids := ord(st.pgs.Keys);
    assert SetOf(ids) == st.pgs.Keys;
    PassLeaves(st, cfg, ids, {});
    PlaceAllFrame(st, cfg, ids);
    assert id in {} + SetOf(ids);
  }
}
