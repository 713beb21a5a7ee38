/** Placement as the head runs it: free devices by filtering a list, bundles by
    draining lists, groups one by one over the tables it holds. */
module Placing {
  import opened Basics
  import opened Topology
  import opened Chains
  import opened Solver
  import opened Tables
  import opened Placement

  // ---------------------------------------------------------- free devices

  /** A list with some devices taken out, the rest in order. */
  function Without(gpus: seq<nat>, out: set<nat>): seq<nat> {
    if gpus == [] then []
    else
      var n := |gpus| - 1;
      Without(gpus[..n], out) + if gpus[n] in out then [] else [gpus[n]]
  }

  lemma {:induction false} WithoutTwice(gpus: seq<nat>, x: set<nat>, y: set<nat>)
    ensures Without(Without(gpus, x), y) == Without(gpus, x + y)
    decreases |gpus|
  {
    if gpus != [] {
      var n := |gpus| - 1;
      WithoutTwice(gpus[..n], x, y);
      var w := Without(gpus[..n], x);
      if gpus[n] in x {
        assert Without(gpus, x) == w;
      } else {
        assert Without(gpus, x) == w + [gpus[n]] && (w + [gpus[n]])[..|w|] == w;
      }
    }
  }

  lemma {:induction false} WithoutNone(gpus: seq<nat>)
    ensures Without(gpus, {}) == gpus
    decreases |gpus|
  {
    if gpus != [] { WithoutNone(gpus[..|gpus| - 1]); }
  }

  lemma {:induction false} WithoutHeld(st: State, agent: AgentId, gpus: seq<nat>, held: set<nat>)
    requires forall g :: g in held <==> Held(st, agent, g)
    ensures Without(gpus, held) == FilterFree(st, agent, gpus)
    decreases |gpus|
  {
    hide Held;
    if gpus != [] { WithoutHeld(st, agent, gpus[..|gpus| - 1], held); }
  }

  ghost predicate HeldByGroups(st: State, ids: seq<PgId>, k: nat, agent: AgentId, g: nat)
    requires k <= |ids|
  {
    exists j, i: nat :: 0 <= j < k && BundleHolds(st, ids[j], i, agent, g)
  }

  ghost predicate HeldByBundles(st: State, p: PgId, k: nat, agent: AgentId, g: nat) {
    exists i: nat :: i < k && BundleHolds(st, p, i, agent, g)
  }

  ghost predicate HeldByActors(st: State, ids: seq<ActorId>, k: nat, agent: AgentId, g: nat)
    requires k <= |ids|
  {
    exists j :: 0 <= j < k && ActorHolds(st, ids[j], agent, g)
  }

  lemma GroupsMore(st: State, ids: seq<PgId>, k: nat, agent: AgentId, g: nat)
    requires k < |ids|
    ensures HeldByGroups(st, ids, k + 1, agent, g) <==>
            HeldByGroups(st, ids, k, agent, g) || exists i: nat :: BundleHolds(st, ids[k], i, agent, g)
  {
    if HeldByGroups(st, ids, k + 1, agent, g) {
      var j, i: nat :| 0 <= j < k + 1 && BundleHolds(st, ids[j], i, agent, g);
      if j == k {
        assert BundleHolds(st, ids[k], i, agent, g);
      }
    }
  }

  lemma BundlesAll(st: State, p: PgId, agent: AgentId, g: nat)
    requires p in st.pgs
    ensures HeldByBundles(st, p, |st.pgs[p].assignment|, agent, g) <==> exists i: nat :: BundleHolds(st, p, i, agent, g)
  {
  }

  lemma BundlesMore(st: State, p: PgId, k: nat, agent: AgentId, g: nat)
    ensures HeldByBundles(st, p, k + 1, agent, g) <==> HeldByBundles(st, p, k, agent, g) || BundleHolds(st, p, k, agent, g)
  {
  }

  lemma ActorsMore(st: State, ids: seq<ActorId>, k: nat, agent: AgentId, g: nat)
    requires k < |ids|
    ensures HeldByActors(st, ids, k + 1, agent, g) <==>
            HeldByActors(st, ids, k, agent, g) || ActorHolds(st, ids[k], agent, g)
  {
    if HeldByActors(st, ids, k + 1, agent, g) {
      var j :| 0 <= j < k + 1 && ActorHolds(st, ids[j], agent, g);
    }
  }

  lemma AllHolders(st: State, pgs: seq<PgId>, actors: seq<ActorId>, agent: AgentId, g: nat)
    requires (forall p :: p in pgs <==> p in st.pgs) && (forall a :: a in actors <==> a in st.actors)
    ensures HeldByGroups(st, pgs, |pgs|, agent, g) || HeldByActors(st, actors, |actors|, agent, g) <==> Held(st, agent, g)
  {
    if p, i :| BundleHolds(st, p, i, agent, g) {
      var j :| 0 <= j < |pgs| && pgs[j] == p;
      assert BundleHolds(st, pgs[j], i, agent, g);
    }
    if a :| ActorHolds(st, a, agent, g) {
      var j :| 0 <= j < |actors| && actors[j] == a;
      assert ActorHolds(st, actors[j], agent, g);
    }
  }

  /** The bundles of one group on the agent, taken out of the list. */
  method DropGroup(st: State, p: PgId, agent: AgentId, gpus: seq<nat>, ghost held: set<nat>, free: seq<nat>)
    returns (rest: seq<nat>, ghost held': set<nat>)
    requires p in st.pgs && !st.pgs[p].state.Removed? && free == Without(gpus, held)
    ensures rest == Without(gpus, held')
    ensures forall g :: g in held' <==> g in held || exists i: nat :: BundleHolds(st, p, i, agent, g)
  {
    rest, held' := free, held;
    var pg := st.pgs[p];
    for i := 0 to |pg.assignment|
      invariant rest == Without(gpus, held')
      invariant forall g :: g in held' <==> g in held || HeldByBundles(st, p, i, agent, g)
    {
      forall g ensures HeldByBundles(st, p, i + 1, agent, g) <==> HeldByBundles(st, p, i, agent, g) || BundleHolds(st, p, i, agent, g) {
        BundlesMore(st, p, i, agent, g);
      }
      if pg.assignment[i].Some? && pg.assignment[i].value.agent == agent {
        var ids := SetOf(pg.assignment[i].value.gpuIds);
        WithoutTwice(gpus, held', ids);
        rest := Without(rest, ids);
        held' := held' + ids;
      }
    }
    forall g ensures HeldByBundles(st, p, |pg.assignment|, agent, g) <==> exists i: nat :: BundleHolds(st, p, i, agent, g) {
      BundlesAll(st, p, agent, g);
    }
  }

  /** `free_gpus_of`: the agent's devices less those of every group not removed,
      less those of every live actor. */
  method FreeGpusOf(st: State, ord: Order, agent: AgentId) returns (free: seq<nat>)
    requires IsOrder(ord)
    ensures free == Free(st, agent)
  {
    if agent !in st.agents { return []; }
    var gpus := st.agents[agent].gpus;
    free := gpus;
    ghost var held: set<nat> := {};
    WithoutNone(gpus);
    var pgs := ord(st.pgs.Keys);
    for k := 0 to |pgs|
      invariant free == Without(gpus, held)
      invariant forall g :: g in held <==> HeldByGroups(st, pgs, k, agent, g)
    {
      forall g ensures HeldByGroups(st, pgs, k + 1, agent, g) <==>
                       HeldByGroups(st, pgs, k, agent, g) || exists i: nat :: BundleHolds(st, pgs[k], i, agent, g)
      {
        GroupsMore(st, pgs, k, agent, g);
      }
      if st.pgs[pgs[k]].state != Removed {
        free, held := DropGroup(st, pgs[k], agent, gpus, held, free);
      }
    }
    var actors := ord(st.actors.Keys);
    ghost var byGroups := held;
    for k := 0 to |actors|
      invariant free == Without(gpus, held)
      invariant forall g :: g in held <==> g in byGroups || HeldByActors(st, actors, k, agent, g)
    {
      forall g ensures HeldByActors(st, actors, k + 1, agent, g) <==>
                       HeldByActors(st, actors, k, agent, g) || ActorHolds(st, actors[k], agent, g)
      {
        ActorsMore(st, actors, k, agent, g);
      }
      var a := st.actors[actors[k]];
      if a.agent == agent && Live(a) {
        WithoutTwice(gpus, held, SetOf(a.gpuIds));
        free := Without(free, SetOf(a.gpuIds));
        held := held + SetOf(a.gpuIds);
      }
    }
    forall g ensures g in held <==> Held(st, agent, g) {
      AllHolders(st, pgs, actors, agent, g);
    }
    WithoutHeld(st, agent, gpus, held);
  }

  // ------------------------------------------------------- draining lists

  lemma {:induction false} FirstWithLocal(ids: seq<AgentId>, f: map<AgentId, seq<nat>>, h: map<AgentId, seq<nat>>, need: nat)
    requires forall a :: a in ids ==> (a in f <==> a in h) && (a in f ==> f[a] == h[a])
    ensures FirstWith(ids, f, need) == FirstWith(ids, h, need)
    decreases |ids|
  {
    if ids != [] { FirstWithLocal(ids[1..], f, h, need); }
  }

  /** Only the hosts' own lists matter. */
  lemma {:induction false} DrawLocal(f: map<AgentId, seq<nat>>, h: map<AgentId, seq<nat>>, bundles: seq<nat>,
                                     hosts: seq<seq<AgentId>>, nodes: map<AgentId, NodeId>, envs: seq<RankEnv>)
    requires |hosts| == |envs| == |bundles|
    requires forall i, a :: 0 <= i < |hosts| && a in hosts[i] ==> (a in f <==> a in h) && (a in f ==> f[a] == h[a])
    ensures Draw(f, bundles, hosts, nodes, envs) == Draw(h, bundles, hosts, nodes, envs)
    decreases |bundles|
  {
    if bundles != [] {
      var need := Need(bundles[0]);
      FirstWithLocal(hosts[0], f, h, need);
      var a := FirstWith(hosts[0], f, need);
      if a.Some? {
        assert forall i, x :: 0 <= i < |hosts[1..]| && x in hosts[1..][i] ==> x in hosts[i + 1];
        DrawLocal(f[a.value := f[a.value][need..]], h[a.value := h[a.value][need..]], bundles[1..], hosts[1..], nodes, envs[1..]);
      }
    }
  }

  function After(out: seq<Bundle>, rest: Option<seq<Bundle>>): Option<seq<Bundle>> {
    if rest.None? then None else Some(out + rest.value)
  }

  /** Each bundle on the first of its hosts with enough left, its devices taken
      from the front of that host's list. */
  method DrainBundles(start: map<AgentId, seq<nat>>, bundles: seq<nat>, hosts: seq<seq<AgentId>>,
                      nodes: map<AgentId, NodeId>, envs: seq<RankEnv>) returns (r: Option<seq<Bundle>>)
    requires |hosts| == |envs| == |bundles|
    ensures r == Draw(start, bundles, hosts, nodes, envs)
  {
    var free, out := start, [];
    assert bundles[0..] == bundles && hosts[0..] == hosts && envs[0..] == envs;
    assert forall s: seq<Bundle> :: [] + s == s;
    for i := 0 to |bundles|
      invariant Draw(start, bundles, hosts, nodes, envs) == After(out, Draw(free, bundles[i..], hosts[i..], nodes, envs[i..]))
    {
      var need := Need(bundles[i]);
      var j := 0;
      while j < |hosts[i]| && !(hosts[i][j] in free && |free[hosts[i][j]]| >= need)
        invariant 0 <= j <= |hosts[i]|
        invariant FirstWith(hosts[i], free, need) == FirstWith(hosts[i][j..], free, need)
      {
        j := j + 1;
      }
      if j == |hosts[i]| { return None; }
      var a := hosts[i][j];
      assert FirstWith(hosts[i], free, need) == Some(a);
      var b := Bundle(a, if a in nodes then nodes[a] else 0, free[a][..need], envs[i]);
      DrawNext(free, bundles, hosts, nodes, envs, i, a, b, out);
      out := out + [b];
      free := free[a := free[a][need..]];
    }
    assert Draw(free, bundles[|bundles|..], hosts[|bundles|..], nodes, envs[|bundles|..]) == Some([]);
    assert out + [] == out;
    return Some(out);
  }

  lemma DrawNext(free: map<AgentId, seq<nat>>, bundles: seq<nat>, hosts: seq<seq<AgentId>>, nodes: map<AgentId, NodeId>,
                 envs: seq<RankEnv>, i: nat, a: AgentId, b: Bundle, out: seq<Bundle>)
    requires |hosts| == |envs| == |bundles| && i < |bundles| && a in free && |free[a]| >= Need(bundles[i])
    requires FirstWith(hosts[i], free, Need(bundles[i])) == Some(a)
    requires b == Bundle(a, if a in nodes then nodes[a] else 0, free[a][..Need(bundles[i])], envs[i])
    ensures After(out, Draw(free, bundles[i..], hosts[i..], nodes, envs[i..])) ==
            After(out + [b], Draw(free[a := free[a][Need(bundles[i])..]], bundles[i + 1..], hosts[i + 1..], nodes, envs[i + 1..]))
  {
    var rest := Draw(free[a := free[a][Need(bundles[i])..]], bundles[i + 1..], hosts[i + 1..], nodes, envs[i + 1..]);
    assert bundles[i..][1..] == bundles[i + 1..] && hosts[i..][1..] == hosts[i + 1..] && envs[i..][1..] == envs[i + 1..];
    if rest.Some? {
      assert out + ([b] + rest.value) == out + [b] + rest.value;
    }
  }

  /** The free lists of some agents. */
  method FreeLists(st: State, ord: Order, hosts: seq<AgentId>) returns (free: map<AgentId, seq<nat>>)
    requires IsOrder(ord)
    ensures forall a :: a in free <==> a in hosts
    ensures forall a :: a in free ==> free[a] == Free(st, a)
  {
    free := map[];
    for k := 0 to |hosts|
      invariant forall a :: a in free <==> a in hosts[..k]
      invariant forall a :: a in free ==> free[a] == Free(st, a)
    {
      var f := FreeGpusOf(st, ord, hosts[k]);
      free := free[hosts[k] := f];
      assert hosts[..k + 1] == hosts[..k] + [hosts[k]];
    }
    assert hosts[..|hosts|] == hosts;
  }

  /** `fit`: first fit over one scope's agents. */
  method FitScope(st: State, ord: Order, group: Group, bundles: seq<nat>, driver: Option<NodeId>, scope: Scope)
    returns (r: Option<seq<Bundle>>)
    requires IsOrder(ord)
    ensures r == Placement.Fit(st, group, bundles, driver, scope)
  {
    var hosts := Hosts(st, group, driver, scope);
    HostsAre(st, group, driver, scope);
    var free := FreeLists(st, ord, hosts);
    DrawLocal(free, AllFree(st), bundles, Same(|bundles|, hosts), NodeMap(st), Same(|bundles|, NoEnv));
    r := DrainBundles(free, bundles, Same(|bundles|, hosts), NodeMap(st), Same(|bundles|, NoEnv));
  }

  /** The free lists of the agents of several ranks, each worked out once. */
  method RankLists(st: State, ord: Order, hosts: seq<seq<AgentId>>) returns (free: map<AgentId, seq<nat>>)
    requires IsOrder(ord)
    ensures forall i, a :: 0 <= i < |hosts| && a in hosts[i] ==> a in free
    ensures forall a :: a in free ==> free[a] == Free(st, a)
  {
    free := map[];
    for i := 0 to |hosts|
      invariant forall k, a :: 0 <= k < i && a in hosts[k] ==> a in free
      invariant forall a :: a in free ==> free[a] == Free(st, a)
    {
      var more := FreeLists(st, ord, hosts[i]);
      free := free + more;
    }
  }

  lemma RanksLocal(st: State, group: Group, ranks: seq<Member>, hosts: seq<seq<AgentId>>, free: map<AgentId, seq<nat>>)
    requires |hosts| == |ranks|
    requires forall i :: 0 <= i < |ranks| ==> hosts[i] == Hosts(st, group, None, Within({ranks[i].node}))
    requires forall i, a :: 0 <= i < |hosts| && a in hosts[i] ==> a in free
    requires forall a :: a in free ==> free[a] == Free(st, a)
    ensures forall i, a :: 0 <= i < |hosts| && a in hosts[i] ==>
              (a in free <==> a in AllFree(st)) && (a in free ==> free[a] == AllFree(st)[a])
  {
    hide Hosts, Free;
    forall i, a | 0 <= i < |hosts| && a in hosts[i]
      ensures (a in free <==> a in AllFree(st)) && (a in free ==> free[a] == AllFree(st)[a])
    {
      HostsAre(st, group, None, Within({ranks[i].node}));
    }
  }

  /** `fit_ordered`: bundle `i` on the `i`-th rank's node. */
  method FitOrdered(st: State, ord: Order, group: Group, bundles: seq<nat>, layout: Layout, ranks: seq<Member>)
    returns (r: Option<seq<Bundle>>)
    requires IsOrder(ord)
    ensures r == FitRanks(st, group, bundles, layout, ranks)
  {
    hide Hosts, Free, Draw, EnvOf, IsOrder;
    if |bundles| != |ranks| { return None; }
    var hosts := seq(|ranks|, i requires 0 <= i < |ranks| => Hosts(st, group, None, Within({ranks[i].node})));
    var envs := seq(|ranks|, i requires 0 <= i < |ranks| => EnvOf(layout, ranks[i]));
    var free := RankLists(st, ord, hosts);
    RanksLocal(st, group, ranks, hosts, free);
    DrawLocal(free, AllFree(st), bundles, hosts, NodeMap(st), envs);
    r := DrainBundles(free, bundles, hosts, NodeMap(st), envs);
  }

  // -------------------------------------------------------------- scopes

  /** Devices free on some nodes, over the group's live agents there. */
  method SumFree(st: State, ord: Order, group: Group, nodes: set<NodeId>) returns (n: nat)
    requires IsOrder(ord)
    ensures n == FreeIn(st, group, nodes)
  {
    hide IsOrder, Free;
    var hosts := Hosts(st, group, None, Within(nodes));
    HostsAre(st, group, None, Within(nodes));
    hide Hosts;
    n := 0;
    for k := 0 to |hosts|
      invariant n == FreeSum(AllFree(st), hosts[..k])
    {
      var f := FreeGpusOf(st, ord, hosts[k]);
      assert hosts[..k + 1][..k] == hosts[..k] && hosts[k] in hosts;
      n := n + |f|;
    }
    assert hosts[..|hosts|] == hosts;
  }

  method IsOptedIn(st: State, ord: Order, cfg: Config, group: Group) returns (b: bool)
    requires IsOrder(ord)
    ensures b == OptedIn(st, cfg, group)
  {
    if !cfg.islandPlacement { return false; }
    var ids := ord(st.agents.Keys);
    for k := 0 to |ids|
      invariant forall j :: 0 <= j < k ==> !(InGroup(st, group, ids[j]) && st.agents[ids[j]].node in st.tagged)
    {
      if InGroup(st, group, ids[k]) && st.agents[ids[k]].node in st.tagged { return true; }
    }
    forall a | InGroup(st, group, a) ensures st.agents[a].node !in st.tagged {
      var j :| 0 <= j < |ids| && ids[j] == a;
    }
    return false;
  }

  /** The node sets that hold enough on their own. */
  method KeepSufficient(st: State, ord: Order, group: Group, need: nat, driver: Option<NodeId>, sets: seq<seq<NodeId>>)
    returns (rs: seq<Ranked>)
    requires IsOrder(ord)
    ensures rs == Sufficient(st, group, need, driver, sets)
  {
    hide IsOrder, FreeIn;
    rs := [];
    for k := 0 to |sets|
      invariant rs == Sufficient(st, group, need, driver, sets[..k])
    {
      assert sets[..k + 1][..k] == sets[..k];
      var n := SumFree(st, ord, group, SetOf(sets[k]));
      if n >= need {
        rs := rs + [Ranked(AwayFrom(driver, sets[k]), sets[k])];
      }
    }
    assert sets[..|sets|] == sets;
  }

  /** `placement_scopes`. */
  method PlacementScopes(st: State, ord: Order, cfg: Config, group: Group, bundles: seq<nat>, driver: Option<NodeId>,
                         claim: Option<Name>) returns (r: Result<seq<Scope>>)
    requires IsOrder(ord)
    ensures r == Scopes(st, cfg, group, bundles, driver, claim)
  {
    hide IsOrder, OptedIn, Sufficient;
    if claim.Some? {
      if (group, claim.value) !in st.claims { return Err; }
      var nodes := ClaimedNodes(st.claims[(group, claim.value)].view);
      return if nodes == {} || !(nodes <= ServedNodes(st, group)) then Err else Ok([Within(nodes)]);
    }
    var opted := IsOptedIn(st, ord, cfg, group);
    if |bundles| < 2 || !opted { return Ok([Anywhere]); }
    var lone := LoneNodes(st, group);
    var sets := seq(|st.islands|, i requires 0 <= i < |st.islands| => st.islands[i].nodes) +
                seq(|lone|, i requires 0 <= i < |lone| => [lone[i]]);
    var rs := KeepSufficient(st, ord, group, TotalNeed(bundles), driver, sets);
    RankedOrder();
    return if rs == [] then Err else Ok(ScopeList(Sort(rs, RankedLe)));
  }

  method FitAny(st: State, ord: Order, group: Group, bundles: seq<nat>, driver: Option<NodeId>, scopes: seq<Scope>)
    returns (r: Option<seq<Bundle>>)
    requires IsOrder(ord)
    ensures r == FitFirst(st, group, bundles, driver, scopes)
  {
    hide IsOrder;
    assert scopes[0..] == scopes;
    for k := 0 to |scopes|
      invariant FitFirst(st, group, bundles, driver, scopes) == FitFirst(st, group, bundles, driver, scopes[k..])
    {
      r := FitScope(st, ord, group, bundles, driver, scopes[k]);
      assert scopes[k..][1..] == scopes[k + 1..];
      if r.Some? { return; }
    }
    return None;
  }

  /** Where a pending group goes now. */
  method FindPlace(st: State, ord: Order, cfg: Config, pg: Pg) returns (r: Option<seq<Bundle>>)
    requires IsOrder(ord)
    ensures r == PlaceFor(st, cfg, pg)
  {
    hide IsOrder, Scopes, FitFirst, FitRanks, ClaimOrder;
    var driver := DriverNode(st, pg.owner);
    match ClaimOrder(st, pg.group, pg.claim, driver)
    case Refused => return None;
    case InOrderOf(s, ranks) => r := FitOrdered(st, ord, pg.group, pg.bundles, s.layout, ranks);
    case NotOrdered =>
      var scopes := PlacementScopes(st, ord, cfg, pg.group, pg.bundles, driver, pg.claim);
      if scopes.Err? { return None; }
      r := FitAny(st, ord, pg.group, pg.bundles, driver, scopes.value);
  }
}
