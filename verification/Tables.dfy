/** The head daemon's tables, the devices they leave free, and first-fit
    placement of a group's bundles over free devices. */
module Tables {
  import opened Basics
  import Islands
  import opened Topology
  import opened Chains
  import opened Solver

  type AgentId = nat
  type ActorId = nat
  type PgId = nat
  type ClientId = nat
  type Group = nat

  /** A call's handle: the actor it was made on and a number. */
  datatype RefId = RefId(actor: ActorId, n: nat)

  /** Each registration takes the next `seqNo` and brings its own connection,
      so the number names the connection too. */
  datatype Agent = Agent(
    group: Group, node: NodeId, gpus: seq<nat>, alive: bool,
    lostAt: Option<nat>, goneSince: Option<nat>, seqNo: nat)

  datatype ActorState = Spawning | Running | Dead(atMs: nat)

  datatype Call = Call(ref: RefId, body: nat)

  /** `madeIn` records the group an actor was created in, None for an adopted
      one. It is history: no decision reads it. */
  datatype Actor = Actor(
    name: Name, group: Group, agent: AgentId, node: NodeId, gpuIds: seq<nat>,
    owner: ClientId, state: ActorState, queued: seq<Call>, madeIn: Option<PgId>)

  datatype PgState = Pending | Created | Removed

  /** A neighbour as a rank's environment names it. */
  datatype Hop = Hop(addr: Addr, iface: Option<nat>)

  datatype RankEnv = NoEnv | Neighbours(layout: Layout, prev: Option<Hop>, next: Option<Hop>)

  datatype Bundle = Bundle(agent: AgentId, node: NodeId, gpuIds: seq<nat>, env: RankEnv)

  datatype Pg = Pg(
    group: Group, owner: ClientId, bundles: seq<nat>, claim: Option<Name>,
    assignment: seq<Option<Bundle>>, state: PgState, createdMs: nat, removedMs: Option<nat>)

  datatype RefState = Waiting | Ready(ok: bool, payload: seq<nat>) | ActorDied

  datatype Ref = Ref(state: RefState, actor: ActorId, owner: ClientId)

  datatype Client = Client(group: Group, node: NodeId, hasSession: bool)

  datatype Claim = Claim(req: Request, view: Solution, generation: nat, holders: set<ClientId>)

  datatype HeadMsg =
    | Spawn(actor: ActorId, name: Name, owner: ClientId, gpuIds: seq<nat>)
    | Dispatch(actor: ActorId, call: Call)
    | Kill(actor: ActorId)

  /** A frame written to an agent's connection. */
  datatype Sent = Sent(agent: AgentId, conn: nat, msg: HeadMsg)

  datatype Config = Config(
    graceMs: nat, pgTimeoutMs: nat, deadAfterMs: nat, keepMs: nat, islandPlacement: bool)

  /** Everything the head holds. `sent`, `accepted` and `failed` are history:
      the frames written, the calls accepted and the connections on which a call
      did not go out. No decision reads them. */
  datatype State = State(
    agents: map<AgentId, Agent>,
    actors: map<ActorId, Actor>,
    pgs: map<PgId, Pg>,
    refs: map<RefId, Ref>,
    clients: map<ClientId, Client>,
    claims: map<(Group, Name), Claim>,
    claimGeneration: nat,
    reapPending: map<ClientId, nat>,
    nextReap: nat,
    nextSeq: nat,
    nextRef: nat,
    headSince: Option<nat>,
    islands: seq<Islands.Island>,
    tagged: set<NodeId>,
    sent: seq<Sent>,
    accepted: seq<RefId>,
    failed: set<nat>)

  /** A daemon that just became head, at time `now`. */
  function Fresh(now: nat): State {
    State(map[], map[], map[], map[], map[], map[], 0, map[], 1, 1, 1, Some(now), [], {}, [], [], {})
  }

  /** The order a hash map is walked in: any order of its keys. */
  type Order = set<nat> -> seq<nat>

  ghost predicate IsOrder(ord: Order) {
    forall s :: NoDup(ord(s)) && forall x :: x in ord(s) <==> x in s
  }

  predicate Live(a: Actor) {
    !a.state.Dead?
  }

  // ---------------------------------------------------------- free devices

  /** Bundle `i` of a group that is not removed reserves device `g` of `agent`. */
  predicate BundleHolds(st: State, p: PgId, i: nat, agent: AgentId, g: nat) {
    p in st.pgs && !st.pgs[p].state.Removed? && i < |st.pgs[p].assignment| &&
    st.pgs[p].assignment[i].Some? &&
    st.pgs[p].assignment[i].value.agent == agent && g in st.pgs[p].assignment[i].value.gpuIds
  }

  /** A live actor holds device `g` of `agent`. */
  predicate ActorHolds(st: State, a: ActorId, agent: AgentId, g: nat) {
    a in st.actors && Live(st.actors[a]) && st.actors[a].agent == agent && g in st.actors[a].gpuIds
  }

  ghost predicate Held(st: State, agent: AgentId, g: nat) {
    (exists p, i :: BundleHolds(st, p, i, agent, g)) || (exists a :: ActorHolds(st, a, agent, g))
  }

  ghost function FilterFree(st: State, agent: AgentId, gpus: seq<nat>): (r: seq<nat>)
    ensures forall g :: g in r <==> g in gpus && !Held(st, agent, g)
    ensures NoDup(gpus) ==> NoDup(r)
    ensures |r| <= |gpus|
  {
    if gpus == [] then []
    else
      var n := |gpus| - 1;
      var rest := FilterFree(st, agent, gpus[..n]);
      assert NoDup(gpus) ==> gpus[n] !in gpus[..n];
      if Held(st, agent, gpus[n]) then rest else rest + [gpus[n]]
  }

  /** The devices of an agent that no live group or actor holds. */
  ghost function Free(st: State, agent: AgentId): (r: seq<nat>)
    ensures forall g :: g in r ==> !Held(st, agent, g)
  {
    if agent in st.agents then FilterFree(st, agent, st.agents[agent].gpus) else []
  }

  ghost function AllFree(st: State): map<AgentId, seq<nat>> {
    map a | a in st.agents :: Free(st, a)
  }

  /** Agents report each device once. */
  ghost predicate DistinctGpus(st: State) {
    forall a :: a in st.agents ==> NoDup(st.agents[a].gpus)
  }

  // ------------------------------------------------------------- first fit

  /** Devices a bundle asks for: at least one. */
  function Need(bundle: nat): nat {
    if bundle == 0 then 1 else bundle
  }

  /** The first of `ids` with enough left. */
  function FirstWith(ids: seq<AgentId>, free: map<AgentId, seq<nat>>, need: nat): (r: Option<AgentId>)
    ensures r.Some? ==> r.value in ids && r.value in free && |free[r.value]| >= need
    ensures r.None? ==> forall a :: a in ids && a in free ==> |free[a]| < need
  {
    if ids == [] then None
    else if ids[0] in free && |free[ids[0]]| >= need then Some(ids[0])
    else FirstWith(ids[1..], free, need)
  }

  /** Place each bundle in turn on the first of its hosts with enough left,
      draining that host's list from the front. */
  function Draw(free: map<AgentId, seq<nat>>, bundles: seq<nat>, hosts: seq<seq<AgentId>>,
                nodes: map<AgentId, NodeId>, envs: seq<RankEnv>): (r: Option<seq<Bundle>>)
    requires |hosts| == |envs| == |bundles|
    ensures r.Some? ==> |r.value| == |bundles|
    decreases |bundles|
  {
    if bundles == [] then Some([])
    else
      var need := Need(bundles[0]);
      var a := FirstWith(hosts[0], free, need);
      if a.None? then None
      else
        var rest := Draw(free[a.value := free[a.value][need..]], bundles[1..], hosts[1..], nodes, envs[1..]);
        if rest.None? then None
        else
          Some([Bundle(a.value, if a.value in nodes then nodes[a.value] else 0,
                       free[a.value][..need], envs[0])] + rest.value)
  }

  /** Bundles drawn from free lists: the right sizes, from the right lists, and
      no device twice. */
  ghost predicate Drawn(free: map<AgentId, seq<nat>>, bundles: seq<nat>, hosts: seq<seq<AgentId>>, bs: seq<Bundle>)
    requires |hosts| == |bundles|
  {
    |bs| == |bundles| &&
    (forall i :: 0 <= i < |bs| ==>
       bs[i].agent in hosts[i] && bs[i].agent in free &&
       |bs[i].gpuIds| == Need(bundles[i]) && NoDup(bs[i].gpuIds) &&
       forall g :: g in bs[i].gpuIds ==> g in free[bs[i].agent]) &&
    (forall i, j, g :: 0 <= i < j < |bs| && bs[i].agent == bs[j].agent && g in bs[i].gpuIds ==> g !in bs[j].gpuIds)
  }

  lemma Halves(s: seq<nat>, k: nat)
    requires NoDup(s) && k <= |s|
    ensures NoDup(s[..k]) && NoDup(s[k..]) && forall g :: g in s[..k] ==> g !in s[k..]
    ensures forall g :: g in s[..k] || g in s[k..] ==> g in s
  {
  }

  lemma {:induction false} DrawIsDrawn(free: map<AgentId, seq<nat>>, bundles: seq<nat>, hosts: seq<seq<AgentId>>,
                                       nodes: map<AgentId, NodeId>, envs: seq<RankEnv>)
    requires |hosts| == |envs| == |bundles|
    requires forall a :: a in free ==> NoDup(free[a])
    ensures Draw(free, bundles, hosts, nodes, envs).Some? ==>
              Drawn(free, bundles, hosts, Draw(free, bundles, hosts, nodes, envs).value)
    decreases |bundles|
  {
    if bundles != [] && Draw(free, bundles, hosts, nodes, envs).Some? {
      var need := Need(bundles[0]);
      var a := FirstWith(hosts[0], free, need).value;
      Halves(free[a], need);
      var free' := free[a := free[a][need..]];
      DrawIsDrawn(free', bundles[1..], hosts[1..], nodes, envs[1..]);
      var rest := Draw(free', bundles[1..], hosts[1..], nodes, envs[1..]).value;
      var bs := Draw(free, bundles, hosts, nodes, envs).value;
      assert bs[0].gpuIds == free[a][..need] && bs[1..] == rest;
      DrawnCons(free, a, need, bundles, hosts, bs);
    }
  }

  lemma DrawnCons(free: map<AgentId, seq<nat>>, a: AgentId, need: nat, bundles: seq<nat>,
                  hosts: seq<seq<AgentId>>, bs: seq<Bundle>)
    requires |hosts| == |bundles| == |bs| && bundles != []
    requires a in free && a in hosts[0] && need == Need(bundles[0]) <= |free[a]| && NoDup(free[a])
    requires bs[0].agent == a && bs[0].gpuIds == free[a][..need]
    requires Drawn(free[a := free[a][need..]], bundles[1..], hosts[1..], bs[1..])
    ensures Drawn(free, bundles, hosts, bs)
  {
    Halves(free[a], need);
    var free' := free[a := free[a][need..]];
    forall i | 1 <= i < |bs|
      ensures bs[i].agent in hosts[i] && bs[i].agent in free
      ensures |bs[i].gpuIds| == Need(bundles[i]) && NoDup(bs[i].gpuIds)
      ensures forall g :: g in bs[i].gpuIds ==> g in free[bs[i].agent] && g in free'[bs[i].agent]
    {
      assert bs[i] == bs[1..][i - 1] && hosts[i] == hosts[1..][i - 1] && bundles[i] == bundles[1..][i - 1];
    }
    forall i, j, g | 0 <= i < j < |bs| && bs[i].agent == bs[j].agent && g in bs[i].gpuIds
      ensures g !in bs[j].gpuIds
    {
      if i == 0 {
        assert g !in free'[a];
      } else {
        assert bs[i] == bs[1..][i - 1] && bs[j] == bs[1..][j - 1];
      }
    }
  }

  // ------------------------------------------ first fit of equal bundles

  /** How many bundles of `need` devices the lists can hold. */
  ghost function Capacity(ids: seq<AgentId>, free: map<AgentId, seq<nat>>, need: nat): nat
    requires need > 0
  {
    if ids == [] then 0
    else
      var n := |ids| - 1;
      Capacity(ids[..n], free, need) + if ids[n] in free then |free[ids[n]]| / need else 0
  }

  lemma {:induction false} CapacityDrop(ids: seq<AgentId>, free: map<AgentId, seq<nat>>, need: nat, a: AgentId)
    requires need > 0 && NoDup(ids) && a in free && |free[a]| >= need
    ensures Capacity(ids, free[a := free[a][need..]], need) ==
            Capacity(ids, free, need) - if a in ids then 1 else 0
    decreases |ids|
  {
    if ids != [] {
      var n := |ids| - 1;
      DropLast(ids);
      CapacityDrop(ids[..n], free, need, a);
      if ids[n] == a {
        OneFewer(|free[a]|, need);
      }
    }
  }

  lemma MulMono(k: nat, a: nat, b: nat)
    requires a <= b
    ensures k * a <= k * b
  {
  }

  lemma Quotient(f: nat, need: nat, q: nat)
    requires need > 0 && need * q <= f < need * q + need
    ensures f / need == q
  {
    var k := f / need;
    assert need * k <= f < need * k + need;
    if k + 1 <= q {
      MulMono(need, k + 1, q);
    } else if q + 1 <= k {
      MulMono(need, q + 1, k);
    }
  }

  lemma OneFewer(f: nat, need: nat)
    requires 0 < need <= f
    ensures f / need == (f - need) / need + 1
  {
    var q := (f - need) / need;
    assert need * q <= f - need < need * q + need;
    assert need * (q + 1) == need * q + need;
    Quotient(f, need, q + 1);
  }

  lemma {:induction false} CapacityZero(ids: seq<AgentId>, free: map<AgentId, seq<nat>>, need: nat)
    requires need > 0 && forall a :: a in ids && a in free ==> |free[a]| < need
    ensures Capacity(ids, free, need) == 0
    decreases |ids|
  {
    if ids != [] {
      CapacityZero(ids[..|ids| - 1], free, need);
      assert ids[|ids| - 1] in ids;
    }
  }

  predicate AllEqual(bundles: seq<nat>) {
    forall i, j :: 0 <= i < |bundles| && 0 <= j < |bundles| ==> bundles[i] == bundles[j]
  }

  /** First fit of equal bundles over the same hosts fails only when there are
      more bundles than the lists can hold. */
  lemma {:induction false} FirstFitIsFull(free: map<AgentId, seq<nat>>, bundles: seq<nat>, ids: seq<AgentId>,
                                          hosts: seq<seq<AgentId>>, nodes: map<AgentId, NodeId>, envs: seq<RankEnv>, need: nat)
    requires |hosts| == |envs| == |bundles| && NoDup(ids) && need > 0
    requires forall i :: 0 <= i < |bundles| ==> hosts[i] == ids && Need(bundles[i]) == need
    requires Draw(free, bundles, hosts, nodes, envs).None?
    ensures Capacity(ids, free, need) < |bundles|
    decreases |bundles|
  {
    var a := FirstWith(ids, free, need);
    if a.None? {
      CapacityZero(ids, free, need);
    } else {
      var free' := free[a.value := free[a.value][need..]];
      FirstFitIsFull(free', bundles[1..], ids, hosts[1..], nodes, envs[1..], need);
      CapacityDrop(ids, free, need, a.value);
    }
  }

  /** Devices that a choice of hosts asks of one agent. */
  ghost function Load(bundles: seq<nat>, host: seq<AgentId>, a: AgentId): nat
    requires |host| == |bundles|
  {
    if host == [] then 0
    else
      var n := |host| - 1;
      Load(bundles[..n], host[..n], a) + if host[n] == a then Need(bundles[n]) else 0
  }

  predicate InGroup(st: State, group: Group, a: AgentId) {
    a in st.agents && st.agents[a].alive && st.agents[a].group == group
  }

  ghost predicate HostsFit(st: State, group: Group, bundles: seq<nat>, host: seq<AgentId>) {
    |host| == |bundles| &&
    (forall i :: 0 <= i < |host| ==> InGroup(st, group, host[i])) &&
    (forall a :: a in st.agents ==> Load(bundles, host, a) <= |Free(st, a)|)
  }

  /** The bundles fit the free devices of the group's live agents: some choice
      of a host for each bundle asks of no agent more than it has free. */
  ghost predicate Fits(st: State, group: Group, bundles: seq<nat>) {
    exists host :: HostsFit(st, group, bundles, host)
  }

  ghost function CountOf(host: seq<AgentId>, a: AgentId): nat {
    if host == [] then 0
    else CountOf(host[..|host| - 1], a) + if host[|host| - 1] == a then 1 else 0
  }

  ghost function Counted(ids: seq<AgentId>, host: seq<AgentId>): nat {
    if ids == [] then 0
    else Counted(ids[..|ids| - 1], host) + CountOf(host, ids[|ids| - 1])
  }

  lemma {:induction false} CountedPush(ids: seq<AgentId>, host: seq<AgentId>, x: AgentId)
    requires NoDup(ids)
    ensures Counted(ids, host + [x]) == Counted(ids, host) + if x in ids then 1 else 0
    decreases |ids|
  {
    if ids != [] {
      DropLast(ids);
      CountedPush(ids[..|ids| - 1], host, x);
      assert (host + [x])[..|host|] == host;
    }
  }

  lemma {:induction false} CountedAll(ids: seq<AgentId>, host: seq<AgentId>)
    requires NoDup(ids) && forall i :: 0 <= i < |host| ==> host[i] in ids
    ensures Counted(ids, host) == |host|
    decreases |host|
  {
    if host == [] {
      CountedNone(ids);
    } else {
      var n := |host| - 1;
      assert host == host[..n] + [host[n]];
      CountedAll(ids, host[..n]);
      CountedPush(ids, host[..n], host[n]);
    }
  }

  lemma {:induction false} CountedNone(ids: seq<AgentId>)
    ensures Counted(ids, []) == 0
    decreases |ids|
  {
    if ids != [] { CountedNone(ids[..|ids| - 1]); }
  }

  lemma {:induction false} LoadOfEqual(bundles: seq<nat>, host: seq<AgentId>, a: AgentId, need: nat)
    requires |host| == |bundles| && forall i :: 0 <= i < |bundles| ==> Need(bundles[i]) == need
    ensures Load(bundles, host, a) == need * CountOf(host, a)
    decreases |host|
  {
    if host != [] {
      LoadOfEqual(bundles[..|host| - 1], host[..|host| - 1], a, need);
    }
  }

  lemma AtMost(need: nat, c: nat, f: nat)
    requires need > 0 && need * c <= f
    ensures c <= f / need
  {
    var q := f / need;
    assert f < need * (q + 1);
    if q + 1 <= c {
      MulMono(need, q + 1, c);
    }
  }

  lemma {:induction false} CountWithinCapacity(st: State, bundles: seq<nat>, host: seq<AgentId>, ids: seq<AgentId>, need: nat)
    requires |host| == |bundles| && need > 0
    requires forall i :: 0 <= i < |bundles| ==> Need(bundles[i]) == need
    requires forall a :: a in ids ==> a in st.agents && Load(bundles, host, a) <= |Free(st, a)|
    ensures Counted(ids, host) <= Capacity(ids, AllFree(st), need)
    decreases |ids|
  {
    if ids != [] {
      var n := |ids| - 1;
      CountWithinCapacity(st, bundles, host, ids[..n], need);
      LoadOfEqual(bundles, host, ids[n], need);
      assert ids[n] in ids;
      AtMost(need, CountOf(host, ids[n]), |Free(st, ids[n])|);
    }
  }

  /** First fit is complete for equal bundles: if it finds no place over all the
      group's live agents, the bundles do not fit at all. */
  lemma FirstFitComplete(st: State, group: Group, bundles: seq<nat>, ids: seq<AgentId>,
                         hosts: seq<seq<AgentId>>, nodes: map<AgentId, NodeId>, envs: seq<RankEnv>)
    requires |hosts| == |envs| == |bundles| && NoDup(ids) && AllEqual(bundles)
    requires forall a :: a in ids <==> InGroup(st, group, a)
    requires forall i :: 0 <= i < |bundles| ==> hosts[i] == ids
    requires Draw(AllFree(st), bundles, hosts, nodes, envs).None?
    ensures !Fits(st, group, bundles)
  {
    var need := Need(bundles[0]);
    FirstFitIsFull(AllFree(st), bundles, ids, hosts, nodes, envs, need);
    forall host | HostsFit(st, group, bundles, host) ensures false {
      CountedAll(ids, host);
      CountWithinCapacity(st, bundles, host, ids, need);
    }
  }

  const TWO_AGENTS: map<AgentId, seq<nat>> := map[1 := [0, 1], 2 := [0]]

  /** With unequal bundles first fit can miss: a small bundle placed first can
      take the room that only a large one needed. */
  lemma FirstFitMissesUnequal()
    ensures Draw(TWO_AGENTS, [1, 2], [[1, 2], [1, 2]], map[], [NoEnv, NoEnv]).None?
    ensures forall a :: a in TWO_AGENTS ==> Load([1, 2], [2, 1], a) <= |TWO_AGENTS[a]|
  {
    var free := TWO_AGENTS;
    var ids: seq<AgentId> := [1, 2];
    assert ids[1..] == [2] && ids[1..][1..] == [];
    assert FirstWith(ids, free, 1) == Some(1);
    var free' := free[1 := free[1][1..]];
    assert FirstWith([2], free', 2) == None && FirstWith(ids, free', 2) == None;
    assert [1, 2][1..] == [2] && [ids, ids][1..] == [ids] && [NoEnv, NoEnv][1..] == [NoEnv];
    assert Draw(free', [2], [ids], map[], [NoEnv]).None?;
    assert [1, 2][..1] == [1] && [2, 1][..1] == [2];
    assert Load([1], [2], 1) == 0 && Load([1], [2], 2) == 1;
    assert Load([1, 2], [2, 1], 1) == 2 && Load([1, 2], [2, 1], 2) == 1;
  }
}
