/** When a claim for one mesh set is solved: exactly when nodes with room can be listed in
    order, and the first such list has an address to bind on every node. */
module Meshes {
  import opened Basics
  import opened Topology
  import opened Chains
  import opened Solver
  import opened Claims

  // --------------------------------------------------------- picking in order

  /** `at` gives places in the list, going up, one for each of the first bundles, each of
      a node not taken that has room for its bundle. */
  ghost predicate Places(t: Net, s: SetReq, taken: set<NodeId>, nodes: seq<NodeId>, at: seq<nat>) {
    |at| <= |s.bundles| && (forall i, j :: 0 <= i < j < |at| ==> at[i] < at[j]) &&
    forall i :: 0 <= i < |at| ==> at[i] < |nodes| && nodes[at[i]] !in taken && FreeAt(t, nodes[at[i]]) >= s.bundles[i]
  }

  function NodesAt(nodes: seq<NodeId>, at: seq<nat>): (r: seq<NodeId>)
    requires forall i :: 0 <= i < |at| ==> at[i] < |nodes|
    ensures |r| == |at| && forall i :: 0 <= i < |at| ==> r[i] == nodes[at[i]]
  {
    seq(|at|, i requires 0 <= i < |at| => nodes[at[i]])
  }

  /** The first such places: each as early as in any other. */
  ghost predicate FirstPlaces(t: Net, s: SetReq, taken: set<NodeId>, nodes: seq<NodeId>, at: seq<nat>) {
    Places(t, s, taken, nodes, at) &&
    forall other :: Places(t, s, taken, nodes, other) ==>
      |other| <= |at| && forall i :: 0 <= i < |other| ==> at[i] <= other[i]
  }

  lemma PlacesDrop(t: Net, s: SetReq, taken: set<NodeId>, nodes: seq<NodeId>, other: seq<nat>)
    requires nodes != [] && Places(t, s, taken, nodes, other)
    ensures var n := |nodes| - 1;
            if other != [] && other[|other| - 1] == n then Places(t, s, taken, nodes[..n], other[..|other| - 1])
            else Places(t, s, taken, nodes[..n], other)
  {
    var n := |nodes| - 1;
    if other != [] && other[|other| - 1] == n {
      assert forall i :: 0 <= i < |other| - 1 ==> other[i] < n;
    } else if other != [] {
      assert forall i :: 0 <= i < |other| - 1 ==> other[i] < other[|other| - 1];
    }
  }

  /** Places in a longer list are no earlier, nor more, than the first of the shorter one
      with the last node added if it suits. */
  lemma NoneEarlier(t: Net, s: SetReq, taken: set<NodeId>, nodes: seq<NodeId>, before: seq<nat>, at: seq<nat>, other: seq<nat>)
    requires nodes != [] && FirstPlaces(t, s, taken, nodes[..|nodes| - 1], before) && Places(t, s, taken, nodes, other)
    requires var n := |nodes| - 1;
             at == if |before| < |s.bundles| && nodes[n] !in taken && FreeAt(t, nodes[n]) >= s.bundles[|before|] then before + [n]
                   else before
    ensures |other| <= |at| && forall i :: 0 <= i < |other| ==> at[i] <= other[i]
  {
    hide Places, FreeAt;
    var n := |nodes| - 1;
    PlacesDrop(t, s, taken, nodes, other);
    if other != [] && other[|other| - 1] == n {
      var k := |other| - 1;
      var shorter := other[..k];
      PlaceSuits(t, s, taken, nodes, other, k);
      if k < |before| {
        PlaceSuits(t, s, taken, nodes[..n], before, k);
      }
      forall i | 0 <= i < |other| ensures i < |at| && at[i] <= other[i] {
        if i < k { assert before[i] <= shorter[i]; }
      }
    }
  }

  lemma PlaceSuits(t: Net, s: SetReq, taken: set<NodeId>, nodes: seq<NodeId>, at: seq<nat>, i: nat)
    requires Places(t, s, taken, nodes, at) && i < |at|
    ensures |at| <= |s.bundles| && at[i] < |nodes| && nodes[at[i]] !in taken && FreeAt(t, nodes[at[i]]) >= s.bundles[i]
  {
  }

  lemma PlacesMore(t: Net, s: SetReq, taken: set<NodeId>, nodes: seq<NodeId>, before: seq<nat>)
    requires nodes != [] && Places(t, s, taken, nodes[..|nodes| - 1], before)
    ensures Places(t, s, taken, nodes, before)
    ensures var n := |nodes| - 1;
            |before| < |s.bundles| && nodes[n] !in taken && FreeAt(t, nodes[n]) >= s.bundles[|before|] ==>
              Places(t, s, taken, nodes, before + [n])
  {
  }

  lemma PlacesBelow(t: Net, s: SetReq, taken: set<NodeId>, nodes: seq<NodeId>, at: seq<nat>)
    requires Places(t, s, taken, nodes, at)
    ensures |at| <= |s.bundles| && forall i :: 0 <= i < |at| ==> at[i] < |nodes|
  {
  }

  lemma NoPlaces(t: Net, s: SetReq, taken: set<NodeId>)
    ensures FirstPlaces(t, s, taken, [], [])
  {
    forall other | Places(t, s, taken, [], other) ensures |other| <= 0 {
      PlacesFew(t, s, taken, [], other);
    }
  }

  /** No more places than nodes. */
  lemma PlacesFew(t: Net, s: SetReq, taken: set<NodeId>, nodes: seq<NodeId>, at: seq<nat>)
    requires Places(t, s, taken, nodes, at)
    ensures |at| <= |nodes|
  {
    if at != [] { GrowsAbove(at, |at| - 1); }
  }

  lemma {:induction false} GrowsAbove(at: seq<nat>, i: nat)
    requires (forall j, k :: 0 <= j < k < |at| ==> at[j] < at[k]) && i < |at|
    ensures at[i] >= i
    decreases i
  {
    if i > 0 { GrowsAbove(at, i - 1); }
  }

  /** Taking each node that suits, the picker takes the first places there are. */
  lemma {:induction false} PickIsFirst(t: Net, s: SetReq, taken: set<NodeId>, nodes: seq<NodeId>) returns (at: seq<nat>)
    ensures FirstPlaces(t, s, taken, nodes, at) && NodesAt(nodes, at) == Pick(t, s, taken, nodes)
    decreases |nodes|
  {
    hide Places, FreeAt;
    at := [];
    if nodes == [] {
      NoPlaces(t, s, taken);
    } else {
      var n := |nodes| - 1;
      var before := PickIsFirst(t, s, taken, nodes[..n]);
      at := if |before| < |s.bundles| && nodes[n] !in taken && FreeAt(t, nodes[n]) >= s.bundles[|before|] then before + [n]
            else before;
      PlacesMore(t, s, taken, nodes, before);
      PlacesBelow(t, s, taken, nodes[..n], before);
      NodesMore(nodes, before);
      forall other | Places(t, s, taken, nodes, other)
        ensures |other| <= |at| && forall i :: 0 <= i < |other| ==> at[i] <= other[i]
      {
        NoneEarlier(t, s, taken, nodes, before, at, other);
      }
    }
  }

  lemma NodesMore(nodes: seq<NodeId>, at: seq<nat>)
    requires nodes != [] && forall i :: 0 <= i < |at| ==> at[i] < |nodes| - 1
    ensures var n := |nodes| - 1;
            NodesAt(nodes, at) == NodesAt(nodes[..n], at) && NodesAt(nodes, at + [n]) == NodesAt(nodes[..n], at) + [nodes[n]]
  {
  }

  /** The picker fills every bundle exactly when places for all of them exist. */
  lemma PickIsFull(t: Net, s: SetReq, taken: set<NodeId>, nodes: seq<NodeId>)
    ensures |Pick(t, s, taken, nodes)| == |s.bundles| <==>
            exists at :: Places(t, s, taken, nodes, at) && |at| == |s.bundles|
  {
    hide Pick, Places;
    var at := PickIsFirst(t, s, taken, nodes);
    FirstIsPlaces(t, s, taken, nodes, at);
    if other :| Places(t, s, taken, nodes, other) && |other| == |s.bundles| {
      FirstIsLongest(t, s, taken, nodes, at, other);
    }
  }

  lemma FirstIsPlaces(t: Net, s: SetReq, taken: set<NodeId>, nodes: seq<NodeId>, at: seq<nat>)
    requires FirstPlaces(t, s, taken, nodes, at)
    ensures Places(t, s, taken, nodes, at) && |at| <= |s.bundles|
  {
  }

  lemma FirstIsLongest(t: Net, s: SetReq, taken: set<NodeId>, nodes: seq<NodeId>, at: seq<nat>, other: seq<nat>)
    requires FirstPlaces(t, s, taken, nodes, at) && Places(t, s, taken, nodes, other)
    ensures |other| <= |at|
  {
  }

  // ------------------------------------------------------------- candidates

  /** Places for every bundle, the first there are, on the named nodes. */
  ghost predicate FirstChoice(t: Net, s: SetReq, taken: set<NodeId>, nodes: seq<NodeId>, c: seq<NodeId>) {
    exists at :: FirstPlaces(t, s, taken, nodes, at) && |at| == |s.bundles| && c == NodesAt(nodes, at)
  }

  /** Some places for every bundle. */
  ghost predicate HasPlaces(t: Net, s: SetReq, taken: set<NodeId>, nodes: seq<NodeId>) {
    exists at :: Places(t, s, taken, nodes, at) && |at| == |s.bundles|
  }

  lemma PickIsChoice(t: Net, s: SetReq, taken: set<NodeId>, nodes: seq<NodeId>)
    ensures |Pick(t, s, taken, nodes)| == |s.bundles| <==> HasPlaces(t, s, taken, nodes)
    ensures HasPlaces(t, s, taken, nodes) ==> FirstChoice(t, s, taken, nodes, Pick(t, s, taken, nodes))
  {
    hide Places, FirstPlaces;
    PickIsFull(t, s, taken, nodes);
    var at := PickIsFirst(t, s, taken, nodes);
  }

  lemma OneFirst(t: Net, s: SetReq, taken: set<NodeId>, nodes: seq<NodeId>, c: seq<NodeId>, d: seq<NodeId>)
    requires FirstChoice(t, s, taken, nodes, c) && FirstChoice(t, s, taken, nodes, d)
    ensures c == d
  {
    var x :| FirstPlaces(t, s, taken, nodes, x) && |x| == |s.bundles| && c == NodesAt(nodes, x);
    var y :| FirstPlaces(t, s, taken, nodes, y) && |y| == |s.bundles| && d == NodesAt(nodes, y);
    assert x == y;
  }

  /** The lists a mesh set is picked from, in turn: the nodes in order of their ids, or
      for a fabric set the nodes of each island. */
  function Lists(t: Net, s: SetReq): seq<seq<NodeId>> {
    if s.link == Rdma then seq(|t.islands|, k requires 0 <= k < |t.islands| => t.islands[k].nodes) else [InOrder(t.free.Keys)]
  }

  lemma {:induction false} IslandPicks(t: Net, s: SetReq, taken: set<NodeId>, k: nat)
    requires k <= |t.islands|
    ensures IslandCandidates(t, s, taken, k) == [] <==>
            forall j :: 0 <= j < k ==> !HasPlaces(t, s, taken, t.islands[j].nodes)
    ensures IslandCandidates(t, s, taken, k) != [] ==>
              exists j :: 0 <= j < k && FirstChoice(t, s, taken, t.islands[j].nodes, IslandCandidates(t, s, taken, k)[0]) &&
                          forall i :: 0 <= i < j ==> !HasPlaces(t, s, taken, t.islands[i].nodes)
  {
    hide HasPlaces, FirstChoice, Pick, Avail;
    if k > 0 {
      var before := IslandCandidates(t, s, taken, k - 1);
      IslandPicks(t, s, taken, k - 1);
      AvailPicks(t, s, taken, t.islands[k - 1].nodes);
      PickIsChoice(t, s, taken, t.islands[k - 1].nodes);
      if before != [] {
        assert IslandCandidates(t, s, taken, k)[0] == before[0];
      }
    }
  }

  /** Leaving taken nodes out beforehand changes nothing. */
  lemma {:induction false} AvailPicks(t: Net, s: SetReq, taken: set<NodeId>, nodes: seq<NodeId>)
    ensures Pick(t, s, taken, Avail(nodes, taken)) == Pick(t, s, taken, nodes)
    decreases |nodes|
  {
    if nodes != [] {
      var n := |nodes| - 1;
      AvailPicks(t, s, taken, nodes[..n]);
      AvailLast(nodes, taken);
      if nodes[n] !in taken {
        var rest := Avail(nodes[..n], taken);
        var all := rest + [nodes[n]];
        assert all[..|all| - 1] == rest && all[|all| - 1] == nodes[n];
        assert Avail(nodes, taken) == all;
        PickLast(t, s, taken, rest, nodes[n]);
      } else {
        assert Avail(nodes, taken) == Avail(nodes[..n], taken);
      }
      PickLast(t, s, taken, nodes[..n], nodes[n]);
      assert nodes[..n] + [nodes[n]] == nodes;
    }
  }

  lemma PickLast(t: Net, s: SetReq, taken: set<NodeId>, front: seq<NodeId>, x: NodeId)
    ensures var chosen := Pick(t, s, taken, front);
            Pick(t, s, taken, front + [x]) ==
              if |chosen| < |s.bundles| && Suits(t, s, taken, x, |chosen|) then chosen + [x] else chosen
  {
    var all := front + [x];
    assert all[..|all| - 1] == front && all[|all| - 1] == x;
  }

  lemma {:induction false} AvailLast(nodes: seq<NodeId>, taken: set<NodeId>)
    requires nodes != []
    ensures var n := |nodes| - 1;
            Avail(nodes, taken) == Avail(nodes[..n], taken) + if nodes[n] !in taken then [nodes[n]] else []
    decreases |nodes|
  {
    if |nodes| > 1 {
      AvailLast(nodes[1..], taken);
      assert nodes[1..][..|nodes| - 2] == nodes[..|nodes| - 1][1..];
    }
  }

  /** A mesh set has a candidate exactly when some list has places for it, and its first
      candidate is the first choice of the first such list. */
  lemma MeshCandidates(t: Net, s: SetReq, taken: set<NodeId>)
    requires s.layout == Mesh
    ensures Candidates(t, s, taken) == [] <==> forall j :: 0 <= j < |Lists(t, s)| ==> !HasPlaces(t, s, taken, Lists(t, s)[j])
    ensures Candidates(t, s, taken) != [] ==>
              exists j :: 0 <= j < |Lists(t, s)| && FirstChoice(t, s, taken, Lists(t, s)[j], Candidates(t, s, taken)[0]) &&
                          forall i :: 0 <= i < j ==> !HasPlaces(t, s, taken, Lists(t, s)[i])
  {
    hide HasPlaces, FirstChoice;
    if s.link == Rdma {
      IslandPicks(t, s, taken, |t.islands|);
      assert forall j :: 0 <= j < |t.islands| ==> Lists(t, s)[j] == t.islands[j].nodes;
    } else {
      PickIsChoice(t, s, taken, InOrder(t.free.Keys));
      assert Lists(t, s) == [InOrder(t.free.Keys)];
      assert Lists(t, s)[0] == InOrder(t.free.Keys);
    }
  }

  // ------------------------------------------------------------------ solve

  /** Member `i` has an address to bind: any, or for a fabric set a tagged one with a
      probed link to a tagged one of every other member. */
  ghost predicate CanBind(t: Net, s: SetReq, c: seq<NodeId>, i: nat)
    requires i < |c|
  {
    if s.link == Any then PortsAt(t, c[i]) != []
    else exists p :: p in PortsAt(t, c[i]) && p.rdma && ReachesAll(t, p, c[i], c)
  }

  lemma {:induction false} ReachingFound(t: Net, ports: seq<Port>, node: NodeId, peers: seq<NodeId>)
    ensures FirstReaching(t, ports, node, peers).Some? <==> exists p :: p in ports && p.rdma && ReachesAll(t, p, node, peers)
    decreases |ports|
  {
    hide ReachesAll;
    if ports != [] {
      ReachingFound(t, ports[1..], node, peers);
      assert forall p :: p in ports <==> p == ports[0] || p in ports[1..];
    }
  }

  lemma {:induction false} MeshMembers(t: Net, s: SetReq, c: seq<NodeId>, k: nat)
    requires s.layout == Mesh && k <= |c|
    ensures MembersOf(t, s, c, k).Ok? <==> forall i :: 0 <= i < k ==> CanBind(t, s, c, i)
    decreases k
  {
    hide MemberAt, CanBind;
    if k > 0 {
      MeshMembers(t, s, c, k - 1);
      MemberBinds(t, s, c, k - 1);
    }
  }

  lemma MemberBinds(t: Net, s: SetReq, c: seq<NodeId>, i: nat)
    requires s.layout == Mesh && i < |c|
    ensures MemberAt(t, s, c, i).Ok? <==> CanBind(t, s, c, i)
  {
    hide FirstReaching, ReachesAll, BestPath;
    ReachingFound(t, PortsAt(t, c[i]), c[i], c);
  }

  /** A request for one mesh set and nothing else. */
  predicate OneMesh(req: Request) {
    OneSet(req) && req.sets[0].layout == Mesh
  }

  /** The choice a mesh set gets: the first of the first list that has places. */
  ghost predicate Chosen(t: Net, s: SetReq, c: seq<NodeId>) {
    exists j :: 0 <= j < |Lists(t, s)| && FirstChoice(t, s, {}, Lists(t, s)[j], c) &&
                forall i :: 0 <= i < j ==> !HasPlaces(t, s, {}, Lists(t, s)[i])
  }

  lemma OneChosen(t: Net, s: SetReq, c: seq<NodeId>, d: seq<NodeId>)
    requires Chosen(t, s, c) && Chosen(t, s, d)
    ensures c == d
  {
    hide FirstChoice, HasPlaces;
    var i :| 0 <= i < |Lists(t, s)| && FirstChoice(t, s, {}, Lists(t, s)[i], c) &&
             forall k :: 0 <= k < i ==> !HasPlaces(t, s, {}, Lists(t, s)[k]);
    var j :| 0 <= j < |Lists(t, s)| && FirstChoice(t, s, {}, Lists(t, s)[j], d) &&
             forall k :: 0 <= k < j ==> !HasPlaces(t, s, {}, Lists(t, s)[k]);
    ChoiceHasPlaces(t, s, {}, Lists(t, s)[i], c);
    ChoiceHasPlaces(t, s, {}, Lists(t, s)[j], d);
    assert i == j;
    OneFirst(t, s, {}, Lists(t, s)[i], c, d);
  }

  lemma ChoiceHasPlaces(t: Net, s: SetReq, taken: set<NodeId>, nodes: seq<NodeId>, c: seq<NodeId>)
    requires FirstChoice(t, s, taken, nodes, c)
    ensures HasPlaces(t, s, taken, nodes)
  {
  }

  /** One mesh set is solved exactly when the first choice of nodes with room exists and
      every node of it has an address to bind. */
  lemma MeshSolvedExactly(t: Net, req: Request)
    requires OneMesh(req)
    ensures Solve(t, req).Ok? <==>
            exists c :: Chosen(t, req.sets[0], c) && forall i :: 0 <= i < |c| ==> CanBind(t, req.sets[0], c, i)
  {
    var s := req.sets[0];
    var cands := Candidates(t, s, {});
    OneSetSearch(t, req);
    MeshCandidates(t, s, {});
    hide Candidates, CanBind, FirstChoice, HasPlaces, Lists, MembersOf, SetOrder, WellNamed;
    if cands != [] {
      assert Chosen(t, s, cands[0]);
      OneSetSolves(t, req, cands[0]);
      MeshMembers(t, s, cands[0], |cands[0]|);
      forall c | Chosen(t, s, c) ensures c == cands[0] {
        OneChosen(t, s, c, cands[0]);
      }
    } else {
      forall c ensures !Chosen(t, s, c) {
        NothingChosen(t, s, c);
      }
    }
  }

  lemma NothingChosen(t: Net, s: SetReq, c: seq<NodeId>)
    requires forall j :: 0 <= j < |Lists(t, s)| ==> !HasPlaces(t, s, {}, Lists(t, s)[j])
    ensures !Chosen(t, s, c)
  {
    hide FirstChoice, HasPlaces;
    if Chosen(t, s, c) {
      var j :| 0 <= j < |Lists(t, s)| && FirstChoice(t, s, {}, Lists(t, s)[j], c);
      ChoiceHasPlaces(t, s, {}, Lists(t, s)[j], c);
    }
  }

  // ---------------------------------------------------- when addresses are there

  /** Every node has an address, and in an island every node a tagged one with probed
      links to tagged ones of all the others, as its derivation makes sure. */
  ghost predicate Addressed(t: Net, s: SetReq) {
    if s.link == Any then forall n :: n in t.free ==> PortsAt(t, n) != []
    else forall k, n :: 0 <= k < |t.islands| && n in t.islands[k].nodes ==>
           exists p :: p in PortsAt(t, n) && p.rdma && ReachesAll(t, p, n, t.islands[k].nodes)
  }

  lemma ChoiceBinds(t: Net, s: SetReq, c: seq<NodeId>, i: nat)
    requires Addressed(t, s) && Chosen(t, s, c) && i < |c|
    ensures CanBind(t, s, c, i)
  {
    hide HasPlaces;
    var j :| 0 <= j < |Lists(t, s)| && FirstChoice(t, s, {}, Lists(t, s)[j], c);
    var nodes := Lists(t, s)[j];
    ChoiceIsOf(t, s, nodes, c);
    assert c[i] in nodes;
    hide FirstChoice;
    if s.link == Rdma {
      assert nodes == t.islands[j].nodes;
      var p :| p in PortsAt(t, c[i]) && p.rdma && ReachesAll(t, p, c[i], t.islands[j].nodes);
      assert ReachesAll(t, p, c[i], c);
    }
  }

  lemma ChoiceIsOf(t: Net, s: SetReq, nodes: seq<NodeId>, c: seq<NodeId>)
    requires FirstChoice(t, s, {}, nodes, c)
    ensures forall n :: n in c ==> n in nodes
  {
  }

  /** Nodes with room for the bundles in turn: of rising ids, or for a fabric set in the
      order of one island. */
  ghost predicate RoomFor(t: Net, s: SetReq, c: seq<NodeId>) {
    |c| == |s.bundles| && (forall i :: 0 <= i < |c| ==> FreeAt(t, c[i]) >= s.bundles[i]) &&
    if s.link == Any then (forall i :: 0 <= i < |c| ==> c[i] in t.free) && (forall i, j :: 0 <= i < j < |c| ==> c[i] < c[j])
    else exists k, at :: 0 <= k < |t.islands| && InListOrder(t.islands[k].nodes, c, at)
  }

  /** `at` are the places of `c` in the list, going up. */
  ghost predicate InListOrder(nodes: seq<NodeId>, c: seq<NodeId>, at: seq<nat>) {
    |at| == |c| && (forall i, j :: 0 <= i < j < |at| ==> at[i] < at[j]) &&
    forall i :: 0 <= i < |at| ==> at[i] < |nodes| && c[i] == nodes[at[i]]
  }

  lemma {:induction false} PlacesOf(keys: seq<NodeId>, c: seq<NodeId>) returns (at: seq<nat>)
    requires forall i, j :: 0 <= i < j < |keys| ==> keys[i] < keys[j]
    requires (forall i :: 0 <= i < |c| ==> c[i] in keys) && forall i, j :: 0 <= i < j < |c| ==> c[i] < c[j]
    ensures InListOrder(keys, c, at)
    decreases |c|
  {
    at := [];
    if c != [] {
      var n := |c| - 1;
      at := PlacesOf(keys, c[..n]);
      var k :| 0 <= k < |keys| && keys[k] == c[n];
      forall i | 0 <= i < n ensures at[i] < k {
        assert keys[at[i]] == c[i] < c[n] == keys[k];
      }
      at := at + [k];
    }
  }

  /** Room in turn is what places for every bundle mean. */
  lemma RoomIsPlaces(t: Net, s: SetReq)
    ensures (exists j :: 0 <= j < |Lists(t, s)| && HasPlaces(t, s, {}, Lists(t, s)[j])) <==> exists c :: RoomFor(t, s, c)
  {
    if j :| 0 <= j < |Lists(t, s)| && HasPlaces(t, s, {}, Lists(t, s)[j]) {
      PlacesGiveRoom(t, s, j);
    }
    if c: seq<NodeId> :| RoomFor(t, s, c) {
      RoomGivesPlaces(t, s, c);
    }
  }

  lemma PlacesGiveRoom(t: Net, s: SetReq, j: nat)
    requires j < |Lists(t, s)| && HasPlaces(t, s, {}, Lists(t, s)[j])
    ensures exists c :: RoomFor(t, s, c)
  {
    var nodes := Lists(t, s)[j];
    var at :| Places(t, s, {}, nodes, at) && |at| == |s.bundles|;
    var c := NodesAt(nodes, at);
    assert InListOrder(nodes, c, at);
    assert RoomFor(t, s, c);
  }

  lemma RoomGivesPlaces(t: Net, s: SetReq, c: seq<NodeId>)
    requires RoomFor(t, s, c)
    ensures exists j :: 0 <= j < |Lists(t, s)| && HasPlaces(t, s, {}, Lists(t, s)[j])
  {
    if s.link == Rdma {
      var k, at :| 0 <= k < |t.islands| && InListOrder(t.islands[k].nodes, c, at);
      assert Lists(t, s)[k] == t.islands[k].nodes;
      assert Places(t, s, {}, Lists(t, s)[k], at);
    } else {
      var keys := InOrder(t.free.Keys);
      assert Lists(t, s)[0] == keys;
      var at := PlacesOf(keys, c);
      assert Places(t, s, {}, Lists(t, s)[0], at);
    }
  }

  /** A list with places has a choice. */
  lemma ChosenExists(t: Net, s: SetReq, j: nat)
    requires s.layout == Mesh && j < |Lists(t, s)| && HasPlaces(t, s, {}, Lists(t, s)[j])
    ensures exists c :: Chosen(t, s, c)
  {
    hide HasPlaces, FirstChoice, Lists, Candidates;
    MeshCandidates(t, s, {});
    assert Chosen(t, s, Candidates(t, s, {})[0]);
  }

  lemma ChosenHasPlaces(t: Net, s: SetReq, c: seq<NodeId>)
    requires Chosen(t, s, c)
    ensures exists j :: 0 <= j < |Lists(t, s)| && HasPlaces(t, s, {}, Lists(t, s)[j])
  {
    hide HasPlaces, FirstChoice, Lists;
    var j :| 0 <= j < |Lists(t, s)| && FirstChoice(t, s, {}, Lists(t, s)[j], c);
    ChoiceHasPlaces(t, s, {}, Lists(t, s)[j], c);
  }

  /** With addresses everywhere, one mesh set is solved exactly when there are nodes with
      room for its bundles in turn. */
  lemma MeshComplete(t: Net, req: Request)
    requires OneMesh(req) && Addressed(t, req.sets[0])
    ensures Solve(t, req).Ok? <==> exists c :: RoomFor(t, req.sets[0], c)
  {
    hide Chosen, CanBind, Addressed, RoomFor, Lists, HasPlaces;
    var s := req.sets[0];
    MeshSolvedExactly(t, req);
    RoomIsPlaces(t, s);
    forall c | Chosen(t, s, c) ensures forall i :: 0 <= i < |c| ==> CanBind(t, s, c, i) {
      forall i | 0 <= i < |c| ensures CanBind(t, s, c, i) { ChoiceBinds(t, s, c, i); }
    }
    if c: seq<NodeId> :| Chosen(t, s, c) { ChosenHasPlaces(t, s, c); }
    if j :| 0 <= j < |Lists(t, s)| && HasPlaces(t, s, {}, Lists(t, s)[j]) { ChosenExists(t, s, j); }
  }

  /** With equal bundles and any link, exactly when so many distinct nodes have room. */
  lemma MeshOfEqual(t: Net, req: Request)
    requires OneMesh(req) && Addressed(t, req.sets[0]) && req.sets[0].link == Any && EqualBundles(req.sets[0])
    ensures Solve(t, req).Ok? <==>
            exists ns: set<NodeId> :: |ns| == |req.sets[0].bundles| && ns <= t.free.Keys &&
                                      forall n :: n in ns ==> FreeAt(t, n) >= req.sets[0].bundles[0]
  {
    hide Solve, Addressed, RoomFor, EqualBundles, FreeAt;
    var s := req.sets[0];
    MeshComplete(t, req);
    if c: seq<NodeId> :| RoomFor(t, s, c) {
      RoomIsSet(t, s, c);
    }
    if ns: set<NodeId> :| |ns| == |s.bundles| && ns <= t.free.Keys && forall n :: n in ns ==> FreeAt(t, n) >= s.bundles[0] {
      SetIsRoom(t, s, ns);
    }
  }

  lemma RoomIsSet(t: Net, s: SetReq, c: seq<NodeId>)
    requires RoomFor(t, s, c) && s.link == Any && EqualBundles(s) && s.bundles != []
    ensures |SetOf(c)| == |s.bundles| && SetOf(c) <= t.free.Keys && forall n :: n in SetOf(c) ==> FreeAt(t, n) >= s.bundles[0]
  {
    NoDupSize(c);
  }

  lemma SetIsRoom(t: Net, s: SetReq, ns: set<NodeId>)
    requires s.link == Any && EqualBundles(s) && s.bundles != [] && |ns| == |s.bundles| && ns <= t.free.Keys
    requires forall n :: n in ns ==> FreeAt(t, n) >= s.bundles[0]
    ensures RoomFor(t, s, InOrder(ns))
  {
    var c := InOrder(ns);
    NoDupSize(c);
    assert SetOf(c) == ns;
    assert forall i :: 0 <= i < |c| ==> c[i] in ns;
  }

  /** Two nodes with room, the one of lower id without an address. */
  const UNADDRESSED := Net([], map[2 := [Port(20, None, false)]], map[], {}, map[1 := 8, 2 := 8])
  const ONE_NODE := Request([SetReq(0, [8], Any, Mesh)], [])

  /** Without an address the first choice loses the claim, though another node has both
      room and an address. */
  lemma UnaddressedIsRefused()
    ensures Solve(UNADDRESSED, ONE_NODE).Err?
    ensures var s := ONE_NODE.sets[0]; RoomFor(UNADDRESSED, s, [2]) && CanBind(UNADDRESSED, s, [2], 0)
  {
    hide Solve, Chosen, Lists;
    var t, s := UNADDRESSED, ONE_NODE.sets[0];
    MeshSolvedExactly(t, ONE_NODE);
    FirstOfTwo();
    forall c | Chosen(t, s, c) ensures |c| == 1 && !CanBind(t, s, c, 0) {
      OneChosen(t, s, c, [1]);
    }
  }

  lemma FirstOfTwo()
    ensures Chosen(UNADDRESSED, ONE_NODE.sets[0], [1])
  {
    hide Chosen, FirstChoice, HasPlaces;
    assert UNADDRESSED.free.Keys == {1, 2};
    InOrderOfTwo(1, 2);
    FirstChosen(UNADDRESSED, ONE_NODE.sets[0]);
  }

  /** One bundle goes to the first node when it has room. */
  lemma FirstChosen(t: Net, s: SetReq)
    requires |s.bundles| == 1 && s.link == Any && InOrder(t.free.Keys) != []
    requires FreeAt(t, InOrder(t.free.Keys)[0]) >= s.bundles[0]
    ensures Chosen(t, s, [InOrder(t.free.Keys)[0]])
  {
    var keys := InOrder(t.free.Keys);
    FirstPlace(t, s, keys);
    assert NodesAt(keys, [0]) == [keys[0]];
    hide FirstPlaces, HasPlaces;
    assert FirstChoice(t, s, {}, keys, [keys[0]]);
    assert Lists(t, s)[0] == keys;
  }

  lemma FirstPlace(t: Net, s: SetReq, nodes: seq<NodeId>)
    requires |s.bundles| == 1 && nodes != [] && FreeAt(t, nodes[0]) >= s.bundles[0]
    ensures FirstPlaces(t, s, {}, nodes, [0])
  {
  }

  lemma InOrderOfTwo(a: nat, b: nat)
    requires a < b
    ensures InOrder({a, b}) == [a, b]
  {
    var r := InOrder({a, b});
    NoDupSize(r);
    assert SetOf(r) == {a, b} && |{a, b}| == 2;
    assert r[0] in {a, b} && r[1] in {a, b} && r[0] < r[1];
  }
}
