/** Solving a claim: the answer built from the search, what it guarantees, when
    a ring or a line is found, and the rank order made from it. */
module Claims {
  import opened Basics
  import opened Topology
  import opened Chains
  import opened Solver

  // -------------------------------------------------------- neighbours

  /** The members before and after member `i` of `k`, where there are any. */
  function PrevOf(layout: Layout, k: nat, i: nat): (r: Option<nat>)
    requires i < k
    ensures r.Some? ==> r.value < k
  {
    match layout
    case Mesh => None
    case Ring => if k > 1 then Some(if i == 0 then k - 1 else i - 1) else None
    case Line => if i > 0 then Some(i - 1) else None
  }

  function NextOf(layout: Layout, k: nat, i: nat): (r: Option<nat>)
    requires i < k
    ensures r.Some? ==> r.value < k
  {
    match layout
    case Mesh => None
    case Ring => if k > 1 then Some(if i + 1 == k then 0 else i + 1) else None
    case Line => if i + 1 < k then Some(i + 1) else None
  }

  /** The cable from member `i` to member `j`, or an error when there is none. */
  function CableTo(t: Net, s: SetReq, nodes: seq<NodeId>, i: nat, j: Option<nat>): Result<Option<Path>>
    requires i < |nodes| && (j.Some? ==> j.value < |nodes|)
  {
    if j.None? then Ok(None)
    else
      var p := BestPath(t, nodes[i], nodes[j.value], s.link, true);
      if p.Some? then Ok(p) else Err
  }

  /** Whether port `p` reaches a tagged port of every other member. */
  predicate ReachesAll(t: Net, p: Port, node: NodeId, peers: seq<NodeId>) {
    forall q :: q in peers && q != node ==>
      exists y :: y in PortsAt(t, q) && y.rdma && Rtt(t, p.addr, y.addr).Some?
  }

  function FirstReaching(t: Net, ports: seq<Port>, node: NodeId, peers: seq<NodeId>): Option<Port> {
    if ports == [] then None
    else if ports[0].rdma && ReachesAll(t, ports[0], node, peers) then Some(ports[0])
    else FirstReaching(t, ports[1..], node, peers)
  }

  /** The address a member binds for its own set's traffic. */
  function BindFor(t: Net, s: SetReq, node: NodeId, peers: seq<NodeId>): Option<Port> {
    var ports := PortsAt(t, node);
    if s.link == Rdma then FirstReaching(t, ports, node, peers)
    else if ports == [] then None
    else Some(ports[0])
  }

  function MemberAt(t: Net, s: SetReq, nodes: seq<NodeId>, i: nat): Result<Member>
    requires i < |nodes|
  {
    var prev := CableTo(t, s, nodes, i, PrevOf(s.layout, |nodes|, i));
    var next := CableTo(t, s, nodes, i, NextOf(s.layout, |nodes|, i));
    if prev.Err? || next.Err? then Err
    else
      var bind := if next.value.Some? then Some(next.value.value.local)
                  else if prev.value.Some? then Some(prev.value.value.local)
                  else BindFor(t, s, nodes[i], nodes);
      if bind.None? then Err else Ok(Member(nodes[i], bind.value, prev.value, next.value))
  }

  function MembersOf(t: Net, s: SetReq, nodes: seq<NodeId>, k: nat): (r: Result<seq<Member>>)
    requires k <= |nodes|
    ensures r.Ok? ==> |r.value| == k
    ensures r.Ok? ==> forall i :: 0 <= i < k ==> MemberAt(t, s, nodes, i) == Ok(r.value[i])
  {
    if k == 0 then Ok([])
    else
      var rest := MembersOf(t, s, nodes, k - 1);
      var m := MemberAt(t, s, nodes, k - 1);
      if rest.Err? || m.Err? then Err else Ok(rest.value + [m.value])
  }

  // ------------------------------------------------------------- solve

  predicate SetLe(x: SetReq, y: SetReq) {
    (x.link == Rdma && y.link != Rdma) || ((x.link == Rdma) == (y.link == Rdma) && x.name <= y.name)
  }

  predicate WellNamed(req: Request) {
    (forall i, j :: 0 <= i < j < |req.sets| ==> req.sets[i].name != req.sets[j].name) &&
    (forall k :: 0 <= k < |req.between| ==>
       (exists i :: 0 <= i < |req.sets| && req.sets[i].name == req.between[k].from) &&
       (exists i :: 0 <= i < |req.sets| && req.sets[i].name == req.between[k].to))
  }

  function SetsOf(t: Net, sets: seq<SetReq>, chosen: Choice): Result<map<Name, seq<Member>>> {
    if sets == [] then Ok(map[])
    else
      var n := |sets| - 1;
      var rest := SetsOf(t, sets[..n], chosen);
      var s := sets[n];
      if rest.Err? || s.name !in chosen then Err
      else
        var ms := MembersOf(t, s, chosen[s.name], |chosen[s.name]|);
        if ms.Err? then Err else Ok(rest.value[s.name := ms.value])
  }

  /** Fabric sets first, then by name: they have the fewest places to go. */
  function SetOrder(req: Request): seq<SetReq> {
    Sort(req.sets, SetLe)
  }

  /** Match a request against the topology. */
  function Solve(t: Net, req: Request): Result<Solution> {
    if (exists i :: 0 <= i < |req.sets| && req.sets[i].bundles == []) || !WellNamed(req) then Err
    else
      var chosen := Search(t, req, SetOrder(req), 0, map[], {});
      if chosen.None? then Err
      else
        var sets := SetsOf(t, req.sets, chosen.value);
        var between := PathsBetween(t, req.between, chosen.value);
        if sets.Err? || between.None? then Err else Ok(Solution(sets.value, between.value))
  }

  lemma OrderNames(req: Request)
    requires WellNamed(req)
    ensures FreshNames(SetOrder(req), 0, map[])
    ensures forall s :: s in SetOrder(req) <==> s in req.sets
  {
    var order := SetOrder(req);
    assert NoDup(req.sets);
    SortNoDup(req.sets, SetLe);
    forall j, k | 0 <= j < k < |order| ensures order[j].name != order[k].name {
      assert order[j] in req.sets && order[k] in req.sets;
      var a :| 0 <= a < |req.sets| && req.sets[a] == order[j];
      var b :| 0 <= b < |req.sets| && req.sets[b] == order[k];
      assert a != b;
    }
  }

  /** `solve`: check the request, search, then build the answer set by set. */
  method SolveClaim(t: Net, req: Request) returns (r: Result<Solution>)
    requires IslandsDistinct(t)
    ensures r == Solve(t, req)
  {
    hide MembersOf, Search, PathsBetween, SetOrder, IslandsDistinct, FreshNames, Candidates;
    for i := 0 to |req.sets|
      invariant forall j :: 0 <= j < i ==> req.sets[j].bundles != []
    {
      if req.sets[i].bundles == [] { return Err; }
    }
    if !WellNamed(req) { return Err; }
    OrderNames(req);
    hide WellNamed;
    var s := new Searcher();
    var found := s.Run(t, req, SetOrder(req), 0);
    if !found { return Err; }
    var sets: map<Name, seq<Member>> := map[];
    for k := 0 to |req.sets|
      invariant s.chosen == Search(t, req, SetOrder(req), 0, map[], {}).value
      invariant SetsOf(t, req.sets[..k], s.chosen) == Ok(sets)
    {
      var set_ := req.sets[k];
      assert req.sets[..k + 1][..k] == req.sets[..k];
      if set_.name !in s.chosen {
        SetsFail(t, req.sets, s.chosen, k + 1);
        return Err;
      }
      var ms := MembersOf(t, set_, s.chosen[set_.name], |s.chosen[set_.name]|);
      if ms.Err? {
        SetsFail(t, req.sets, s.chosen, k + 1);
        return Err;
      }
      sets := sets[set_.name := ms.value];
    }
    assert req.sets[..|req.sets|] == req.sets;
    var between := FindBetween(t, req.between, s.chosen);
    if between.None? { return Err; }
    return Ok(Solution(sets, between.value));
  }

  lemma {:induction false} SetsFail(t: Net, sets: seq<SetReq>, chosen: Choice, i: nat)
    requires i <= |sets| && SetsOf(t, sets[..i], chosen).Err?
    ensures SetsOf(t, sets, chosen).Err?
    decreases |sets|
  {
    if i == |sets| {
      assert sets[..i] == sets;
    } else {
      var n := |sets| - 1;
      assert sets[..n][..i] == sets[..i];
      SetsFail(t, sets[..n], chosen, i);
    }
  }

  // ------------------------------------------------ what a solution means

  function NodesOf(ms: seq<Member>): (r: seq<NodeId>)
    ensures |r| == |ms| && forall i :: 0 <= i < |ms| ==> r[i] == ms[i].node
  {
    seq(|ms|, i requires 0 <= i < |ms| => ms[i].node)
  }

  function ChoiceOf(sets: map<Name, seq<Member>>): Choice {
    map n | n in sets :: NodesOf(sets[n])
  }

  /** The link toward member `j` is the best cable there, when there is a `j`. */
  ghost predicate LinkTo(t: Net, s: SetReq, ms: seq<Member>, i: nat, j: Option<nat>, p: Option<Path>)
    requires i < |ms| && (j.Some? ==> j.value < |ms|)
  {
    if j.None? then p == None
    else p.Some? && p == BestPath(t, ms[i].node, ms[j.value].node, s.link, true)
  }

  /** A member's links lead to the members before and after it, and it binds
      the port toward the next, or failing that toward the previous. */
  ghost predicate WiredAt(t: Net, s: SetReq, ms: seq<Member>, i: nat)
    requires i < |ms|
  {
    LinkTo(t, s, ms, i, PrevOf(s.layout, |ms|, i), ms[i].prev) &&
    LinkTo(t, s, ms, i, NextOf(s.layout, |ms|, i), ms[i].next) &&
    (ms[i].next.Some? ==> ms[i].bind == ms[i].next.value.local) &&
    (ms[i].next.None? && ms[i].prev.Some? ==> ms[i].bind == ms[i].prev.value.local)
  }

  ghost predicate Wired(t: Net, s: SetReq, ms: seq<Member>) {
    forall i :: 0 <= i < |ms| ==> WiredAt(t, s, ms, i)
  }

  lemma MemberIsWired(t: Net, s: SetReq, nodes: seq<NodeId>, ms: seq<Member>, i: nat)
    requires NodesOf(ms) == nodes && i < |ms| && MemberAt(t, s, nodes, i) == Ok(ms[i])
    ensures WiredAt(t, s, ms, i)
  {
    assert |ms| == |nodes|;
    assert CableTo(t, s, nodes, i, PrevOf(s.layout, |ms|, i)) == Ok(ms[i].prev);
    assert CableTo(t, s, nodes, i, NextOf(s.layout, |ms|, i)) == Ok(ms[i].next);
    assert nodes[i] == ms[i].node;
  }

  lemma MembersAreWired(t: Net, s: SetReq, nodes: seq<NodeId>)
    requires MembersOf(t, s, nodes, |nodes|).Ok?
    ensures NodesOf(MembersOf(t, s, nodes, |nodes|).value) == nodes
    ensures Wired(t, s, MembersOf(t, s, nodes, |nodes|).value)
  {
    hide WiredAt;
    var ms := MembersOf(t, s, nodes, |nodes|).value;
    forall i | 0 <= i < |ms| ensures ms[i].node == nodes[i] {
      MemberNode(t, s, nodes, i);
    }
    assert NodesOf(ms) == nodes;
    forall i | 0 <= i < |ms| ensures WiredAt(t, s, ms, i) {
      MemberIsWired(t, s, nodes, ms, i);
    }
  }

  lemma MemberNode(t: Net, s: SetReq, nodes: seq<NodeId>, i: nat)
    requires i < |nodes|
    ensures MemberAt(t, s, nodes, i).Ok? ==> MemberAt(t, s, nodes, i).value.node == nodes[i]
  {
  }

  /** One placed set: its number of members, all distinct, each with its
      bundle's GPUs, in the shape its layout asks for, wired together. */
  ghost predicate GoodSet(t: Net, s: SetReq, ms: seq<Member>) {
    |ms| == |s.bundles| && NoDup(NodesOf(ms)) &&
    (forall i :: 0 <= i < |ms| ==> FreeAt(t, ms[i].node) >= s.bundles[i]) &&
    Shaped(t, s, NodesOf(ms)) && Wired(t, s, ms)
  }

  ghost predicate Sound(t: Net, req: Request, sol: Solution) {
    (forall k :: 0 <= k < |req.sets| ==>
       req.sets[k].name in sol.sets && GoodSet(t, req.sets[k], sol.sets[req.sets[k].name])) &&
    (forall k, l :: 0 <= k < l < |req.sets| ==>
       SetOf(NodesOf(sol.sets[req.sets[k].name])) !! SetOf(NodesOf(sol.sets[req.sets[l].name]))) &&
    AllMet(t, req.between, ChoiceOf(sol.sets), sol.between)
  }

  lemma {:induction false} AssignedAt(order: seq<SetReq>, all: seq<seq<NodeId>>, j: nat)
    requires j < |all| <= |order| && FreshNames(order, 0, map[])
    ensures order[j].name in Assigned(order, all) && Assigned(order, all)[order[j].name] == all[j]
    decreases |all|
  {
    var n := |all| - 1;
    if j < n {
      AssignedAt(order, all[..n], j);
      assert order[j].name != order[n].name;
    }
  }

  lemma {:induction false} AssignedKeys(order: seq<SetReq>, all: seq<seq<NodeId>>, name: Name)
    requires |all| <= |order| && name in Assigned(order, all)
    ensures exists j :: 0 <= j < |all| && order[j].name == name
    decreases |all|
  {
    if all != [] && order[|all| - 1].name != name {
      AssignedKeys(order, all[..|all| - 1], name);
    }
  }

  lemma {:induction false} TakenHas(all: seq<seq<NodeId>>, j: nat)
    requires j < |all|
    ensures SetOf(all[j]) <= TakenBy(all)
    decreases |all|
  {
    var n := |all| - 1;
    if j < n { TakenHas(all[..n], j); }
  }

  lemma ChoicesAreDisjoint(t: Net, order: seq<SetReq>, all: seq<seq<NodeId>>, j: nat, k: nat)
    requires Legal(t, order, all) && IslandsDistinct(t) && j < k < |all|
    ensures SetOf(all[j]) !! SetOf(all[k])
  {
    CandidatesFit(t, order[k], TakenBy(all[..k]), all[k]);
    TakenHas(all[..k], j);
    assert all[..k][j] == all[j];
  }

  lemma {:induction false} SetsOfMeans(t: Net, sets: seq<SetReq>, chosen: Choice, k: nat)
    requires SetsOf(t, sets, chosen).Ok? && k < |sets|
    requires forall i, j :: 0 <= i < j < |sets| ==> sets[i].name != sets[j].name
    ensures var m := SetsOf(t, sets, chosen).value; var s := sets[k];
            s.name in chosen && s.name in m &&
            MembersOf(t, s, chosen[s.name], |chosen[s.name]|) == Ok(m[s.name])
    decreases |sets|
  {
    var n := |sets| - 1;
    if k < n {
      SetsOfMeans(t, sets[..n], chosen, k);
      assert sets[k].name != sets[n].name;
    }
  }

  lemma {:induction false} SetsOfKeys(t: Net, sets: seq<SetReq>, chosen: Choice, name: Name)
    requires SetsOf(t, sets, chosen).Ok? && name in SetsOf(t, sets, chosen).value
    ensures exists k :: 0 <= k < |sets| && sets[k].name == name
    decreases |sets|
  {
    if sets != [] && sets[|sets| - 1].name != name {
      SetsOfKeys(t, sets[..|sets| - 1], chosen, name);
    }
  }

  /** Where a set of the request sits in the search order. */
  lemma PlaceInOrder(req: Request, k: nat) returns (j: nat)
    requires WellNamed(req) && k < |req.sets|
    ensures j < |SetOrder(req)| && SetOrder(req)[j] == req.sets[k]
  {
    OrderNames(req);
    assert req.sets[k] in SetOrder(req);
    j :| 0 <= j < |SetOrder(req)| && SetOrder(req)[j] == req.sets[k];
  }

  lemma SolvedSet(t: Net, req: Request, all: seq<seq<NodeId>>, k: nat)
    requires IslandsDistinct(t) && WellNamed(req) && k < |req.sets|
    requires Legal(t, SetOrder(req), all) && |all| == |SetOrder(req)|
    requires SetsOf(t, req.sets, Assigned(SetOrder(req), all)).Ok?
    ensures var m := SetsOf(t, req.sets, Assigned(SetOrder(req), all)).value; var name := req.sets[k].name;
            name in m && name in Assigned(SetOrder(req), all) &&
            NodesOf(m[name]) == Assigned(SetOrder(req), all)[name] && GoodSet(t, req.sets[k], m[name])
  {
    var order := SetOrder(req);
    OrderNames(req);
    var j := PlaceInOrder(req, k);
    AssignedAt(order, all, j);
    CandidatesFit(t, order[j], TakenBy(all[..j]), all[j]);
    SetsOfMeans(t, req.sets, Assigned(order, all), k);
    MembersAreWired(t, req.sets[k], all[j]);
  }

  lemma SolvedDisjoint(t: Net, req: Request, all: seq<seq<NodeId>>, k: nat, l: nat)
    requires IslandsDistinct(t) && WellNamed(req) && k < l < |req.sets|
    requires Legal(t, SetOrder(req), all) && |all| == |SetOrder(req)|
    ensures var a := Assigned(SetOrder(req), all);
            req.sets[k].name in a && req.sets[l].name in a &&
            SetOf(a[req.sets[k].name]) !! SetOf(a[req.sets[l].name])
  {
    OrderNames(req);
    var i := PlaceInOrder(req, k);
    var j := PlaceInOrder(req, l);
    AssignedAt(SetOrder(req), all, i);
    AssignedAt(SetOrder(req), all, j);
    if i < j {
      ChoicesAreDisjoint(t, SetOrder(req), all, i, j);
    } else {
      ChoicesAreDisjoint(t, SetOrder(req), all, j, i);
    }
  }

  lemma SolvedChoice(t: Net, req: Request, all: seq<seq<NodeId>>)
    requires IslandsDistinct(t) && WellNamed(req)
    requires Legal(t, SetOrder(req), all) && |all| == |SetOrder(req)|
    requires SetsOf(t, req.sets, Assigned(SetOrder(req), all)).Ok?
    ensures var m := SetsOf(t, req.sets, Assigned(SetOrder(req), all)).value;
            Assigned(SetOrder(req), all) == ChoiceOf(m)
  {
    hide Assigned, SetsOf, SetOrder, GoodSet, Legal, WellNamed, IslandsDistinct;
    var a := Assigned(SetOrder(req), all);
    var m := SetsOf(t, req.sets, a).value;
    forall n | n in a ensures n in m {
      AssignedKeys(SetOrder(req), all, n);
      var j :| 0 <= j < |all| && SetOrder(req)[j].name == n;
      OrderNames(req);
      assert SetOrder(req)[j] in req.sets;
      var k :| 0 <= k < |req.sets| && req.sets[k] == SetOrder(req)[j];
      SolvedSet(t, req, all, k);
    }
    forall n | n in m ensures n in a && a[n] == NodesOf(m[n]) {
      SetsOfKeys(t, req.sets, a, n);
      var k :| 0 <= k < |req.sets| && req.sets[k].name == n;
      SolvedSet(t, req, all, k);
    }
  }

  lemma SoundFrom(t: Net, req: Request, all: seq<seq<NodeId>>, between: seq<Path>)
    requires IslandsDistinct(t) && WellNamed(req)
    requires Legal(t, SetOrder(req), all) && |all| == |SetOrder(req)|
    requires SetsOf(t, req.sets, Assigned(SetOrder(req), all)).Ok?
    requires AllMet(t, req.between, Assigned(SetOrder(req), all), between)
    ensures Sound(t, req, Solution(SetsOf(t, req.sets, Assigned(SetOrder(req), all)).value, between))
  {
    hide GoodSet;
    hide AllMet;
    hide Legal;
    hide WellNamed;
    hide IslandsDistinct;
    var m := SetsOf(t, req.sets, Assigned(SetOrder(req), all)).value;
    forall k | 0 <= k < |req.sets|
      ensures req.sets[k].name in m && GoodSet(t, req.sets[k], m[req.sets[k].name])
    {
      SolvedSet(t, req, all, k);
    }
    forall k, l | 0 <= k < l < |req.sets|
      ensures SetOf(NodesOf(m[req.sets[k].name])) !! SetOf(NodesOf(m[req.sets[l].name]))
    {
      SolvedSet(t, req, all, k);
      SolvedSet(t, req, all, l);
      SolvedDisjoint(t, req, all, k, l);
    }
    SolvedChoice(t, req, all);
  }

  /** Every answer is sound: each set gets exactly its members, distinct within
      and across sets, with enough GPUs, a fabric mesh set inside one island, a
      ring or line cabled in order, and every entry between sets met by the
      least link that joins them. */
  lemma SolutionIsSound(t: Net, req: Request)
    requires IslandsDistinct(t) && Solve(t, req).Ok?
    ensures Sound(t, req, Solve(t, req).value)
  {
    hide Sound;
    SearchIsExact(t, req, SetOrder(req));
    var chosen := Search(t, req, SetOrder(req), 0, map[], {}).value;
    var all :| Solves(t, req, SetOrder(req), all) && chosen == Assigned(SetOrder(req), all);
    PathsBetweenMeans(t, req.between, chosen);
    SoundFrom(t, req, all, PathsBetween(t, req.between, chosen).value);
  }

  // ------------------------------------------- when a ring or line is found

  /** A request for one ring or line of at least two nodes and nothing else. */
  predicate OneOrdered(req: Request) {
    |req.sets| == 1 && req.between == [] && req.sets[0].layout != Mesh && |req.sets[0].bundles| >= 2
  }

  /** A request for one set of at least one node and nothing else. */
  predicate OneSet(req: Request) {
    |req.sets| == 1 && req.between == [] && req.sets[0].bundles != []
  }

  /** A valid order can always be turned into members: its cables run both ways. */
  lemma OrderHasMembers(t: Net, s: SetReq, pool: set<NodeId>, c: seq<NodeId>, k: nat)
    requires ValidOrder(t, s, pool, c) && s.layout != Mesh && |c| >= 2 && k <= |c|
    ensures MembersOf(t, s, c, k).Ok?
  {
    if k > 0 {
      OrderHasMembers(t, s, pool, c, k - 1);
      var i := k - 1;
      CableBack(t, s, pool, c, i, PrevOf(s.layout, |c|, i));
      CableBack(t, s, pool, c, i, NextOf(s.layout, |c|, i));
    }
  }

  lemma CableBack(t: Net, s: SetReq, pool: set<NodeId>, c: seq<NodeId>, i: nat, j: Option<nat>)
    requires ValidOrder(t, s, pool, c) && s.layout != Mesh && |c| >= 2 && i < |c|
    requires j == PrevOf(s.layout, |c|, i) || j == NextOf(s.layout, |c|, i)
    ensures CableTo(t, s, c, i, j).Ok?
  {
    if j.Some? {
      LinkedBothWays(t, c[i], c[j.value], s.link, true);
      if i < j.value {
        assert j.value == i + 1 || (i == 0 && j.value == |c| - 1);
        assert j.value == i + 1 ==> Cabled(t, s.link, c[j.value - 1], c[j.value]);
      } else {
        assert i == j.value + 1 || (j.value == 0 && i == |c| - 1);
        assert i == j.value + 1 ==> Cabled(t, s.link, c[i - 1], c[i]);
      }
    }
  }

  lemma OneSetSearch(t: Net, req: Request)
    requires OneSet(req)
    ensures SetOrder(req) == req.sets && WellNamed(req)
    ensures var cands := Candidates(t, req.sets[0], {});
            Search(t, req, req.sets, 0, map[], {}) ==
            if cands == [] then None else Some(map[req.sets[0].name := cands[0]])
  {
    var s := req.sets[0];
    assert req.sets == [s];
    assert Sort(req.sets[1..], SetLe) == [];
    var cands := Candidates(t, s, {});
    if cands != [] {
      var chosen: Choice := map[s.name := cands[0]];
      assert PathsBetween(t, req.between, chosen) == Some([]);
      assert Search(t, req, req.sets, 1, chosen, {} + SetOf(cands[0])) == Some(chosen);
      var none: Choice := map[];
      assert none[s.name := cands[0]] == chosen;
      assert SearchFrom(t, req, req.sets, 0, none, {}, cands, 0) == Some(chosen);
    }
  }

  /** Solving one ring or line succeeds exactly when the walk has an answer. */
  lemma SolvedExactlyWhenWalked(t: Net, req: Request)
    requires OneOrdered(req) && IslandsDistinct(t)
    ensures Solve(t, req).Ok? <==>
            exists c :: ValidOrder(t, req.sets[0], t.free.Keys, c) &&
                        (req.sets[0].layout == Ring ==> LeastFirst(c))
  {
    var s := req.sets[0];
    var nodes := OrderedNodes(t, {});
    assert SetOf(nodes) == t.free.Keys;
    OneSetSearch(t, req);
    WalkIsExact(t, s, nodes);
    var cands := Candidates(t, s, {});
    if cands != [] {
      var c := cands[0];
      assert Answer(t, s, nodes, c);
      AnswerIsValidOrder(t, s, nodes, c);
      OrderHasMembers(t, s, t.free.Keys, c, |c|);
      OneSetSolves(t, req, c);
    }
    forall c | ValidOrder(t, s, t.free.Keys, c) && (s.layout == Ring ==> LeastFirst(c))
      ensures cands != []
    {
      AnswerIsValidOrder(t, s, nodes, c);
    }
  }

  lemma OneSetSolves(t: Net, req: Request, c: seq<NodeId>)
    requires OneSet(req) && WellNamed(req)
    requires Search(t, req, SetOrder(req), 0, map[], {}) == Some(map[req.sets[0].name := c])
    ensures Solve(t, req).Ok? <==> MembersOf(t, req.sets[0], c, |c|).Ok?
  {
    var chosen: Choice := map[req.sets[0].name := c];
    assert req.sets[..0] == [];
    assert SetsOf(t, req.sets, chosen).Ok? <==> MembersOf(t, req.sets[0], c, |c|).Ok?;
    assert PathsBetween(t, req.between, chosen) == Some([]);
  }

  /** Ring and line search is complete: with equal bundles in a ring, or any in
      a line, `solve` succeeds exactly when some order of distinct nodes with
      enough free GPUs is cabled at every step and, in a ring of three or more,
      from last to first. Neither the least-id start nor the cap of 32 answers
      loses one. */
  lemma RingAndLineComplete(t: Net, req: Request)
    requires OneOrdered(req) && IslandsDistinct(t)
    requires req.sets[0].layout == Ring ==> EqualBundles(req.sets[0])
    ensures Solve(t, req).Ok? <==> exists c :: ValidOrder(t, req.sets[0], t.free.Keys, c)
  {
    var s := req.sets[0];
    var nodes := OrderedNodes(t, {});
    assert SetOf(nodes) == t.free.Keys;
    SolvedExactlyWhenWalked(t, req);
    LeastStartIsEnough(t, s, nodes);
    if c :| ValidOrder(t, s, t.free.Keys, c) {
      var d :| Answer(t, s, nodes, d);
      AnswerIsValidOrder(t, s, nodes, d);
    }
  }

  /** Two cabled nodes, the lower id with one free GPU and the higher with two. */
  const PAIR := Net([], map[1 := [Port(10, None, false)], 2 := [Port(20, None, false)]],
                    map[(10, 20) := 0], {}, map[1 := 1, 2 := 2])
  const UNEQUAL := Request([SetReq(0, [2, 1], Any, Ring)], [])

  /** Unequal bundles are where the least-id start does lose a ring: the order
      that starts at the higher id is valid, and `solve` refuses. */
  lemma UnequalRingIsMissed()
    ensures ValidOrder(PAIR, UNEQUAL.sets[0], PAIR.free.Keys, [2, 1]) && Solve(PAIR, UNEQUAL).Err?
  {
    var s := UNEQUAL.sets[0];
    var p := Path(2, 1, Port(20, None, false), Port(10, None, false), 0);
    assert IsPath(PAIR, 2, 1, Any, true, p);
    BestPathIsBest(PAIR, 2, 1, Any, true);
    SolvedExactlyWhenWalked(PAIR, UNEQUAL);
    forall c | ValidOrder(PAIR, s, PAIR.free.Keys, c) ensures !LeastFirst(c) {
      assert c[0] != c[1] && c[0] in PAIR.free.Keys && c[1] in PAIR.free.Keys;
      assert FreeAt(PAIR, c[0]) >= 2;
      assert c[0] > c[1];
    }
  }

  // ------------------------------------------------------- rank order

  function Position(ms: seq<Member>, node: Option<NodeId>): (r: Option<nat>)
    ensures r.Some? ==> r.value < |ms| && node == Some(ms[r.value].node)
    ensures r.None? <==> forall i :: 0 <= i < |ms| ==> Some(ms[i].node) != node
  {
    if ms == [] then None
    else
      var n := |ms| - 1;
      var r := Position(ms[..n], node);
      assert forall i :: 0 <= i < n ==> ms[..n][i] == ms[i];
      if r.Some? then r else if Some(ms[n].node) == node then Some(n) else None
  }

  function Swapped(m: Member): Member {
    m.(prev := m.next, next := m.prev)
  }

  function Reversed(ms: seq<Member>): (r: seq<Member>)
    ensures |r| == |ms|
    ensures forall i :: 0 <= i < |ms| ==> r[i] == Swapped(ms[|ms| - 1 - i])
  {
    seq(|ms|, i requires 0 <= i < |ms| => Swapped(ms[|ms| - 1 - i]))
  }

  /** The ranks of a ring or line claim, as a driver on `driver` needs them: a
      ring turned to start there, a line turned round when the driver is at its
      far end, and refused when the driver is inside it. */
  function Ranks(layout: Layout, ms: seq<Member>, driver: Option<NodeId>): Result<seq<Member>> {
    var at := Position(ms, driver);
    if layout == Ring && at.Some? then Ok(Turned(ms, at.value))
    else if layout == Line && at.Some? && at.value > 0 then
      if at.value == |ms| - 1 then Ok(Reversed(ms)) else Err
    else Ok(ms)
  }

  /** A rank's links lead to the ranks before and after it. */
  ghost predicate RankLinked(t: Net, s: SetReq, rs: seq<Member>, i: nat)
    requires i < |rs|
  {
    LinkTo(t, s, rs, i, PrevOf(s.layout, |rs|, i), rs[i].prev) &&
    LinkTo(t, s, rs, i, NextOf(s.layout, |rs|, i), rs[i].next)
  }

  lemma TurnedLinks(t: Net, s: SetReq, ms: seq<Member>, r: nat, i: nat)
    requires s.layout == Ring && Wired(t, s, ms) && r < |ms| && i < |ms|
    ensures RankLinked(t, s, Turned(ms, r), i)
  {
    var k := |ms|;
    var j := if i + r < k then i + r else i + r - k;
    assert WiredAt(t, s, ms, j);
    assert Turned(ms, r)[i] == ms[j];
    if k > 1 {
      var i1, j1 := PrevOf(Ring, k, i).value, PrevOf(Ring, k, j).value;
      assert Turned(ms, r)[i1] == ms[j1];
      var i2, j2 := NextOf(Ring, k, i).value, NextOf(Ring, k, j).value;
      assert Turned(ms, r)[i2] == ms[j2];
    }
  }

  lemma ReversedLinks(t: Net, s: SetReq, ms: seq<Member>, i: nat)
    requires s.layout == Line && Wired(t, s, ms) && i < |ms|
    ensures RankLinked(t, s, Reversed(ms), i)
  {
    assert WiredAt(t, s, ms, |ms| - 1 - i);
  }

  /** Turning or reversing an order keeps every neighbour. */
  lemma RanksKeepNeighbours(t: Net, s: SetReq, ms: seq<Member>, driver: Option<NodeId>)
    requires s.layout != Mesh && Wired(t, s, ms) && Ranks(s.layout, ms, driver).Ok?
    ensures var rs := Ranks(s.layout, ms, driver).value;
            |rs| == |ms| && forall i :: 0 <= i < |rs| ==> RankLinked(t, s, rs, i)
  {
    hide RankLinked;
    var rs := Ranks(s.layout, ms, driver).value;
    var at := Position(ms, driver);
    forall i | 0 <= i < |ms| ensures RankLinked(t, s, rs, i) {
      if s.layout == Ring && at.Some? {
        TurnedLinks(t, s, ms, at.value, i);
      } else if s.layout == Line && at.Some? && at.value > 0 {
        ReversedLinks(t, s, ms, i);
      } else {
        AsSolved(t, s, ms, i);
      }
    }
  }

  lemma AsSolved(t: Net, s: SetReq, ms: seq<Member>, i: nat)
    requires Wired(t, s, ms) && i < |ms|
    ensures RankLinked(t, s, ms, i)
  {
    assert WiredAt(t, s, ms, i);
  }

  /** Rank 0 sits on the driver's node whenever the claim holds it, and an
      order is refused exactly for a line with the driver strictly inside. */
  lemma RankZeroOnDriver(t: Net, s: SetReq, ms: seq<Member>, driver: Option<NodeId>)
    requires s.layout != Mesh && GoodSet(t, s, ms)
    ensures Ranks(s.layout, ms, driver).Err? <==>
            s.layout == Line && exists i :: 0 < i < |ms| - 1 && Some(ms[i].node) == driver
    ensures Ranks(s.layout, ms, driver).Ok? && (exists i :: 0 <= i < |ms| && Some(ms[i].node) == driver) ==>
              Some(Ranks(s.layout, ms, driver).value[0].node) == driver
  {
    var at := Position(ms, driver);
    if i :| 0 <= i < |ms| && Some(ms[i].node) == driver {
      assert NodesOf(ms)[i] == NodesOf(ms)[at.value];
      assert i == at.value;
    }
  }

  /** The nodes of the ranks: the solved order, turned, or reversed. */
  lemma RanksAreTurnedOrReversed(layout: Layout, ms: seq<Member>, driver: Option<NodeId>)
    requires Ranks(layout, ms, driver).Ok?
    ensures var ns := NodesOf(ms); var rs := NodesOf(Ranks(layout, ms, driver).value);
            (exists r :: 0 <= r <= |ns| && rs == Turned(ns, r)) ||
            (|rs| == |ns| && forall i :: 0 <= i < |ns| ==> rs[i] == ns[|ns| - 1 - i])
  {
    var at := Position(ms, driver);
    var ns, rs := NodesOf(ms), NodesOf(Ranks(layout, ms, driver).value);
    if layout == Ring && at.Some? {
      assert rs == Turned(ns, at.value);
    } else if !(layout == Line && at.Some? && at.value > 0) {
      assert rs == Turned(ns, 0);
    }
  }

  /** The sets are searched fabric sets first, each kind by name. */
  lemma FabricSetsFirst(req: Request, i: nat, j: nat)
    requires i < j < |SetOrder(req)|
    ensures var order := SetOrder(req);
            (order[j].link == Rdma ==> order[i].link == Rdma) &&
            (order[i].link == order[j].link ==> order[i].name <= order[j].name)
  {
  }
}
