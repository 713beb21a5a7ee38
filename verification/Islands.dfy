/** Fabric islands: the sets of nodes that reach each other over tagged,
    probed addresses, found by component search, port selection and pruning. */
module Islands {
  import opened Basics

  type NodeId = nat
  type Addr = nat

  /** One node's one tagged address. */
  datatype Port = Port(node: NodeId, addr: Addr)

  /** The tagged addresses of each node, and the address pairs that answered a
      probe. */
  datatype FabricView = FabricView(rdma: map<NodeId, seq<Addr>>, okPairs: set<(Addr, Addr)>)

  /** Members in order, and the address each listens on inside the island. */
  datatype Island = Island(nodes: seq<NodeId>, addr: map<NodeId, Addr>)

  datatype Pruned = Pruned(port: Port, reaches: nat, of: nat)

  predicate Linked(v: FabricView, a: Addr, b: Addr) {
    (a, b) in v.okPairs || (b, a) in v.okPairs
  }

  /** Whether two ports may hold traffic between their nodes. */
  predicate Joins(v: FabricView, x: Port, y: Port) {
    x.node != y.node && Linked(v, x.addr, y.addr)
  }

  predicate Tagged(v: FabricView, p: Port) {
    p.node in v.rdma && p.addr in v.rdma[p.node]
  }

  predicate PortLe(x: Port, y: Port) {
    x.node < y.node || (x.node == y.node && x.addr <= y.addr)
  }

  /** The neighbours of a port inside a set of ports. */
  function Near(v: FabricView, c: set<Port>, p: Port): set<Port> {
    set q | q in c && Joins(v, p, q)
  }

  function Degree(v: FabricView, c: set<Port>, p: Port): nat {
    |Near(v, c, p)|
  }

  // ------------------------------------------------------------ components

  /** A walk over joined tagged ports. */
  ghost predicate Walk(v: FabricView, w: seq<Port>) {
    w != [] &&
    (forall i :: 0 <= i < |w| ==> Tagged(v, w[i])) &&
    (forall i :: 0 < i < |w| ==> Joins(v, w[i - 1], w[i]))
  }

  ghost predicate Connected(v: FabricView, p: Port, q: Port) {
    exists w :: Walk(v, w) && w[0] == p && w[|w| - 1] == q
  }

  lemma ConnectedSelf(v: FabricView, p: Port)
    requires Tagged(v, p)
    ensures Connected(v, p, p)
  {
    assert Walk(v, [p]) && [p][0] == p;
  }

  lemma ConnectedStep(v: FabricView, p: Port, q: Port, r: Port)
    requires Connected(v, p, q) && Joins(v, q, r) && Tagged(v, r)
    ensures Connected(v, p, r)
  {
    var w :| Walk(v, w) && w[0] == p && w[|w| - 1] == q;
    var w' := w + [r];
    assert Walk(v, w') && w'[0] == p && w'[|w'| - 1] == r;
  }

  /** A set of ports no joined tagged port leaves. */
  ghost predicate Closed(v: FabricView, c: set<Port>) {
    forall p, q :: p in c && Tagged(v, q) && Joins(v, p, q) ==> q in c
  }

  lemma {:induction false} WalkStays(v: FabricView, c: set<Port>, w: seq<Port>, i: nat)
    requires Closed(v, c) && Walk(v, w) && w[0] in c && i < |w|
    ensures w[i] in c
  {
    if i > 0 {
      WalkStays(v, c, w, i - 1);
      assert Joins(v, w[i - 1], w[i]);
    }
  }

  /** A walk backwards. */
  lemma {:induction false} WalkLeaves(v: FabricView, c: set<Port>, w: seq<Port>, i: nat)
    requires Closed(v, c) && Walk(v, w) && w[0] !in c && i < |w|
    ensures w[i] !in c
  {
    if i > 0 {
      WalkLeaves(v, c, w, i - 1);
      assert Joins(v, w[i], w[i - 1]);
    }
  }

  /** A component: a closed set of tagged ports that a seed is connected to. */
  ghost predicate IsComponent(v: FabricView, c: set<Port>, seed: Port) {
    seed in c && Closed(v, c) &&
    forall p :: p in c ==> Tagged(v, p) && Connected(v, seed, p)
  }

  /** The component of a port is all of what it is connected to. */
  lemma ComponentIsExact(v: FabricView, c: set<Port>, seed: Port, q: Port)
    requires IsComponent(v, c, seed)
    ensures q in c <==> Connected(v, seed, q)
  {
    if Connected(v, seed, q) {
      var w :| Walk(v, w) && w[0] == seed && w[|w| - 1] == q;
      WalkStays(v, c, w, |w| - 1);
    }
  }

  lemma ComponentAvoids(v: FabricView, c: set<Port>, seed: Port, d: set<Port>)
    requires IsComponent(v, c, seed) && Closed(v, d) && seed !in d
    ensures c !! d
  {
    forall p | p in c ensures p !in d {
      var w :| Walk(v, w) && w[0] == seed && w[|w| - 1] == p;
      WalkLeaves(v, d, w, |w| - 1);
    }
  }

  /** The ports joined to `p` that the component does not hold yet. */
  method Spread(v: FabricView, ports: seq<Port>, comp: seq<Port>, p: Port) returns (found: seq<Port>)
    ensures NoDup(found)
    ensures forall q :: q in found <==> q in ports && q !in comp && Joins(v, p, q)
  {
    found := [];
    for i := 0 to |ports|
      invariant NoDup(found)
      invariant forall q :: q in found <==> q in ports[..i] && q !in comp && Joins(v, p, q)
    {
      var q := ports[i];
      if q !in comp && q !in found && Joins(v, p, q) {
        found := found + [q];
      }
      assert ports[..i + 1] == ports[..i] + [ports[i]];
    }
    assert ports[..|ports|] == ports;
  }

  /** What holds while a component is walked. */
  ghost predicate Walking(v: FabricView, seed: Port, comp: set<Port>, queue: set<Port>) {
    seed in comp && queue <= comp &&
    (forall p :: p in comp ==> Tagged(v, p) && Connected(v, seed, p)) &&
    (forall p, q :: p in comp && p !in queue && Tagged(v, q) && Joins(v, p, q) ==> q in comp)
  }

  lemma WalkingStep(v: FabricView, seed: Port, comp: set<Port>, queue: set<Port>, p: Port, found: set<Port>)
    requires Walking(v, seed, comp, queue) && p in queue
    requires forall q :: q in found <==> Tagged(v, q) && q !in comp && Joins(v, p, q)
    ensures Walking(v, seed, comp + found, queue - {p} + found) && queue <= comp
  {
    forall q | q in found ensures Connected(v, seed, q) {
      ConnectedStep(v, seed, p, q);
    }
  }

  /** The connected component of a port, by a walk over a work list. */
  method Component(v: FabricView, ports: seq<Port>, seed: Port) returns (comp: seq<Port>)
    requires forall p :: p in ports <==> Tagged(v, p)
    requires seed in ports
    ensures NoDup(comp) && IsComponent(v, SetOf(comp), seed)
  {
    hide Walking;
    comp := [seed];
    var queue := [seed];
    WalkingStart(v, seed);
    assert SetOf([seed]) == {seed};
    while queue != []
      invariant NoDup(comp) && NoDup(queue)
      invariant Walking(v, seed, SetOf(comp), SetOf(queue))
      decreases |SetOf(ports) - SetOf(comp)|, |queue|
    {
      var n := |queue| - 1;
      var p := queue[n];
      ghost var work := SetOf(queue);
      DropLast(queue);
      queue := queue[..n];
      var found := Spread(v, ports, comp, p);
      WalkingStep(v, seed, SetOf(comp), work, p, SetOf(found));
      Shrinks(ports, comp, found);
      ConcatNoDup(comp, found);
      ConcatNoDup(queue, found);
      comp := comp + found;
      queue := queue + found;
    }
    assert SetOf(queue) == {};
    WalkingDone(v, seed, SetOf(comp));
  }

  lemma WalkingStart(v: FabricView, seed: Port)
    requires Tagged(v, seed)
    ensures Walking(v, seed, {seed}, {seed})
  {
    ConnectedSelf(v, seed);
  }

  lemma WalkingDone(v: FabricView, seed: Port, comp: set<Port>)
    requires Walking(v, seed, comp, {})
    ensures IsComponent(v, comp, seed)
  {
  }

  lemma Shrinks(ports: seq<Port>, comp: seq<Port>, found: seq<Port>)
    requires forall q :: q in found ==> q in ports && q !in comp
    ensures found != [] ==> |SetOf(ports) - SetOf(comp + found)| < |SetOf(ports) - SetOf(comp)|
    ensures found == [] ==> comp + found == comp
  {
    if found != [] {
      assert found[0] in SetOf(ports) - SetOf(comp);
      assert SetOf(ports) - SetOf(comp + found) <= SetOf(ports) - SetOf(comp) - {found[0]};
      SubsetSize(SetOf(ports) - SetOf(comp + found), SetOf(ports) - SetOf(comp) - {found[0]});
    }
  }

  // ------------------------------------------------------- one port a node

  /** Which of a node's ports joins an island: the one that reaches most of the
      component, then the lowest address. */
  predicate Better(v: FabricView, c: set<Port>, x: Port, y: Port) {
    Degree(v, c, x) > Degree(v, c, y) ||
    (Degree(v, c, x) == Degree(v, c, y) && x.addr < y.addr)
  }

  /** The best port of each node that has ports in `s`, ranked within `c`. */
  function Leaders(v: FabricView, c: set<Port>, s: set<Port>): set<Port> {
    set p | p in s && forall q :: q in s && q.node == p.node && q != p ==> Better(v, c, p, q)
  }

  function Chosen(v: FabricView, c: set<Port>): set<Port> {
    Leaders(v, c, c)
  }

  predicate RankLe(v: FabricView, c: set<Port>, x: Port, y: Port) {
    x.node < y.node || (x.node == y.node && (x == y || Better(v, c, x, y)))
  }

  lemma RankIsOrder(v: FabricView, c: set<Port>)
    ensures TotalOrder((x: Port, y: Port) => RankLe(v, c, x, y))
  {
    var le := (x: Port, y: Port) => RankLe(v, c, x, y);
    assert forall x: Port, y: Port :: le(x, y) || le(y, x);
    assert forall x: Port, y: Port, z: Port :: le(x, y) && le(y, z) ==> le(x, z);
  }

  predicate Ascending(s: seq<Port>) {
    forall i, j :: 0 <= i < j < |s| ==> s[i].node < s[j].node
  }

  /** Keep each node's first port of a sequence sorted by node. */
  function Dedup(s: seq<Port>): (r: seq<Port>)
    ensures s != [] ==> r != [] && r[|r| - 1].node == s[|s| - 1].node
  {
    if |s| <= 1 then s
    else
      var n := |s| - 1;
      if s[n - 1].node == s[n].node then Dedup(s[..n]) else Dedup(s[..n]) + [s[n]]
  }

  /** A port ranked after all of a set leads only when its node is new. */
  lemma LeadersAdd(v: FabricView, c: set<Port>, s: set<Port>, x: Port)
    requires forall q :: q in s ==> q != x && RankLe(v, c, q, x)
    ensures Leaders(v, c, s) <= s
    ensures Leaders(v, c, s + {x}) ==
            Leaders(v, c, s) + if exists q :: q in s && q.node == x.node then {} else {x}
  {
    assert forall q :: q in s && q.node == x.node ==> Better(v, c, q, x) && !Better(v, c, x, q);
  }

  ghost predicate Ranked(v: FabricView, c: set<Port>, s: seq<Port>) {
    forall i, j :: 0 <= i < j < |s| ==> RankLe(v, c, s[i], s[j])
  }

  /** The last port of a ranked sequence: it ranks after all the others, and
      its node is new exactly when the port before it has another node. */
  lemma LastRanks(v: FabricView, c: set<Port>, s: seq<Port>)
    requires NoDup(s) && Ranked(v, c, s) && |s| >= 2
    ensures var n := |s| - 1;
            (forall q :: q in s[..n] ==> q != s[n] && RankLe(v, c, q, s[n])) &&
            ((exists q :: q in s[..n] && q.node == s[n].node) <==> s[n - 1].node == s[n].node) &&
            (s[n - 1].node != s[n].node ==> forall q :: q in s[..n] ==> q.node < s[n].node)
  {
    var n := |s| - 1;
    forall q | q in s[..n]
      ensures q != s[n] && RankLe(v, c, q, s[n]) && q.node <= s[n - 1].node <= s[n].node
    {
      var i :| 0 <= i < n && s[i] == q;
      if i < n - 1 { assert RankLe(v, c, s[i], s[n - 1]); }
    }
    assert s[n - 1] in s[..n];
  }

  lemma {:induction false} DedupLeads(v: FabricView, c: set<Port>, s: seq<Port>)
    requires NoDup(s) && Ranked(v, c, s)
    ensures Ascending(Dedup(s)) && SetOf(Dedup(s)) == Leaders(v, c, SetOf(s))
    decreases |s|
  {
    hide Leaders;
    if |s| <= 1 {
      ShortLeads(v, c, s);
    } else {
      var n := |s| - 1;
      DropLast(s);
      DedupLeads(v, c, s[..n]);
      LastRanks(v, c, s);
      LeadersAdd(v, c, SetOf(s[..n]), s[n]);
      assert SetOf(s) == SetOf(s[..n]) + {s[n]};
      if s[n - 1].node != s[n].node {
        AppendLeader(Dedup(s[..n]), SetOf(s[..n]), s[n]);
      }
    }
  }

  lemma ShortLeads(v: FabricView, c: set<Port>, s: seq<Port>)
    requires |s| <= 1
    ensures Ascending(s) && SetOf(s) == Leaders(v, c, SetOf(s))
  {
  }

  lemma AppendLeader(r: seq<Port>, s: set<Port>, x: Port)
    requires Ascending(r) && SetOf(r) <= s && forall q :: q in s ==> q.node < x.node
    ensures Ascending(r + [x]) && SetOf(r + [x]) == SetOf(r) + {x}
  {
    assert forall i :: 0 <= i < |r| ==> r[i] in SetOf(r);
  }

  /** Sort by node, then rank, and keep each node's first port. */
  method ChoosePorts(v: FabricView, comp: seq<Port>) returns (r: seq<Port>)
    requires NoDup(comp)
    ensures Ascending(r) && SetOf(r) == Chosen(v, SetOf(comp))
  {
    var c := SetOf(comp);
    RankIsOrder(v, c);
    var le := (x: Port, y: Port) => RankLe(v, c, x, y);
    var s := Sort(comp, le);
    SortNoDup(comp, le);
    assert forall i, j :: 0 <= i < j < |s| ==> le(s[i], s[j]);
    assert SetOf(s) == c;
    DedupLeads(v, c, s);
    r := Dedup(s);
  }

  // ------------------------------------------------------------- pruning

  ghost predicate Clique(v: FabricView, c: set<Port>) {
    forall p, q :: p in c && q in c && p != q ==> Joins(v, p, q)
  }

  ghost predicate HasLink(v: FabricView, c: set<Port>) {
    exists p, q :: p in c && q in c && Joins(v, p, q)
  }

  lemma DegreeBounds(v: FabricView, c: set<Port>, p: Port)
    requires p in c
    ensures Degree(v, c, p) + 1 <= |c|
    ensures Degree(v, c, p) + 1 == |c| ==> forall q :: q in c && q != p ==> Joins(v, p, q)
    ensures Degree(v, c, p) == 0 ==> forall q :: q in c ==> !Joins(v, p, q)
  {
    var near := Near(v, c, p);
    assert |c - {p}| == |c| - 1;
    SubsetSize(near, c - {p});
    if Degree(v, c, p) + 1 == |c| {
      forall q | q in c && q != p ensures Joins(v, p, q) {
        assert q in c - {p} && q in near;
      }
    }
    if Degree(v, c, p) == 0 {
      forall q | q in c ensures !Joins(v, p, q) {
        assert q !in near;
      }
    }
  }

  /** Dropping a least-connected port of a set that is not yet whole never
      drops its last link. */
  lemma DropKeepsLink(v: FabricView, c: set<Port>, w: Port)
    requires w in c && Degree(v, c, w) + 1 < |c|
    requires forall p :: p in c ==> Degree(v, c, w) <= Degree(v, c, p)
    ensures HasLink(v, c) <==> HasLink(v, c - {w})
  {
    if HasLink(v, c) {
      DegreeBounds(v, c, w);
      if Degree(v, c, w) == 0 {
        var p, q :| p in c && q in c && Joins(v, p, q);
        assert Joins(v, q, p);
        assert p in c - {w} && q in c - {w};
      } else {
        var u := Unjoined(v, c, w);
        assert Degree(v, c, w) <= Degree(v, c, u);
        assert Near(v, c, u) != {};
        var x :| x in Near(v, c, u);
        assert Joins(v, u, x) && Joins(v, x, u);
        assert x != w && x in c - {w} && u in c - {w};
      }
    }
  }

  /** Some port of the set that the port does not join. */
  lemma Unjoined(v: FabricView, c: set<Port>, w: Port) returns (u: Port)
    requires w in c && Degree(v, c, w) + 1 < |c|
    ensures u in c && u != w && !Joins(v, w, u)
  {
    hide Joins;
    if forall u :: u in c && u != w ==> Joins(v, w, u) {
      assert c - {w} <= Near(v, c, w);
      SubsetSize(c - {w}, Near(v, c, w));
    }
    u :| u in c && u != w && !Joins(v, w, u);
  }

  method CountNear(v: FabricView, comp: seq<Port>, p: Port) returns (n: nat)
    requires NoDup(comp)
    ensures n == Degree(v, SetOf(comp), p)
  {
    n := 0;
    assert Near(v, SetOf(comp[..0]), p) == {};
    for i := 0 to |comp|
      invariant n == Degree(v, SetOf(comp[..i]), p)
    {
      assert comp[i] !in comp[..i];
      assert SetOf(comp[..i + 1]) == SetOf(comp[..i]) + {comp[i]};
      if Joins(v, p, comp[i]) {
        assert Near(v, SetOf(comp[..i + 1]), p) == Near(v, SetOf(comp[..i]), p) + {comp[i]};
        n := n + 1;
      } else {
        assert Near(v, SetOf(comp[..i + 1]), p) == Near(v, SetOf(comp[..i]), p);
      }
    }
    assert comp[..|comp|] == comp;
  }

  /** The least-connected port, ties broken by node and address. */
  method Worst(v: FabricView, comp: seq<Port>) returns (deg: nat, w: nat)
    requires NoDup(comp) && comp != []
    ensures w < |comp| && deg == Degree(v, SetOf(comp), comp[w])
    ensures forall p :: p in comp ==>
              deg < Degree(v, SetOf(comp), p) ||
              (deg == Degree(v, SetOf(comp), p) && PortLe(comp[w], p))
  {
    w := 0;
    deg := CountNear(v, comp, comp[0]);
    for i := 1 to |comp|
      invariant w < i && deg == Degree(v, SetOf(comp), comp[w])
      invariant forall j :: 0 <= j < i ==>
                  deg < Degree(v, SetOf(comp), comp[j]) ||
                  (deg == Degree(v, SetOf(comp), comp[j]) && PortLe(comp[w], comp[j]))
    {
      var d := CountNear(v, comp, comp[i]);
      if d < deg || (d == deg && !PortLe(comp[w], comp[i])) {
        deg, w := d, i;
      }
    }
  }

  lemma AscendingNoDup(s: seq<Port>)
    requires Ascending(s)
    ensures NoDup(s)
  {
    forall i, j | 0 <= i < j < |s| ensures s[i] != s[j] {
      assert s[i].node < s[j].node;
    }
  }

  lemma Without(s: seq<Port>, w: nat)
    requires Ascending(s) && w < |s|
    ensures Ascending(s[..w] + s[w + 1..])
    ensures SetOf(s[..w] + s[w + 1..]) == SetOf(s) - {s[w]}
  {
    var r := s[..w] + s[w + 1..];
    assert forall i :: 0 <= i < |r| ==> r[i] == if i < w then s[i] else s[i + 1];
    forall q | q in s && q != s[w] ensures q in r {
      var i :| 0 <= i < |s| && s[i] == q;
      assert r[if i < w then i else i - 1] == q;
    }
    forall q | q in r ensures q in s && q != s[w] {
      var i :| 0 <= i < |r| && r[i] == q;
      assert s[w].node != q.node;
    }
  }

  predicate Logged(given: seq<Port>, pruned: seq<Pruned>) {
    forall k :: 0 <= k < |pruned| ==> pruned[k].port in given && pruned[k].reaches < pruned[k].of
  }

  /** Drop the least-connected port until every survivor reaches every other.
      At least two survive exactly when the ports given hold a linked pair. */
  method Prune(v: FabricView, given: seq<Port>) returns (comp: seq<Port>, pruned: seq<Pruned>)
    requires Ascending(given)
    ensures Ascending(comp) && SetOf(comp) <= SetOf(given) && Clique(v, SetOf(comp))
    ensures |comp| >= 2 <==> HasLink(v, SetOf(given))
    ensures |pruned| + |comp| == |given| && Logged(given, pruned)
  {
    comp, pruned := given, [];
    while comp != []
      invariant Ascending(comp) && SetOf(comp) <= SetOf(given)
      invariant HasLink(v, SetOf(comp)) <==> HasLink(v, SetOf(given))
      invariant |pruned| + |comp| == |given| && Logged(given, pruned)
      decreases |comp|
    {
      AscendingNoDup(comp);
      var deg, w := Worst(v, comp);
      NoDupSize(comp);
      if deg + 1 >= |comp| {
        WholeIsClique(v, comp, deg);
        return;
      }
      assert comp[w] in SetOf(comp);
      pruned := pruned + [Pruned(comp[w], deg, |comp| - 1)];
      DropKeepsLink(v, SetOf(comp), comp[w]);
      Without(comp, w);
      comp := comp[..w] + comp[w + 1..];
    }
  }

  /** Where every port reaches all the others the ports form a clique, which
      holds a link exactly when it has two ports. */
  lemma WholeIsClique(v: FabricView, comp: seq<Port>, deg: nat)
    requires NoDup(comp) && comp != [] && deg + 1 >= |comp|
    requires forall p :: p in comp ==> deg <= Degree(v, SetOf(comp), p)
    ensures Clique(v, SetOf(comp))
    ensures |comp| >= 2 <==> HasLink(v, SetOf(comp))
  {
    var c := SetOf(comp);
    NoDupSize(comp);
    forall p, q | p in c && q in c && p != q ensures Joins(v, p, q) {
      DegreeBounds(v, c, p);
    }
    if |comp| >= 2 {
      assert comp[0] in c && comp[1] in c && Joins(v, comp[0], comp[1]);
    } else {
      assert c == {comp[0]};
    }
  }

  // ------------------------------------------------------------- islands

  function PortsOf(i: Island): set<Port> {
    set n | n in i.nodes && n in i.addr :: Port(n, i.addr[n])
  }

  /** An island is whole: at least two distinct nodes in order, each bound to
      one of its own tagged addresses, every two of which answered a probe. */
  ghost predicate Whole(v: FabricView, i: Island) {
    |i.nodes| >= 2 &&
    (forall j, k :: 0 <= j < k < |i.nodes| ==> i.nodes[j] < i.nodes[k]) &&
    i.addr.Keys == SetOf(i.nodes) &&
    (forall n :: n in i.nodes ==> n in v.rdma && i.addr[n] in v.rdma[n]) &&
    (forall n, m :: n in i.nodes && m in i.nodes && n != m ==> Linked(v, i.addr[n], i.addr[m]))
  }

  /** The island made of a sorted clique of ports. */
  function IslandOf(comp: seq<Port>): Island
    requires Ascending(comp)
  {
    Island(seq(|comp|, i requires 0 <= i < |comp| => comp[i].node),
           map p | p in comp :: p.node := p.addr)
  }

  lemma IslandOfIsWhole(v: FabricView, comp: seq<Port>)
    requires |comp| >= 2 && Clique(v, SetOf(comp))
    requires forall p :: p in comp ==> Tagged(v, p)
    requires Ascending(comp)
    ensures Whole(v, IslandOf(comp)) && PortsOf(IslandOf(comp)) == SetOf(comp)
  {
    var i := IslandOf(comp);
    forall n | n in i.nodes
      ensures n in i.addr && Port(n, i.addr[n]) in comp
    {
      var k :| 0 <= k < |comp| && comp[k].node == n;
      assert comp[k] in comp;
    }
    forall p | p in comp ensures p.node in i.nodes && i.addr[p.node] == p.addr {
      var k :| 0 <= k < |comp| && comp[k] == p;
      assert i.nodes[k] == p.node;
    }
    forall n, m | n in i.nodes && m in i.nodes && n != m
      ensures Linked(v, i.addr[n], i.addr[m])
    {
      assert Joins(v, Port(n, i.addr[n]), Port(m, i.addr[m]));
    }
    forall p | p in comp ensures p in PortsOf(i) {
      assert p == Port(p.node, i.addr[p.node]);
    }
  }

  /** Some island sits on ports of `c`. */
  ghost predicate Served(out: seq<Island>, c: set<Port>) {
    exists i :: 0 <= i < |out| && PortsOf(out[i]) <= c
  }

  /** What the islands say of one port's component: an island sits on it
      exactly when the ports chosen for it hold a linked pair. */
  ghost predicate Decided(v: FabricView, out: seq<Island>, seed: Port) {
    forall c :: IsComponent(v, c, seed) ==> (Served(out, c) <==> HasLink(v, Chosen(v, c)))
  }

  ghost predicate Disjoint(out: seq<Island>) {
    forall i, j :: 0 <= i < j < |out| ==> PortsOf(out[i]) !! PortsOf(out[j])
  }

  lemma ComponentIsUnique(v: FabricView, c: set<Port>, d: set<Port>, p: Port, q: Port)
    requires IsComponent(v, c, p) && IsComponent(v, d, q) && q in c
    ensures c == d
  {
    forall x | x in d ensures x in c {
      var w :| Walk(v, w) && w[0] == q && w[|w| - 1] == x;
      WalkStays(v, c, w, |w| - 1);
    }
    if p !in d {
      ComponentAvoids(v, c, p, d);
    }
    forall x | x in c ensures x in d {
      var w :| Walk(v, w) && w[0] == p && w[|w| - 1] == x;
      WalkStays(v, d, w, |w| - 1);
    }
  }

  /** What holds while the seeds are walked: `placed` is closed and holds every
      island's ports, islands are whole and share no port, and every component
      walked so far is decided. */
  ghost predicate Progress(v: FabricView, placed: set<Port>, out: seq<Island>) {
    Closed(v, placed) &&
    (forall i :: 0 <= i < |out| ==> Whole(v, out[i]) && PortsOf(out[i]) <= placed) &&
    Disjoint(out) &&
    (forall p :: p in placed ==> Tagged(v, p) && Decided(v, out, p))
  }

  lemma IslandHasPorts(v: FabricView, i: Island)
    requires Whole(v, i)
    ensures PortsOf(i) != {}
  {
    assert i.nodes[0] in i.nodes;
    assert Port(i.nodes[0], i.addr[i.nodes[0]]) in PortsOf(i);
  }

  /** The islands after one more component, and what is known of its ports. */
  ghost predicate Outcome(v: FabricView, c: set<Port>, comp: seq<Port>, out: seq<Island>, out': seq<Island>) {
    Ascending(comp) && SetOf(comp) <= Chosen(v, c) && Clique(v, SetOf(comp)) &&
    (|comp| >= 2 <==> HasLink(v, Chosen(v, c))) &&
    (|comp| < 2 ==> out' == out) &&
    (|comp| >= 2 ==> out' == out + [IslandOf(comp)] &&
                     Whole(v, IslandOf(comp)) && PortsOf(IslandOf(comp)) <= c)
  }

  lemma OutcomeIsWhole(v: FabricView, c: set<Port>, seed: Port, comp: seq<Port>)
    requires IsComponent(v, c, seed)
    requires |comp| >= 2 && Ascending(comp) && SetOf(comp) <= Chosen(v, c) && Clique(v, SetOf(comp))
    ensures Whole(v, IslandOf(comp)) && PortsOf(IslandOf(comp)) <= c
  {
    assert forall p :: p in comp ==> p in SetOf(comp) && p in c;
    IslandOfIsWhole(v, comp);
  }

  /** Adding the outcome of one more component keeps all of that. */
  lemma AddComponent(v: FabricView, placed: set<Port>, out: seq<Island>, c: set<Port>, seed: Port,
                     comp: seq<Port>, out': seq<Island>)
    requires Progress(v, placed, out) && IsComponent(v, c, seed) && seed !in placed
    requires Outcome(v, c, comp, out, out')
    ensures Progress(v, placed + c, out')
  {
    ComponentAvoids(v, c, seed, placed);
    ServedOnlyByNew(v, placed, out, c, comp, out');
    forall p | p in placed + c
      ensures Tagged(v, p) && Decided(v, out', p)
    {
      forall d | IsComponent(v, d, p)
        ensures Served(out', d) <==> HasLink(v, Chosen(v, d))
      {
        if p in c {
          ComponentIsUnique(v, c, d, seed, p);
        } else {
          ServedAsBefore(v, out, c, d, p, comp, out');
          assert Decided(v, out, p);
        }
      }
    }
    AddKeepsDisjoint(v, placed, out, c, comp, out');
  }

  lemma AddKeepsDisjoint(v: FabricView, placed: set<Port>, out: seq<Island>, c: set<Port>,
                         comp: seq<Port>, out': seq<Island>)
    requires forall i :: 0 <= i < |out| ==> Whole(v, out[i]) && PortsOf(out[i]) <= placed
    requires Disjoint(out) && placed !! c && Outcome(v, c, comp, out, out')
    ensures Disjoint(out')
    ensures forall i :: 0 <= i < |out'| ==> Whole(v, out'[i]) && PortsOf(out'[i]) <= placed + c
  {
    assert forall i :: 0 <= i < |out| ==> out'[i] == out[i];
    forall i, j | 0 <= i < j < |out'| ensures PortsOf(out'[i]) !! PortsOf(out'[j]) {
      if j == |out| {
        assert PortsOf(out[i]) <= placed && PortsOf(out'[j]) <= c;
      }
    }
  }

  lemma ServedOnlyByNew(v: FabricView, placed: set<Port>, out: seq<Island>, c: set<Port>,
                        comp: seq<Port>, out': seq<Island>)
    requires forall i :: 0 <= i < |out| ==> Whole(v, out[i]) && PortsOf(out[i]) <= placed
    requires placed !! c && Outcome(v, c, comp, out, out')
    ensures Served(out', c) <==> HasLink(v, Chosen(v, c))
  {
    if |comp| >= 2 {
      assert out'[|out|] == IslandOf(comp);
    }
    forall i | 0 <= i < |out| ensures !(PortsOf(out[i]) <= c) {
      IslandHasPorts(v, out[i]);
      var p :| p in PortsOf(out[i]);
      assert p in placed;
    }
  }

  lemma ServedAsBefore(v: FabricView, out: seq<Island>, c: set<Port>, d: set<Port>,
                       p: Port, comp: seq<Port>, out': seq<Island>)
    requires Closed(v, c) && IsComponent(v, d, p) && p !in c && Outcome(v, c, comp, out, out')
    ensures Served(out', d) <==> Served(out, d)
  {
    ComponentAvoids(v, d, p, c);
    if |comp| >= 2 {
      IslandHasPorts(v, IslandOf(comp));
      var q :| q in PortsOf(IslandOf(comp));
      assert q in c && q !in d;
      assert out'[|out|] == IslandOf(comp);
    }
    assert forall i :: 0 <= i < |out| ==> out'[i] == out[i];
  }

  /** No node lists an address twice. */
  ghost predicate Listed(v: FabricView) {
    forall n :: n in v.rdma ==> NoDup(v.rdma[n])
  }

  /** Every tagged port, in order, each once unless a node lists an address twice. */
  method Ports(v: FabricView) returns (out: seq<Port>)
    ensures Sorted(out, PortLe)
    ensures forall p :: p in out <==> Tagged(v, p)
    ensures Listed(v) ==> NoDup(out)
  {
    var all: seq<Port> := [];
    var todo := v.rdma.Keys;
    while todo != {}
      invariant todo <= v.rdma.Keys
      invariant forall p :: p in all <==> Tagged(v, p) && p.node !in todo
      invariant Listed(v) ==> NoDup(all)
      decreases todo
    {
      var n :| n in todo;
      var addrs := v.rdma[n];
      ghost var before := all;
      for i := 0 to |addrs|
        invariant forall p :: p in all <==> p in before || (p.node == n && p.addr in addrs[..i])
        invariant Listed(v) ==> NoDup(all)
      {
        assert Listed(v) ==> Port(n, addrs[i]) !in all;
        all := all + [Port(n, addrs[i])];
        assert addrs[..i + 1] == addrs[..i] + [addrs[i]];
      }
      assert addrs[..|addrs|] == addrs;
      todo := todo - {n};
    }
    if Listed(v) { SortNoDup(all, PortLe); }
    out := Sort(all, PortLe);
  }

  predicate IslandLe(x: Island, y: Island) {
    LexLe(x.nodes, y.nodes)
  }

  lemma IslandOrder()
    ensures TotalOrder(IslandLe)
  {
    forall x: Island, y: Island ensures IslandLe(x, y) || IslandLe(y, x) {
      LexTotal(x.nodes, y.nodes);
    }
    forall x: Island, y: Island, z: Island | IslandLe(x, y) && IslandLe(y, z)
      ensures IslandLe(x, z)
    {
      LexTransitive(x.nodes, y.nodes, z.nodes);
    }
  }

  lemma IslandsDiffer(v: FabricView, out: seq<Island>)
    requires Disjoint(out) && forall i :: 0 <= i < |out| ==> Whole(v, out[i])
    ensures NoDup(out)
  {
    forall i, j | 0 <= i < j < |out| ensures out[i] != out[j] {
      IslandHasPorts(v, out[i]);
      assert PortsOf(out[i]) !! PortsOf(out[j]);
    }
  }

  lemma SameIslandsDisjoint(out: seq<Island>, r: seq<Island>)
    requires Disjoint(out) && NoDup(r) && forall x :: x in r ==> x in out
    ensures Disjoint(r)
  {
    forall i, j | 0 <= i < j < |r| ensures PortsOf(r[i]) !! PortsOf(r[j]) {
      assert r[i] in out && r[j] in out;
      var k :| 0 <= k < |out| && out[k] == r[i];
      var m :| 0 <= m < |out| && out[m] == r[j];
      assert k != m;
      if k < m { assert PortsOf(out[k]) !! PortsOf(out[m]); }
    }
  }

  lemma SameIslandsServe(out: seq<Island>, r: seq<Island>, c: set<Port>)
    requires forall x :: x in r ==> x in out
    ensures Served(r, c) ==> Served(out, c)
  {
    if i :| 0 <= i < |r| && PortsOf(r[i]) <= c {
      assert r[i] in out;
    }
  }

  /** Sorting the islands changes nothing that is said of them. */
  lemma SortKeeps(v: FabricView, out: seq<Island>)
    requires TotalOrder(IslandLe) && Disjoint(out)
    requires forall i :: 0 <= i < |out| ==> Whole(v, out[i])
    ensures var r := Sort(out, IslandLe);
            Disjoint(r) && (forall i :: 0 <= i < |r| ==> Whole(v, r[i])) &&
            forall p :: Decided(v, out, p) ==> Decided(v, r, p)
  {
    hide Served;
    hide Disjoint;
    hide Whole;
    var r := Sort(out, IslandLe);
    IslandsDiffer(v, out);
    SortNoDup(out, IslandLe);
    SameIslandsDisjoint(out, r);
    forall c ensures Served(r, c) <==> Served(out, c) {
      SameIslandsServe(out, r, c);
      SameIslandsServe(r, out, c);
    }
    forall i | 0 <= i < |r| ensures Whole(v, r[i]) {
      assert r[i] in out;
    }
  }

  /** The islands a view implies, sorted by their nodes, and the ports pruned
      to find them. */
  method FindIslands(v: FabricView) returns (out: seq<Island>, pruned: seq<Pruned>)
    ensures Sorted(out, IslandLe)
    ensures forall i :: 0 <= i < |out| ==> Whole(v, out[i])
    ensures Disjoint(out)
    ensures forall p :: Tagged(v, p) ==> Decided(v, out, p)
  {
    hide Listed, NoDup, Sorted, Decided;
    out, pruned := [], [];
    var ports := Ports(v);
    var placed: set<Port> := {};
    for s := 0 to |ports|
      invariant Progress(v, placed, out)
      invariant forall i :: 0 <= i < s ==> ports[i] in placed
    {
      var seed := ports[s];
      if seed !in placed {
        var comp := Component(v, ports, seed);
        ghost var c := SetOf(comp);
        ghost var placed0, out0 := placed, out;
        placed := placed + SetOf(comp);
        comp := ChoosePorts(v, comp);
        var lost;
        comp, lost := Prune(v, comp);
        pruned := pruned + lost;
        if |comp| >= 2 {
          OutcomeIsWhole(v, c, seed, comp);
          out := out + [IslandOf(comp)];
        }
        AddComponent(v, placed0, out0, c, seed, comp, out);
      }
    }
    IslandOrder();
    SortKeeps(v, out);
    out := Sort(out, IslandLe);
  }

  // -------------------------------------------- when a fabric is not lost

  ghost predicate OneAddressEach(v: FabricView) {
    forall p, q :: Tagged(v, p) && Tagged(v, q) && p.node == q.node ==> p == q
  }

  /** When every node tags one address, every port of a component is chosen, so
      the component of any linked pair yields an island. */
  lemma OneAddressKeepsFabric(v: FabricView, out: seq<Island>, p: Port, q: Port, c: set<Port>)
    requires OneAddressEach(v) && Decided(v, out, p)
    requires Tagged(v, p) && Tagged(v, q) && Joins(v, p, q) && IsComponent(v, c, p)
    ensures Chosen(v, c) == c && Served(out, c)
  {
    assert q in c;
  }

  /** Six ports in a ring, two per node. */
  const RING_VIEW := FabricView(map[0 := [1, 2], 1 := [3, 4], 2 := [5, 6]],
                                {(1, 4), (1, 6), (3, 2), (3, 6), (5, 2), (5, 4)})
  const RING_PORTS := {Port(0, 1), Port(0, 2), Port(1, 3), Port(1, 4), Port(2, 5), Port(2, 6)}

  lemma RingIsComponent()
    ensures IsComponent(RING_VIEW, RING_PORTS, Port(0, 1))
  {
    var v, a := RING_VIEW, Port(0, 1);
    assert forall p :: Tagged(v, p) <==> p in RING_PORTS;
    ConnectedSelf(v, a);
    ConnectedStep(v, a, a, Port(1, 4));
    ConnectedStep(v, a, Port(1, 4), Port(2, 5));
    ConnectedStep(v, a, Port(2, 5), Port(0, 2));
    ConnectedStep(v, a, Port(0, 2), Port(1, 3));
    ConnectedStep(v, a, Port(1, 3), Port(2, 6));
  }

  lemma RingTies()
    ensures forall p :: p in RING_PORTS ==> Degree(RING_VIEW, RING_PORTS, p) == 2
  {
    var v, c := RING_VIEW, RING_PORTS;
    assert Near(v, c, Port(0, 1)) == {Port(1, 4), Port(2, 6)};
    assert Near(v, c, Port(0, 2)) == {Port(1, 3), Port(2, 5)};
    assert Near(v, c, Port(1, 3)) == {Port(0, 2), Port(2, 6)};
    assert Near(v, c, Port(1, 4)) == {Port(0, 1), Port(2, 5)};
    assert Near(v, c, Port(2, 5)) == {Port(0, 2), Port(1, 4)};
    assert Near(v, c, Port(2, 6)) == {Port(0, 1), Port(1, 3)};
  }

  /** The lower address of a node that ties is the one that can be chosen. */
  lemma HigherNotChosen(v: FabricView, c: set<Port>, low: Port, high: Port)
    requires low in c && low.node == high.node && low.addr < high.addr
    requires Degree(v, c, low) == Degree(v, c, high)
    ensures high !in Chosen(v, c)
  {
    assert !Better(v, c, high, low);
  }

  lemma RingChosen()
    ensures Chosen(RING_VIEW, RING_PORTS) <= {Port(0, 1), Port(1, 3), Port(2, 5)}
  {
    var v, c := RING_VIEW, RING_PORTS;
    RingTies();
    hide Chosen;
    assert Chosen(v, c) <= c by { ChosenInside(v, c); }
    HigherNotChosen(v, c, Port(0, 1), Port(0, 2));
    HigherNotChosen(v, c, Port(1, 3), Port(1, 4));
    HigherNotChosen(v, c, Port(2, 5), Port(2, 6));
  }

  lemma ChosenInside(v: FabricView, c: set<Port>)
    ensures Chosen(v, c) <= c
  {
  }

  /** With two addresses each a whole fabric can be lost: each node's lower
      address ties with its higher one and is chosen, and no two chosen ports
      are linked. */
  lemma TwoAddressesCanLoseFabric()
    ensures exists v, c, seed :: IsComponent(v, c, seed) && HasLink(v, c) && !HasLink(v, Chosen(v, c))
  {
    hide Chosen;
    hide IsComponent;
    RingIsComponent();
    RingChosen();
    assert Joins(RING_VIEW, Port(0, 1), Port(1, 4));
    assert HasLink(RING_VIEW, RING_PORTS);
    assert !HasLink(RING_VIEW, Chosen(RING_VIEW, RING_PORTS));
  }

  /** A node's chosen port joins most others of the component, or as many as any at the
      lowest address. */
  lemma ChosenJoinsMost(v: FabricView, c: set<Port>, p: Port, q: Port)
    requires p in Chosen(v, c) && q in c && q.node == p.node
    ensures |Near(v, c, q)| <= |Near(v, c, p)| && (|Near(v, c, q)| == |Near(v, c, p)| ==> p.addr <= q.addr)
  {
  }
}
