/** The probed topology a claim is matched against, and the best link between
    two nodes. */
module Topology {
  import opened Basics
  import Islands

  type NodeId = nat
  type Addr = nat

  /** What a set or a pair of sets needs of a link: a tagged fabric address at
      both ends, or anything that answered a probe. */
  datatype Link = Rdma | Any

  /** One address a node listens on. */
  datatype Port = Port(addr: Addr, iface: Option<nat>, rdma: bool)

  datatype Net = Net(
    islands: seq<Islands.Island>,
    ports: map<NodeId, seq<Port>>,
    links: map<(Addr, Addr), nat>,        // pairs that answered, with the round trip
    forwarded: set<(Addr, Addr)>,         // pairs a third box forwards between
    free: map<NodeId, nat>)               // GPUs free on each node

  /** One usable link between two nodes. */
  datatype Path = Path(from: NodeId, to: NodeId, local: Port, remote: Port, rtt: nat)

  function Rtt(t: Net, a: Addr, b: Addr): Option<nat> {
    if (a, b) in t.links then Some(t.links[(a, b)])
    else if (b, a) in t.links then Some(t.links[(b, a)])
    else None
  }

  predicate IsForwarded(t: Net, a: Addr, b: Addr) {
    (a, b) in t.forwarded || (b, a) in t.forwarded
  }

  /** Whether a port pair serves: tagged at both ends for a fabric link,
      answered a probe, and with `cable` not forwarded. */
  predicate Serves(t: Net, x: Port, y: Port, link: Link, cable: bool) {
    (link == Rdma ==> x.rdma && y.rdma) &&
    Rtt(t, x.addr, y.addr).Some? &&
    (cable ==> !IsForwarded(t, x.addr, y.addr))
  }

  predicate Closer(p: Path, q: Path) {
    p.rtt < q.rtt ||
    (p.rtt == q.rtt && (p.local.addr < q.local.addr ||
                        (p.local.addr == q.local.addr && p.remote.addr < q.remote.addr)))
  }

  function PortsAt(t: Net, n: NodeId): seq<Port> {
    if n in t.ports then t.ports[n] else []
  }

  /** A path over one of the two nodes' port pairs that serves. */
  ghost predicate IsPath(t: Net, a: NodeId, b: NodeId, link: Link, cable: bool, p: Path) {
    p.from == a && p.to == b && p.local in PortsAt(t, a) && p.remote in PortsAt(t, b) &&
    Serves(t, p.local, p.remote, link, cable) && Rtt(t, p.local.addr, p.remote.addr) == Some(p.rtt)
  }

  /** The running best after one more port pair. */
  function Offer(t: Net, a: NodeId, b: NodeId, link: Link, cable: bool,
                 best: Option<Path>, x: Port, y: Port): Option<Path> {
    if !Serves(t, x, y, link, cable) then best
    else
      var cand := Path(a, b, x, y, Rtt(t, x.addr, y.addr).value);
      if best.None? || Closer(cand, best.value) then Some(cand) else best
  }

  /** The running best over one port's pairs, then over all pairs. */
  function OfferRow(t: Net, a: NodeId, b: NodeId, link: Link, cable: bool,
                    best: Option<Path>, x: Port, ys: seq<Port>): Option<Path>
    decreases |ys|
  {
    if ys == [] then best
    else
      var n := |ys| - 1;
      Offer(t, a, b, link, cable, OfferRow(t, a, b, link, cable, best, x, ys[..n]), x, ys[n])
  }

  function OfferAll(t: Net, a: NodeId, b: NodeId, link: Link, cable: bool, xs: seq<Port>, ys: seq<Port>): Option<Path>
    decreases |xs|
  {
    if xs == [] then None
    else
      var n := |xs| - 1;
      OfferRow(t, a, b, link, cable, OfferAll(t, a, b, link, cable, xs[..n], ys), xs[n], ys)
  }

  /** The best link between two nodes, or None. */
  function BestPath(t: Net, a: NodeId, b: NodeId, link: Link, cable: bool): Option<Path> {
    OfferAll(t, a, b, link, cable, PortsAt(t, a), PortsAt(t, b))
  }

  /** `path`: two nested loops over a running best. */
  method FindPath(t: Net, a: NodeId, b: NodeId, link: Link, cable: bool) returns (best: Option<Path>)
    ensures best == BestPath(t, a, b, link, cable)
  {
    best := None;
    if a !in t.ports || b !in t.ports {
      if b !in t.ports { NoPortsNoPath(t, a, b, link, cable, PortsAt(t, a)); }
      return;
    }
    var xs, ys := t.ports[a], t.ports[b];
    for i := 0 to |xs|
      invariant best == OfferAll(t, a, b, link, cable, xs[..i], ys)
    {
      ghost var before := best;
      for j := 0 to |ys|
        invariant best == OfferRow(t, a, b, link, cable, before, xs[i], ys[..j])
      {
        var x, y := xs[i], ys[j];
        assert ys[..j + 1][..j] == ys[..j];
        if (link == Rdma && !(x.rdma && y.rdma)) || Rtt(t, x.addr, y.addr).None? ||
           (cable && IsForwarded(t, x.addr, y.addr)) {
          continue;
        }
        var cand := Path(a, b, x, y, Rtt(t, x.addr, y.addr).value);
        if best.None? || Closer(cand, best.value) {
          best := Some(cand);
        }
      }
      assert ys[..|ys|] == ys && xs[..i + 1][..i] == xs[..i];
    }
    assert xs[..|xs|] == xs;
  }

  lemma {:induction false} NoPortsNoPath(t: Net, a: NodeId, b: NodeId, link: Link, cable: bool, xs: seq<Port>)
    ensures OfferAll(t, a, b, link, cable, xs, []) == None
    decreases |xs|
  {
    if xs != [] {
      NoPortsNoPath(t, a, b, link, cable, xs[..|xs| - 1]);
    }
  }

  // ---------------------------------------------------- what the best is

  /** `r` is at least as good as every pair of `xs` and `ys` that serves. */
  ghost predicate Covers(t: Net, a: NodeId, b: NodeId, link: Link, cable: bool,
                         r: Option<Path>, xs: seq<Port>, ys: seq<Port>) {
    forall x, y :: x in xs && y in ys && Serves(t, x, y, link, cable) ==>
      r.Some? && !Closer(Path(a, b, x, y, Rtt(t, x.addr, y.addr).value), r.value)
  }

  ghost predicate Made(t: Net, a: NodeId, b: NodeId, link: Link, cable: bool,
                       r: Option<Path>, xs: seq<Port>, ys: seq<Port>) {
    r.Some? ==>
      r.value.from == a && r.value.to == b && r.value.local in xs && r.value.remote in ys &&
      Serves(t, r.value.local, r.value.remote, link, cable) &&
      Rtt(t, r.value.local.addr, r.value.remote.addr) == Some(r.value.rtt)
  }

  lemma {:induction false} RowIsBest(t: Net, a: NodeId, b: NodeId, link: Link, cable: bool,
                                     best: Option<Path>, xs: seq<Port>, x: Port, ys: seq<Port>, all: seq<Port>)
    requires Made(t, a, b, link, cable, best, xs, all) && Covers(t, a, b, link, cable, best, xs, all)
    requires forall y :: y in ys ==> y in all
    ensures var r := OfferRow(t, a, b, link, cable, best, x, ys);
            Made(t, a, b, link, cable, r, xs + [x], all) &&
            Covers(t, a, b, link, cable, r, xs, all) && Covers(t, a, b, link, cable, r, [x], ys)
    decreases |ys|
  {
    if ys != [] {
      var n := |ys| - 1;
      RowIsBest(t, a, b, link, cable, best, xs, x, ys[..n], all);
      assert ys[n] in all;
      assert forall y :: y in ys ==> y in ys[..n] || y == ys[n];
    }
  }

  lemma {:induction false} AllIsBest(t: Net, a: NodeId, b: NodeId, link: Link, cable: bool, xs: seq<Port>, ys: seq<Port>)
    ensures var r := OfferAll(t, a, b, link, cable, xs, ys);
            Made(t, a, b, link, cable, r, xs, ys) && Covers(t, a, b, link, cable, r, xs, ys)
    decreases |xs|
  {
    if xs != [] {
      var n := |xs| - 1;
      AllIsBest(t, a, b, link, cable, xs[..n], ys);
      RowIsBest(t, a, b, link, cable, OfferAll(t, a, b, link, cable, xs[..n], ys), xs[..n], xs[n], ys, ys);
      assert xs == xs[..n] + [xs[n]];
      assert forall x :: x in xs ==> x in xs[..n] || x in [xs[n]];
    }
  }

  /** The best path is a path, none is closer, and there is one exactly when
      some port pair serves. */
  lemma BestPathIsBest(t: Net, a: NodeId, b: NodeId, link: Link, cable: bool)
    ensures BestPath(t, a, b, link, cable).Some? <==> exists p :: IsPath(t, a, b, link, cable, p)
    ensures BestPath(t, a, b, link, cable).Some? ==>
              IsPath(t, a, b, link, cable, BestPath(t, a, b, link, cable).value) &&
              forall p :: IsPath(t, a, b, link, cable, p) ==>
                !Closer(p, BestPath(t, a, b, link, cable).value)
  {
    AllIsBest(t, a, b, link, cable, PortsAt(t, a), PortsAt(t, b));
    forall p | IsPath(t, a, b, link, cable, p)
      ensures BestPath(t, a, b, link, cable).Some? && !Closer(p, BestPath(t, a, b, link, cable).value)
    {
      assert p == Path(a, b, p.local, p.remote, Rtt(t, p.local.addr, p.remote.addr).value);
    }
    if BestPath(t, a, b, link, cable).Some? {
      assert IsPath(t, a, b, link, cable, BestPath(t, a, b, link, cable).value);
    }
  }

  /** A pair of nodes is linked one way exactly when it is linked the other. */
  lemma LinkedBothWays(t: Net, a: NodeId, b: NodeId, link: Link, cable: bool)
    ensures BestPath(t, a, b, link, cable).Some? <==> BestPath(t, b, a, link, cable).Some?
  {
    LinkedBack(t, a, b, link, cable);
    LinkedBack(t, b, a, link, cable);
  }

  lemma LinkedBack(t: Net, a: NodeId, b: NodeId, link: Link, cable: bool)
    ensures BestPath(t, a, b, link, cable).Some? ==> BestPath(t, b, a, link, cable).Some?
  {
    BestPathIsBest(t, a, b, link, cable);
    BestPathIsBest(t, b, a, link, cable);
    if BestPath(t, a, b, link, cable).Some? {
      var p := BestPath(t, a, b, link, cable).value;
      assert IsPath(t, b, a, link, cable,
                    Path(b, a, p.remote, p.local, Rtt(t, p.remote.addr, p.local.addr).value));
    }
  }

  /** Two nodes joined by a link that no third box forwards. */
  predicate Cabled(t: Net, link: Link, a: NodeId, b: NodeId) {
    BestPath(t, a, b, link, true).Some?
  }

  /** Addresses that answered a probe, in either direction. */
  predicate Probed(t: Net, a: Addr, b: Addr) {
    (a, b) in t.links || (b, a) in t.links
  }

  /** A port pair joins two nodes: probed, tagged at both ends for a fabric link, and for a
      cable forwarded by nobody in either direction. */
  predicate JoinsBy(t: Net, x: Port, y: Port, link: Link, cable: bool) {
    Probed(t, x.addr, y.addr) && (link == Rdma ==> x.rdma && y.rdma) &&
    (cable ==> (x.addr, y.addr) !in t.forwarded && (y.addr, x.addr) !in t.forwarded)
  }

  /** Two nodes have a best link exactly when some pair of their ports joins them. */
  lemma BestPathExactly(t: Net, a: NodeId, b: NodeId, link: Link, cable: bool)
    ensures BestPath(t, a, b, link, cable).Some? <==>
            exists x, y :: x in PortsAt(t, a) && y in PortsAt(t, b) && JoinsBy(t, x, y, link, cable)
  {
    BestPathIsBest(t, a, b, link, cable);
    hide BestPath;
    if x, y :| x in PortsAt(t, a) && y in PortsAt(t, b) && JoinsBy(t, x, y, link, cable) {
      assert IsPath(t, a, b, link, cable, Path(a, b, x, y, Rtt(t, x.addr, y.addr).value));
    }
    if p :| IsPath(t, a, b, link, cable, p) {
      assert JoinsBy(t, p.local, p.remote, link, cable);
    }
  }

  /** It has the least round trip, then the least local address, then the least remote. */
  lemma BestPathIsLeast(t: Net, a: NodeId, b: NodeId, link: Link, cable: bool, x: Port, y: Port, rtt: nat)
    requires x in PortsAt(t, a) && y in PortsAt(t, b) && JoinsBy(t, x, y, link, cable) && Rtt(t, x.addr, y.addr) == Some(rtt)
    ensures var p := BestPath(t, a, b, link, cable);
            p.Some? && p.value.rtt <= rtt &&
            (p.value.rtt == rtt ==>
               p.value.local.addr < x.addr || (p.value.local.addr == x.addr && p.value.remote.addr <= y.addr))
  {
    BestPathIsBest(t, a, b, link, cable);
    hide BestPath;
    assert IsPath(t, a, b, link, cable, Path(a, b, x, y, rtt));
  }
}
