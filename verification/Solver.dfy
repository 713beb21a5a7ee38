/** Matching a request of several sets, and links between them, against the
    topology: candidates per set, backtracking over the sets, and the answer. */
module Solver {
  import opened Basics
  import opened Topology
  import opened Chains

  datatype BetweenReq = BetweenReq(from: Name, to: Name, link: Link)

  datatype Request = Request(sets: seq<SetReq>, between: seq<BetweenReq>)

  /** A member of a placed set: the port it binds and, in a ring or a line, the
      links to the members before and after it. */
  datatype Member = Member(node: NodeId, bind: Port, prev: Option<Path>, next: Option<Path>)

  datatype Solution = Solution(sets: map<Name, seq<Member>>, between: seq<Path>)

  type Choice = map<Name, seq<NodeId>>

  // ------------------------------------------------------------ candidates

  predicate Suits(t: Net, set_: SetReq, taken: set<NodeId>, n: NodeId, i: nat)
    requires i < |set_.bundles|
  {
    n !in taken && FreeAt(t, n) >= set_.bundles[i]
  }

  /** The first nodes that suit the bundles in turn. */
  function Pick(t: Net, set_: SetReq, taken: set<NodeId>, nodes: seq<NodeId>): (chosen: seq<NodeId>)
    ensures |chosen| <= |set_.bundles|
  {
    if nodes == [] then []
    else
      var n := |nodes| - 1;
      var chosen := Pick(t, set_, taken, nodes[..n]);
      if |chosen| < |set_.bundles| && Suits(t, set_, taken, nodes[n], |chosen|) then chosen + [nodes[n]]
      else chosen
  }

  method PickFirst(t: Net, set_: SetReq, taken: set<NodeId>, nodes: seq<NodeId>) returns (chosen: seq<NodeId>)
    ensures chosen == Pick(t, set_, taken, nodes)
  {
    chosen := [];
    var i := 0;
    while i < |nodes|
      invariant 0 <= i <= |nodes| && chosen == Pick(t, set_, taken, nodes[..i])
    {
      if |chosen| == |set_.bundles| {
        PickFull(t, set_, taken, nodes, i);
        return;
      }
      assert nodes[..i + 1][..i] == nodes[..i];
      if Suits(t, set_, taken, nodes[i], |chosen|) {
        chosen := chosen + [nodes[i]];
      }
      i := i + 1;
    }
    assert nodes[..|nodes|] == nodes;
  }

  lemma {:induction false} PickFull(t: Net, set_: SetReq, taken: set<NodeId>, nodes: seq<NodeId>, i: nat)
    requires i <= |nodes| && |Pick(t, set_, taken, nodes[..i])| == |set_.bundles|
    ensures Pick(t, set_, taken, nodes) == Pick(t, set_, taken, nodes[..i])
    decreases |nodes|
  {
    if i == |nodes| {
      assert nodes[..i] == nodes;
    } else {
      var n := |nodes| - 1;
      assert nodes[..n][..i] == nodes[..i];
      PickFull(t, set_, taken, nodes[..n], i);
    }
  }

  /** The nodes of an island still to be had. */
  function Avail(nodes: seq<NodeId>, taken: set<NodeId>): seq<NodeId> {
    Filter(nodes, n => n !in taken)
  }

  function IslandCandidates(t: Net, set_: SetReq, taken: set<NodeId>, k: nat): seq<seq<NodeId>>
    requires k <= |t.islands|
  {
    if k == 0 then []
    else
      var chosen := Pick(t, set_, taken, Avail(t.islands[k - 1].nodes, taken));
      IslandCandidates(t, set_, taken, k - 1) +
      if |chosen| == |set_.bundles| then [chosen] else []
  }

  function OrderedNodes(t: Net, taken: set<NodeId>): seq<NodeId> {
    InOrder(t.free.Keys - taken)
  }

  /** Candidate node groups for a set, best first. */
  function Candidates(t: Net, set_: SetReq, taken: set<NodeId>): seq<seq<NodeId>> {
    if set_.layout != Mesh then Walk(t, set_, OrderedNodes(t, taken), [], [])
    else if set_.link == Rdma then IslandCandidates(t, set_, taken, |t.islands|)
    else
      var chosen := Pick(t, set_, taken, InOrder(t.free.Keys));
      if |chosen| == |set_.bundles| then [chosen] else []
  }

  method FindCandidates(t: Net, set_: SetReq, taken: set<NodeId>) returns (out: seq<seq<NodeId>>)
    ensures out == Candidates(t, set_, taken)
  {
    if set_.layout != Mesh {
      var w := new Walker();
      w.Run(t, set_, OrderedNodes(t, taken));
      return w.out;
    }
    out := [];
    if set_.link == Rdma {
      for k := 0 to |t.islands|
        invariant out == IslandCandidates(t, set_, taken, k)
      {
        var avail := Avail(t.islands[k].nodes, taken);
        if |avail| < |set_.bundles| {
          PickShort(t, set_, taken, avail);
          continue;
        }
        var chosen := PickFirst(t, set_, taken, avail);
        if |chosen| == |set_.bundles| { out := out + [chosen]; }
      }
    } else {
      var chosen := PickFirst(t, set_, taken, InOrder(t.free.Keys));
      if |chosen| == |set_.bundles| { out := [chosen]; }
    }
  }

  lemma {:induction false} PickShort(t: Net, set_: SetReq, taken: set<NodeId>, nodes: seq<NodeId>)
    ensures |Pick(t, set_, taken, nodes)| <= |nodes|
    decreases |nodes|
  {
    if nodes != [] {
      PickShort(t, set_, taken, nodes[..|nodes| - 1]);
    }
  }

  /** What every candidate is: one distinct untaken node a bundle, with that
      bundle's GPUs. */
  ghost predicate Fit(t: Net, set_: SetReq, taken: set<NodeId>, c: seq<NodeId>) {
    |c| == |set_.bundles| && NoDup(c) &&
    forall i :: 0 <= i < |c| ==> c[i] !in taken && FreeAt(t, c[i]) >= set_.bundles[i]
  }

  /** Islands list each node once, which `Islands.FindIslands` guarantees. */
  ghost predicate IslandsDistinct(t: Net) {
    forall k :: 0 <= k < |t.islands| ==> NoDup(t.islands[k].nodes)
  }

  lemma {:induction false} PickIsFit(t: Net, set_: SetReq, taken: set<NodeId>, nodes: seq<NodeId>)
    requires NoDup(nodes)
    ensures var c := Pick(t, set_, taken, nodes);
            NoDup(c) && (forall n :: n in c ==> n in nodes) &&
            forall i :: 0 <= i < |c| ==> c[i] !in taken && FreeAt(t, c[i]) >= set_.bundles[i]
    decreases |nodes|
  {
    if nodes != [] {
      DropLast(nodes);
      PickIsFit(t, set_, taken, nodes[..|nodes| - 1]);
    }
  }

  lemma {:induction false} IslandCandidatesFit(t: Net, set_: SetReq, taken: set<NodeId>, k: nat)
    requires k <= |t.islands| && IslandsDistinct(t)
    ensures forall c :: c in IslandCandidates(t, set_, taken, k) ==>
              Fit(t, set_, taken, c) &&
              exists j :: 0 <= j < k && SetOf(c) <= SetOf(t.islands[j].nodes)
  {
    if k > 0 {
      IslandCandidatesFit(t, set_, taken, k - 1);
      PickIsFit(t, set_, taken, Avail(t.islands[k - 1].nodes, taken));
      var chosen := Pick(t, set_, taken, Avail(t.islands[k - 1].nodes, taken));
      assert SetOf(chosen) <= SetOf(t.islands[k - 1].nodes);
      assert |chosen| == |set_.bundles| ==> Fit(t, set_, taken, chosen);
      forall c | c in IslandCandidates(t, set_, taken, k)
        ensures exists j :: 0 <= j < k && SetOf(c) <= SetOf(t.islands[j].nodes)
      {
        if c in IslandCandidates(t, set_, taken, k - 1) {
          var j :| 0 <= j < k - 1 && SetOf(c) <= SetOf(t.islands[j].nodes);
        }
      }
    }
  }

  /** What a set's choice means for its layout. */
  ghost predicate Shaped(t: Net, set_: SetReq, c: seq<NodeId>) {
    (set_.layout == Mesh && set_.link == Rdma ==>
       exists j :: 0 <= j < |t.islands| && SetOf(c) <= SetOf(t.islands[j].nodes)) &&
    (set_.layout != Mesh ==> ValidOrder(t, set_, t.free.Keys, c))
  }

  lemma CandidatesFit(t: Net, set_: SetReq, taken: set<NodeId>, c: seq<NodeId>)
    requires IslandsDistinct(t) && c in Candidates(t, set_, taken)
    ensures Fit(t, set_, taken, c) && Shaped(t, set_, c)
  {
    if set_.layout != Mesh {
      var nodes := OrderedNodes(t, taken);
      WalkIsExact(t, set_, nodes);
      var out := Walk(t, set_, nodes, [], []);
      var i :| 0 <= i < |out| && out[i] == c;
      assert Answer(t, set_, nodes, c);
      AnswerIsValidOrder(t, set_, nodes, c);
      WidenPool(t, set_, SetOf(nodes), t.free.Keys, c);
      assert forall i :: 0 <= i < |c| ==> c[i] in SetOf(nodes) && c[i] !in taken;
    } else if set_.link == Rdma {
      IslandCandidatesFit(t, set_, taken, |t.islands|);
    } else {
      PickIsFit(t, set_, taken, InOrder(t.free.Keys));
    }
  }

  lemma WidenPool(t: Net, set_: SetReq, pool: set<NodeId>, wider: set<NodeId>, c: seq<NodeId>)
    requires ValidOrder(t, set_, pool, c) && pool <= wider
    ensures ValidOrder(t, set_, wider, c)
  {
  }

  // ---------------------------------------------------- links between sets

  predicate Nearer(p: Path, q: Path) {
    p.rtt < q.rtt || (p.rtt == q.rtt && (p.from < q.from || (p.from == q.from && p.to < q.to)))
  }

  function OfferPair(t: Net, link: Link, best: Option<Path>, a: NodeId, c: NodeId): Option<Path> {
    var p := BestPath(t, a, c, link, false);
    if p.Some? && (best.None? || Nearer(p.value, best.value)) then p else best
  }

  function OfferTos(t: Net, link: Link, best: Option<Path>, a: NodeId, tos: seq<NodeId>): Option<Path> {
    if tos == [] then best
    else
      var n := |tos| - 1;
      OfferPair(t, link, OfferTos(t, link, best, a, tos[..n]), a, tos[n])
  }

  /** The best link from a member of one set to a member of another. */
  function BestBetween(t: Net, link: Link, froms: seq<NodeId>, tos: seq<NodeId>): Option<Path> {
    if froms == [] then None
    else
      var n := |froms| - 1;
      OfferTos(t, link, BestBetween(t, link, froms[..n], tos), froms[n], tos)
  }

  /** One path per entry, or None if an entry cannot be met. */
  function PathsBetween(t: Net, between: seq<BetweenReq>, chosen: Choice): Option<seq<Path>> {
    if between == [] then Some([])
    else
      var n := |between| - 1;
      var rest := PathsBetween(t, between[..n], chosen);
      var b := between[n];
      if rest.None? || b.from !in chosen || b.to !in chosen then None
      else
        var best := BestBetween(t, b.link, chosen[b.from], chosen[b.to]);
        if best.None? then None else Some(rest.value + [best.value])
  }

  method FindBetween(t: Net, between: seq<BetweenReq>, chosen: Choice) returns (r: Option<seq<Path>>)
    ensures r == PathsBetween(t, between, chosen)
  {
    var out: seq<Path> := [];
    for i := 0 to |between|
      invariant PathsBetween(t, between[..i], chosen) == Some(out)
    {
      var b := between[i];
      assert between[..i + 1][..i] == between[..i];
      if b.from !in chosen || b.to !in chosen {
        BetweenFails(t, between, chosen, i + 1);
        return None;
      }
      var froms, tos := chosen[b.from], chosen[b.to];
      var best: Option<Path> := None;
      for j := 0 to |froms|
        invariant best == BestBetween(t, b.link, froms[..j], tos)
      {
        ghost var before := best;
        for k := 0 to |tos|
          invariant best == OfferTos(t, b.link, before, froms[j], tos[..k])
        {
          assert tos[..k + 1][..k] == tos[..k];
          var p := FindPath(t, froms[j], tos[k], b.link, false);
          if p.Some? && (best.None? || Nearer(p.value, best.value)) { best := p; }
        }
        assert tos[..|tos|] == tos && froms[..j + 1][..j] == froms[..j];
      }
      assert froms[..|froms|] == froms;
      if best.None? {
        BetweenFails(t, between, chosen, i + 1);
        return None;
      }
      out := out + [best.value];
    }
    assert between[..|between|] == between;
    return Some(out);
  }

  lemma {:induction false} BetweenFails(t: Net, between: seq<BetweenReq>, chosen: Choice, i: nat)
    requires i <= |between| && PathsBetween(t, between[..i], chosen).None?
    ensures PathsBetween(t, between, chosen).None?
    decreases |between|
  {
    if i == |between| {
      assert between[..i] == between;
    } else {
      var n := |between| - 1;
      assert between[..n][..i] == between[..i];
      BetweenFails(t, between[..n], chosen, i);
    }
  }

  /** `p` is the least link by (round trip, from, to) among the pairs. */
  ghost predicate IsBetween(t: Net, link: Link, froms: seq<NodeId>, tos: seq<NodeId>, p: Path) {
    p.from in froms && p.to in tos && BestPath(t, p.from, p.to, link, false) == Some(p) &&
    forall a, c :: a in froms && c in tos && BestPath(t, a, c, link, false).Some? ==>
      !Nearer(BestPath(t, a, c, link, false).value, p)
  }

  ghost predicate BetweenState(t: Net, link: Link, froms: seq<NodeId>, tos: seq<NodeId>, r: Option<Path>) {
    if r.Some? then IsBetween(t, link, froms, tos, r.value)
    else forall a, c :: a in froms && c in tos ==> BestPath(t, a, c, link, false).None?
  }

  /** The running best while the last node of `froms` meets `seen` of `tos`. */
  ghost predicate RowState(t: Net, link: Link, froms: seq<NodeId>, a: NodeId, tos: seq<NodeId>, seen: seq<NodeId>, r: Option<Path>) {
    (r.Some? ==>
       (r.value.from in froms || r.value.from == a) && r.value.to in tos &&
       BestPath(t, r.value.from, r.value.to, link, false) == Some(r.value)) &&
    (forall x, c :: x in froms && c in tos && BestPath(t, x, c, link, false).Some? ==>
       r.Some? && !Nearer(BestPath(t, x, c, link, false).value, r.value)) &&
    (forall c :: c in seen && BestPath(t, a, c, link, false).Some? ==>
       r.Some? && !Nearer(BestPath(t, a, c, link, false).value, r.value))
  }

  lemma {:induction false} RowIsLeast(t: Net, link: Link, froms: seq<NodeId>, a: NodeId, tos: seq<NodeId>,
                                      seen: seq<NodeId>, best: Option<Path>)
    requires BetweenState(t, link, froms, tos, best)
    requires forall c :: c in seen ==> c in tos
    ensures RowState(t, link, froms, a, tos, seen, OfferTos(t, link, best, a, seen))
    decreases |seen|
  {
    if seen != [] {
      var n := |seen| - 1;
      RowIsLeast(t, link, froms, a, tos, seen[..n], best);
      BestPathIsBest(t, a, seen[n], link, false);
      assert forall c :: c in seen ==> c in seen[..n] || c == seen[n];
      assert seen[n] in tos;
    }
  }

  lemma {:induction false} BestBetweenIsLeast(t: Net, link: Link, froms: seq<NodeId>, tos: seq<NodeId>)
    ensures BetweenState(t, link, froms, tos, BestBetween(t, link, froms, tos))
    decreases |froms|
  {
    if froms != [] {
      var n := |froms| - 1;
      BestBetweenIsLeast(t, link, froms[..n], tos);
      RowIsLeast(t, link, froms[..n], froms[n], tos, tos, BestBetween(t, link, froms[..n], tos));
      assert forall x :: x in froms <==> x in froms[..n] || x == froms[n];
    }
  }

  /** `p` is the least link that joins an entry's two sets. */
  ghost predicate Meets(t: Net, b: BetweenReq, chosen: Choice, p: Path) {
    b.from in chosen && b.to in chosen && IsBetween(t, b.link, chosen[b.from], chosen[b.to], p)
  }

  ghost predicate Meetable(t: Net, b: BetweenReq, chosen: Choice) {
    exists p :: Meets(t, b, chosen, p)
  }

  ghost predicate AllMet(t: Net, between: seq<BetweenReq>, chosen: Choice, ps: seq<Path>) {
    |ps| == |between| && forall k :: 0 <= k < |between| ==> Meets(t, between[k], chosen, ps[k])
  }

  lemma EntryIsMet(t: Net, b: BetweenReq, chosen: Choice)
    ensures (b.from in chosen && b.to in chosen &&
             BestBetween(t, b.link, chosen[b.from], chosen[b.to]).Some?) <==> Meetable(t, b, chosen)
    ensures Meetable(t, b, chosen) ==>
              Meets(t, b, chosen, BestBetween(t, b.link, chosen[b.from], chosen[b.to]).value)
  {
    if b.from in chosen && b.to in chosen {
      BestBetweenIsLeast(t, b.link, chosen[b.from], chosen[b.to]);
      var r := BestBetween(t, b.link, chosen[b.from], chosen[b.to]);
      if r.Some? {
        assert Meets(t, b, chosen, r.value);
      }
    }
  }

  /** The paths reported meet every entry, and there are some exactly when
      every entry can be met. */
  lemma {:induction false} PathsBetweenMeans(t: Net, between: seq<BetweenReq>, chosen: Choice)
    ensures PathsBetween(t, between, chosen).Some? ==>
              AllMet(t, between, chosen, PathsBetween(t, between, chosen).value)
    ensures PathsBetween(t, between, chosen).Some? <==>
            forall k :: 0 <= k < |between| ==> Meetable(t, between[k], chosen)
    decreases |between|
  {
    hide IsBetween;
    hide Meetable;
    hide Meets;
    if between != [] {
      var n := |between| - 1;
      PathsBetweenMeans(t, between[..n], chosen);
      EntryIsMet(t, between[n], chosen);
    }
  }

  // ------------------------------------------------------- backtracking

  /** `search` as a function: the choice it ends with, or None. */
  function Search(t: Net, req: Request, order: seq<SetReq>, i: nat, chosen: Choice, taken: set<NodeId>): Option<Choice>
    requires i <= |order|
    decreases |order| - i, 0, 0
  {
    if i == |order| then
      if PathsBetween(t, req.between, chosen).Some? then Some(chosen) else None
    else SearchFrom(t, req, order, i, chosen, taken, Candidates(t, order[i], taken), 0)
  }

  function SearchFrom(t: Net, req: Request, order: seq<SetReq>, i: nat, chosen: Choice, taken: set<NodeId>,
                      cands: seq<seq<NodeId>>, k: nat): Option<Choice>
    requires i < |order| && k <= |cands|
    decreases |order| - i - 1, 1, |cands| - k
  {
    if k == |cands| then None
    else
      var r := Search(t, req, order, i + 1, chosen[order[i].name := cands[k]], taken + SetOf(cands[k]));
      if r.Some? then r else SearchFrom(t, req, order, i, chosen, taken, cands, k + 1)
  }

  ghost predicate FreshNames(order: seq<SetReq>, i: nat, chosen: Choice) {
    (forall j, k :: 0 <= j < k < |order| ==> order[j].name != order[k].name) &&
    forall j :: i <= j < |order| ==> order[j].name !in chosen
  }

  /** The search as the source runs it: two working sets, inserted into before
      each try and removed from after a failed one. */
  class Searcher {
    var chosen: Choice
    var taken: set<NodeId>

    constructor ()
      ensures chosen == map[] && taken == {}
    {
      chosen, taken := map[], {};
    }

    method Run(t: Net, req: Request, order: seq<SetReq>, i: nat) returns (found: bool)
      requires i <= |order| && FreshNames(order, i, chosen) && IslandsDistinct(t)
      modifies this
      ensures found == Search(t, req, order, i, old(chosen), old(taken)).Some?
      ensures found ==> chosen == Search(t, req, order, i, old(chosen), old(taken)).value
      ensures !found ==> chosen == old(chosen) && taken == old(taken)
      decreases |order| - i
    {
      if i == |order| {
        var ps := FindBetween(t, req.between, chosen);
        return ps.Some?;
      }
      var set_ := order[i];
      var cands := FindCandidates(t, set_, taken);
      for k := 0 to |cands|
        invariant chosen == old(chosen) && taken == old(taken)
        invariant SearchFrom(t, req, order, i, chosen, taken, cands, k) ==
                  SearchFrom(t, req, order, i, chosen, taken, cands, 0)
      {
        var cand := cands[k];
        CandidatesFit(t, set_, taken, cand);
        taken := taken + SetOf(cand);
        chosen := chosen[set_.name := cand];
        var deeper := Run(t, req, order, i + 1);
        if deeper { return true; }
        chosen := chosen - {set_.name};
        taken := taken - SetOf(cand);
        assert chosen == old(chosen);
        Restored(old(taken), cand);
      }
      return false;
    }
  }

  lemma Restored(taken: set<NodeId>, cand: seq<NodeId>)
    requires forall i :: 0 <= i < |cand| ==> cand[i] !in taken
    ensures taken + SetOf(cand) - SetOf(cand) == taken
  {
    assert SetOf(cand) !! taken;
  }

  // ---- what the search decides, without naming it

  function TakenBy(choices: seq<seq<NodeId>>): set<NodeId> {
    if choices == [] then {} else TakenBy(choices[..|choices| - 1]) + SetOf(choices[|choices| - 1])
  }

  /** One candidate per set in order, each from what the earlier ones left. */
  ghost predicate Legal(t: Net, order: seq<SetReq>, choices: seq<seq<NodeId>>) {
    |choices| <= |order| &&
    forall j :: 0 <= j < |choices| ==>
      choices[j] in Candidates(t, order[j], TakenBy(choices[..j]))
  }

  function Assigned(order: seq<SetReq>, choices: seq<seq<NodeId>>): Choice
    requires |choices| <= |order|
  {
    if choices == [] then map[]
    else
      var n := |choices| - 1;
      Assigned(order, choices[..n])[order[n].name := choices[n]]
  }

  ghost predicate Solves(t: Net, req: Request, order: seq<SetReq>, choices: seq<seq<NodeId>>) {
    |choices| == |order| && Legal(t, order, choices) &&
    PathsBetween(t, req.between, Assigned(order, choices)).Some?
  }

  lemma LegalPush(t: Net, order: seq<SetReq>, done: seq<seq<NodeId>>, cand: seq<NodeId>)
    requires Legal(t, order, done) && |done| < |order|
    requires cand in Candidates(t, order[|done|], TakenBy(done))
    ensures Legal(t, order, done + [cand])
    ensures TakenBy(done + [cand]) == TakenBy(done) + SetOf(cand)
    ensures Assigned(order, done + [cand]) == Assigned(order, done)[order[|done|].name := cand]
  {
    var d := done + [cand];
    assert d[..|done|] == done;
    forall j | 0 <= j < |d| ensures d[j] in Candidates(t, order[j], TakenBy(d[..j])) {
      assert d[..j] == done[..j];
      if j == |done| { assert done[..j] == done; }
    }
  }

  /** `all` extends the choices made so far and solves the request. */
  ghost predicate Completes(t: Net, req: Request, order: seq<SetReq>, done: seq<seq<NodeId>>, all: seq<seq<NodeId>>) {
    done <= all && Solves(t, req, order, all)
  }

  ghost predicate IsFound(t: Net, req: Request, order: seq<SetReq>, done: seq<seq<NodeId>>, r: Choice) {
    exists all :: Completes(t, req, order, done, all) && r == Assigned(order, all)
  }

  lemma PrefixNext<T>(done: seq<T>, all: seq<T>, c: T)
    ensures done + [c] <= all <==> done <= all && |done| < |all| && all[|done|] == c
  {
    if done <= all && |done| < |all| && all[|done|] == c {
      assert all[..|done| + 1] == all[..|done|] + [c];
    }
    if done + [c] <= all {
      assert all[..|done|] == (done + [c])[..|done|] == done;
      assert all[|done|] == (done + [c])[|done|];
    }
  }

  lemma CompletesNext(t: Net, req: Request, order: seq<SetReq>, done: seq<seq<NodeId>>, all: seq<seq<NodeId>>, c: seq<NodeId>)
    requires |done| < |order|
    ensures Completes(t, req, order, done + [c], all) <==>
            Completes(t, req, order, done, all) && all[|done|] == c
    ensures Completes(t, req, order, done, all) ==>
              |done| < |all| && all[|done|] in Candidates(t, order[|done|], TakenBy(done))
  {
    hide Candidates, PathsBetween, Assigned, TakenBy;
    PrefixNext(done, all, c);
    if Completes(t, req, order, done, all) {
      assert all[..|done|] == done;
    }
  }

  lemma FoundNext(t: Net, req: Request, order: seq<SetReq>, done: seq<seq<NodeId>>, c: seq<NodeId>, r: Choice)
    requires |done| < |order| && IsFound(t, req, order, done + [c], r)
    ensures IsFound(t, req, order, done, r)
  {
    var all :| Completes(t, req, order, done + [c], all) && r == Assigned(order, all);
    CompletesNext(t, req, order, done, all, c);
  }

  /** From a legal start, the search finds a choice exactly when some legal
      choices extend that start and meet every entry, and what it finds is one. */
  lemma {:induction false} SearchIsExactFrom(t: Net, req: Request, order: seq<SetReq>, done: seq<seq<NodeId>>)
    requires Legal(t, order, done)
    ensures var r := Search(t, req, order, |done|, Assigned(order, done), TakenBy(done));
            (r.None? ==> forall all :: !Completes(t, req, order, done, all)) &&
            (r.Some? ==> IsFound(t, req, order, done, r.value))
    decreases |order| - |done|, 0, 0
  {
    if |done| == |order| {
      assert forall all :: Completes(t, req, order, done, all) ==> all == done;
      if PathsBetween(t, req.between, Assigned(order, done)).Some? {
        assert Completes(t, req, order, done, done);
      }
    } else {
      var cands := Candidates(t, order[|done|], TakenBy(done));
      SearchFromIsExact(t, req, order, done, cands, 0);
      forall all | Completes(t, req, order, done, all)
        ensures 0 <= |done| < |all| && all[|done|] in cands[0..]
      {
        CompletesNext(t, req, order, done, all, []);
        assert cands[0..] == cands;
      }
    }
  }

  lemma {:induction false} SearchFromIsExact(t: Net, req: Request, order: seq<SetReq>, done: seq<seq<NodeId>>,
                                             cands: seq<seq<NodeId>>, k: nat)
    requires Legal(t, order, done) && |done| < |order|
    requires cands == Candidates(t, order[|done|], TakenBy(done)) && k <= |cands|
    ensures var r := SearchFrom(t, req, order, |done|, Assigned(order, done), TakenBy(done), cands, k);
            (r.None? ==> forall all :: Completes(t, req, order, done, all) ==>
                           |done| < |all| && all[|done|] !in cands[k..]) &&
            (r.Some? ==> IsFound(t, req, order, done, r.value))
    decreases |order| - |done| - 1, 1, |cands| - k
  {
    hide Completes, IsFound, Legal, Candidates, TakenBy, Assigned, PathsBetween;
    if k == |cands| {
      forall all | Completes(t, req, order, done, all) ensures |done| < |all| {
        CompletesNext(t, req, order, done, all, []);
      }
    } else {
      var next := done + [cands[k]];
      assert cands[k] in cands;
      LegalPush(t, order, done, cands[k]);
      SearchIsExactFrom(t, req, order, next);
      var r := Search(t, req, order, |next|, Assigned(order, next), TakenBy(next));
      if r.Some? {
        FoundNext(t, req, order, done, cands[k], r.value);
      } else {
        SearchFromIsExact(t, req, order, done, cands, k + 1);
        assert cands[k..] == [cands[k]] + cands[k + 1..];
        forall all | Completes(t, req, order, done, all)
          ensures |done| < |all| && all[|done|] != cands[k]
        {
          CompletesNext(t, req, order, done, all, cands[k]);
          assert !Completes(t, req, order, next, all);
        }
      }
    }
  }

  /** The search succeeds exactly when some sequence of candidates, one per set
      in order, meets every entry, and its answer is such a sequence. */
  lemma SearchIsExact(t: Net, req: Request, order: seq<SetReq>)
    ensures var r := Search(t, req, order, 0, map[], {});
            (r.Some? <==> exists all :: Solves(t, req, order, all)) &&
            (r.Some? ==> exists all :: Solves(t, req, order, all) && r.value == Assigned(order, all))
  {
    SearchIsExactFrom(t, req, order, []);
    forall all | Solves(t, req, order, all) ensures Completes(t, req, order, [], all) {
    }
    var r := Search(t, req, order, 0, map[], {});
    if r.Some? {
      var all :| Completes(t, req, order, [], all) && r.value == Assigned(order, all);
      assert Solves(t, req, order, all);
    }
  }

  /** An entry's link has the least round trip between the two sets, then the least id to
      start from, then the least to end at. */
  lemma MeetsIsLeast(t: Net, b: BetweenReq, chosen: Choice, p: Path, x: NodeId, y: NodeId)
    requires Meets(t, b, chosen, p) && x in chosen[b.from] && y in chosen[b.to] && BestPath(t, x, y, b.link, false).Some?
    ensures var q := BestPath(t, x, y, b.link, false).value;
            p.rtt <= q.rtt && (p.rtt == q.rtt ==> p.from < x || (p.from == x && p.to <= y))
  {
    BestPathIsBest(t, x, y, b.link, false);
  }
}
