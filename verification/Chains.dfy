/** The ring and line search: node orders in which each member is cabled to
    the next. */
module Chains {
  import opened Basics
  import opened Topology

  datatype Layout = Mesh | Ring | Line

  type Name = nat

  /** One group of nodes wanted together: GPUs per member, one entry a node. */
  datatype SetReq = SetReq(name: Name, bundles: seq<nat>, link: Link, layout: Layout)

  /** A search stops after this many answers. */
  const MAX_CHAINS: nat := 32

  function FreeAt(t: Net, n: NodeId): nat {
    if n in t.free then t.free[n] else 0
  }

  /** Whether `walk` may push `n` onto the chain. */
  predicate MayPush(t: Net, set_: SetReq, chain: seq<NodeId>, n: NodeId)
    requires |chain| < |set_.bundles|
  {
    n !in chain && FreeAt(t, n) >= set_.bundles[|chain|] &&
    (set_.layout == Ring && chain != [] ==> chain[0] <= n) &&
    (chain != [] ==> Cabled(t, set_.link, chain[|chain| - 1], n))
  }

  predicate Closes(t: Net, set_: SetReq, chain: seq<NodeId>)
    requires |chain| == |set_.bundles|
  {
    set_.layout != Ring || |chain| < 3 || Cabled(t, set_.link, chain[|chain| - 1], chain[0])
  }

  /** `walk` as a function of the chain and the answers so far. */
  function Walk(t: Net, set_: SetReq, nodes: seq<NodeId>, chain: seq<NodeId>, out: seq<seq<NodeId>>): seq<seq<NodeId>>
    requires |chain| <= |set_.bundles|
    decreases |set_.bundles| - |chain|, |nodes| + 1
  {
    if |out| >= MAX_CHAINS then out
    else if |chain| == |set_.bundles| then
      if Closes(t, set_, chain) then out + [chain] else out
    else WalkFrom(t, set_, nodes, chain, out, 0)
  }

  function WalkFrom(t: Net, set_: SetReq, nodes: seq<NodeId>, chain: seq<NodeId>, out: seq<seq<NodeId>>, k: nat): seq<seq<NodeId>>
    requires |chain| < |set_.bundles| && k <= |nodes|
    decreases |set_.bundles| - |chain|, |nodes| - k
  {
    if k == |nodes| then out
    else if !MayPush(t, set_, chain, nodes[k]) then WalkFrom(t, set_, nodes, chain, out, k + 1)
    else WalkFrom(t, set_, nodes, chain, Walk(t, set_, nodes, chain + [nodes[k]], out), k + 1)
  }

  /** The search as the source runs it: one chain that is pushed and popped,
      and a growing list of answers. */
  class Walker {
    var chain: seq<NodeId>
    var out: seq<seq<NodeId>>

    constructor ()
      ensures chain == [] && out == []
    {
      chain, out := [], [];
    }

    method Run(t: Net, set_: SetReq, nodes: seq<NodeId>)
      requires |chain| <= |set_.bundles|
      modifies this
      ensures chain == old(chain)
      ensures out == Walk(t, set_, nodes, old(chain), old(out))
      decreases |set_.bundles| - |chain|
    {
      var want := |set_.bundles|;
      if |out| >= MAX_CHAINS { return; }
      if |chain| == want {
        var closed := set_.layout != Ring || want < 3;
        if !closed {
          var p := FindPath(t, chain[want - 1], chain[0], set_.link, true);
          closed := p.Some?;
        }
        if closed { out := out + [chain]; }
        return;
      }
      var i := |chain|;
      for k := 0 to |nodes|
        invariant chain == old(chain)
        invariant WalkFrom(t, set_, nodes, chain, out, k) == WalkFrom(t, set_, nodes, chain, old(out), 0)
      {
        var n := nodes[k];
        if n in chain || FreeAt(t, n) < set_.bundles[i] { continue; }
        if set_.layout == Ring && chain != [] && n < chain[0] { continue; }
        if chain != [] {
          var p := FindPath(t, chain[|chain| - 1], n, set_.link, true);
          if p.None? { continue; }
        }
        assert MayPush(t, set_, chain, n);
        chain := chain + [n];
        Run(t, set_, nodes);
        chain := chain[..|chain| - 1];
        assert chain == old(chain);
      }
    }
  }

  // ------------------------------------------------------------ soundness

  /** The steps of a chain are allowed, one by one. */
  ghost predicate Steps(t: Net, set_: SetReq, nodes: seq<NodeId>, c: seq<NodeId>) {
    |c| <= |set_.bundles| &&
    forall i :: 0 <= i < |c| ==> c[i] in nodes && MayPush(t, set_, c[..i], c[i])
  }

  /** A full answer that `walk` may give. */
  ghost predicate Answer(t: Net, set_: SetReq, nodes: seq<NodeId>, c: seq<NodeId>) {
    |c| == |set_.bundles| && Steps(t, set_, nodes, c) && Closes(t, set_, c)
  }

  lemma StepsPush(t: Net, set_: SetReq, nodes: seq<NodeId>, c: seq<NodeId>, n: NodeId)
    requires Steps(t, set_, nodes, c) && |c| < |set_.bundles| && n in nodes && MayPush(t, set_, c, n)
    ensures Steps(t, set_, nodes, c + [n])
  {
    var d := c + [n];
    forall i | 0 <= i < |d| ensures d[i] in nodes && MayPush(t, set_, d[..i], d[i]) {
      assert d[..i] == c[..i];
      if i == |c| { assert c[..i] == c; }
    }
  }

  ghost predicate AllAnswers(t: Net, set_: SetReq, nodes: seq<NodeId>, out: seq<seq<NodeId>>) {
    forall i :: 0 <= i < |out| ==> Answer(t, set_, nodes, out[i])
  }

  lemma {:induction false} WalkIsSound(t: Net, set_: SetReq, nodes: seq<NodeId>, chain: seq<NodeId>, out: seq<seq<NodeId>>)
    requires Steps(t, set_, nodes, chain) && AllAnswers(t, set_, nodes, out)
    ensures AllAnswers(t, set_, nodes, Walk(t, set_, nodes, chain, out))
    decreases |set_.bundles| - |chain|, |nodes| + 1
  {
    if |out| < MAX_CHAINS && |chain| < |set_.bundles| {
      WalkFromIsSound(t, set_, nodes, chain, out, 0);
    }
  }

  lemma {:induction false} WalkFromIsSound(t: Net, set_: SetReq, nodes: seq<NodeId>, chain: seq<NodeId>,
                                           out: seq<seq<NodeId>>, k: nat)
    requires Steps(t, set_, nodes, chain) && AllAnswers(t, set_, nodes, out)
    requires |chain| < |set_.bundles| && k <= |nodes|
    ensures AllAnswers(t, set_, nodes, WalkFrom(t, set_, nodes, chain, out, k))
    decreases |set_.bundles| - |chain|, |nodes| - k
  {
    if k < |nodes| {
      if MayPush(t, set_, chain, nodes[k]) {
        StepsPush(t, set_, nodes, chain, nodes[k]);
        WalkIsSound(t, set_, nodes, chain + [nodes[k]], out);
        WalkFromIsSound(t, set_, nodes, chain, Walk(t, set_, nodes, chain + [nodes[k]], out), k + 1);
      } else {
        WalkFromIsSound(t, set_, nodes, chain, out, k + 1);
      }
    }
  }

  // --------------------------------------------------------- completeness

  lemma {:induction false} WalkKeeps(t: Net, set_: SetReq, nodes: seq<NodeId>, chain: seq<NodeId>, out: seq<seq<NodeId>>)
    requires |chain| <= |set_.bundles|
    ensures out <= Walk(t, set_, nodes, chain, out)
    decreases |set_.bundles| - |chain|, |nodes| + 1
  {
    if |out| < MAX_CHAINS && |chain| < |set_.bundles| {
      WalkFromKeeps(t, set_, nodes, chain, out, 0);
    }
  }

  lemma {:induction false} WalkFromKeeps(t: Net, set_: SetReq, nodes: seq<NodeId>, chain: seq<NodeId>,
                                         out: seq<seq<NodeId>>, k: nat)
    requires |chain| < |set_.bundles| && k <= |nodes|
    ensures out <= WalkFrom(t, set_, nodes, chain, out, k)
    decreases |set_.bundles| - |chain|, |nodes| - k
  {
    if k < |nodes| {
      if MayPush(t, set_, chain, nodes[k]) {
        WalkKeeps(t, set_, nodes, chain + [nodes[k]], out);
        WalkFromKeeps(t, set_, nodes, chain, Walk(t, set_, nodes, chain + [nodes[k]], out), k + 1);
      } else {
        WalkFromKeeps(t, set_, nodes, chain, out, k + 1);
      }
    }
  }

  /** A search that still has room finds something whenever an answer extends
      the chain it is on. */
  lemma {:induction false} WalkFinds(t: Net, set_: SetReq, nodes: seq<NodeId>, chain: seq<NodeId>,
                                     out: seq<seq<NodeId>>, c: seq<NodeId>)
    requires |out| < MAX_CHAINS && Answer(t, set_, nodes, c) && chain <= c
    ensures |Walk(t, set_, nodes, chain, out)| > |out|
    decreases |set_.bundles| - |chain|, |nodes| + 1
  {
    if |chain| == |set_.bundles| {
      assert chain == c;
    } else {
      WalkFromFinds(t, set_, nodes, chain, out, 0, c);
    }
  }

  lemma {:induction false} WalkFromFinds(t: Net, set_: SetReq, nodes: seq<NodeId>, chain: seq<NodeId>,
                                         out: seq<seq<NodeId>>, k: nat, c: seq<NodeId>)
    requires |out| < MAX_CHAINS && Answer(t, set_, nodes, c) && chain <= c
    requires |chain| < |set_.bundles| && k <= |nodes| && c[|chain|] in nodes[k..]
    ensures |WalkFrom(t, set_, nodes, chain, out, k)| > |out|
    decreases |set_.bundles| - |chain|, |nodes| - k
  {
    var n := c[|chain|];
    assert c[..|chain|] == chain;
    if nodes[k] == n {
      assert MayPush(t, set_, chain, n);
      WalkFinds(t, set_, nodes, chain + [n], out, c);
      WalkFromKeeps(t, set_, nodes, chain, Walk(t, set_, nodes, chain + [n], out), k + 1);
    } else {
      assert n in nodes[k + 1..];
      if MayPush(t, set_, chain, nodes[k]) {
        var more := Walk(t, set_, nodes, chain + [nodes[k]], out);
        WalkKeeps(t, set_, nodes, chain + [nodes[k]], out);
        if |more| > |out| {
          WalkFromKeeps(t, set_, nodes, chain, more, k + 1);
        } else {
          WalkFromFinds(t, set_, nodes, chain, more, k + 1, c);
        }
      } else {
        WalkFromFinds(t, set_, nodes, chain, out, k + 1, c);
      }
    }
  }

  /** The walk gives an answer exactly when there is one, despite the cap. */
  lemma WalkIsExact(t: Net, set_: SetReq, nodes: seq<NodeId>)
    ensures Walk(t, set_, nodes, [], []) != [] <==> exists c :: Answer(t, set_, nodes, c)
    ensures AllAnswers(t, set_, nodes, Walk(t, set_, nodes, [], []))
  {
    WalkIsSound(t, set_, nodes, [], []);
    if c :| Answer(t, set_, nodes, c) {
      WalkFinds(t, set_, nodes, [], [], c);
    }
    var out := Walk(t, set_, nodes, [], []);
    if out != [] {
      assert Answer(t, set_, nodes, out[0]);
    }
  }

  // -------------------------------------------- what an answer means

  /** An order of distinct nodes, each with its bundle's GPUs, cabled along the
      way and, in a ring of three or more, from the last to the first. */
  ghost predicate ValidOrder(t: Net, set_: SetReq, pool: set<NodeId>, c: seq<NodeId>) {
    |c| == |set_.bundles| && NoDup(c) &&
    (forall i :: 0 <= i < |c| ==> c[i] in pool && FreeAt(t, c[i]) >= set_.bundles[i]) &&
    (forall i :: 0 < i < |c| ==> Cabled(t, set_.link, c[i - 1], c[i])) &&
    Closes(t, set_, c)
  }

  ghost predicate LeastFirst(c: seq<NodeId>) {
    forall i :: 0 <= i < |c| ==> c[0] <= c[i]
  }

  lemma StepMeans(t: Net, set_: SetReq, nodes: seq<NodeId>, c: seq<NodeId>, i: nat)
    requires i < |c| <= |set_.bundles| && MayPush(t, set_, c[..i], c[i])
    ensures c[i] !in c[..i] && FreeAt(t, c[i]) >= set_.bundles[i]
    ensures i > 0 ==> Cabled(t, set_.link, c[i - 1], c[i])
    ensures set_.layout == Ring ==> c[0] <= c[i]
  {
    hide Cabled;
    if i > 0 { assert c[..i][i - 1] == c[i - 1] && c[..i][0] == c[0]; }
  }

  lemma AnswerIsValid(t: Net, set_: SetReq, nodes: seq<NodeId>, c: seq<NodeId>)
    requires Answer(t, set_, nodes, c)
    ensures ValidOrder(t, set_, SetOf(nodes), c) && (set_.layout == Ring ==> LeastFirst(c))
  {
    hide MayPush, Closes, Cabled;
    forall i | 0 <= i < |c|
      ensures c[i] in SetOf(nodes) && c[i] !in c[..i] && FreeAt(t, c[i]) >= set_.bundles[i]
      ensures (i > 0 ==> Cabled(t, set_.link, c[i - 1], c[i])) && (set_.layout == Ring ==> c[0] <= c[i])
    {
      StepMeans(t, set_, nodes, c, i);
    }
    forall i, j | 0 <= i < j < |c| ensures c[i] != c[j] {
      assert c[i] in c[..j];
    }
  }

  lemma ValidIsAnswer(t: Net, set_: SetReq, nodes: seq<NodeId>, c: seq<NodeId>)
    requires ValidOrder(t, set_, SetOf(nodes), c) && (set_.layout == Ring ==> LeastFirst(c))
    ensures Answer(t, set_, nodes, c)
  {
    hide Closes, Cabled;
    forall i | 0 <= i < |c| ensures c[i] in nodes && MayPush(t, set_, c[..i], c[i]) {
      assert c[i] in SetOf(nodes);
      if i > 0 { assert c[..i][i - 1] == c[i - 1] && c[..i][0] == c[0]; }
    }
  }

  /** The answers are the valid orders that, in a ring, start at the least id. */
  lemma AnswerIsValidOrder(t: Net, set_: SetReq, nodes: seq<NodeId>, c: seq<NodeId>)
    ensures Answer(t, set_, nodes, c) <==>
            ValidOrder(t, set_, SetOf(nodes), c) && (set_.layout == Ring ==> LeastFirst(c))
  {
    hide Answer, ValidOrder, LeastFirst;
    if Answer(t, set_, nodes, c) {
      AnswerIsValid(t, set_, nodes, c);
    }
    if ValidOrder(t, set_, SetOf(nodes), c) && (set_.layout == Ring ==> LeastFirst(c)) {
      ValidIsAnswer(t, set_, nodes, c);
    }
  }

  // ---------------------------------------------- turning a ring

  ghost predicate EqualBundles(set_: SetReq) {
    forall i, j :: 0 <= i < |set_.bundles| && 0 <= j < |set_.bundles| ==> set_.bundles[i] == set_.bundles[j]
  }

  /** The same ring started `r` members later. */
  function Turned<T>(c: seq<T>, r: nat): (d: seq<T>)
    requires r <= |c|
    ensures |d| == |c|
    ensures forall i :: 0 <= i < |c| ==> d[i] == if i + r < |c| then c[i + r] else c[i + r - |c|]
  {
    c[r..] + c[..r]
  }

  lemma TurnedKeepsRing(t: Net, set_: SetReq, pool: set<NodeId>, c: seq<NodeId>, r: nat)
    requires ValidOrder(t, set_, pool, c) && set_.layout == Ring && EqualBundles(set_) && r < |c|
    ensures ValidOrder(t, set_, pool, Turned(c, r))
  {
    var d := Turned(c, r);
    var k := |c|;
    forall i, j | 0 <= i < j < k ensures d[i] != d[j] {
    }
    forall i | 0 < i < k ensures Cabled(t, set_.link, d[i - 1], d[i]) {
      if i + r == k && k < 3 {
        LinkedBothWays(t, c[0], c[k - 1], set_.link, true);
      }
    }
  }

  /** The position of a least element. */
  function LeastAt(c: seq<NodeId>): (r: nat)
    requires c != []
    ensures r < |c| && forall i :: 0 <= i < |c| ==> c[r] <= c[i]
  {
    if |c| == 1 then 0
    else
      var n := |c| - 1;
      var r := LeastAt(c[..n]);
      assert forall i :: 0 <= i < n ==> c[..n][i] == c[i];
      if c[n] < c[r] then n else r
  }

  /** A valid order of an unordered start gives one that starts at its least id. */
  lemma StartAtLeast(t: Net, set_: SetReq, nodes: seq<NodeId>, c: seq<NodeId>)
    requires set_.bundles != [] && ValidOrder(t, set_, SetOf(nodes), c)
    requires set_.layout == Line || (set_.layout == Ring && EqualBundles(set_))
    ensures exists d :: Answer(t, set_, nodes, d)
  {
    hide Cabled, Closes, Answer;
    if set_.layout == Ring {
      var d := Turned(c, LeastAt(c));
      TurnedKeepsRing(t, set_, SetOf(nodes), c, LeastAt(c));
      assert LeastFirst(d);
      hide ValidOrder, LeastFirst;
      AnswerIsValidOrder(t, set_, nodes, d);
      assert Answer(t, set_, nodes, d);
    } else {
      hide ValidOrder, LeastFirst;
      AnswerIsValidOrder(t, set_, nodes, c);
      assert Answer(t, set_, nodes, c);
    }
  }

  /** Starting rings at their least id loses nothing when bundles are equal. */
  lemma LeastStartIsEnough(t: Net, set_: SetReq, nodes: seq<NodeId>)
    requires set_.bundles != []
    requires set_.layout == Line || (set_.layout == Ring && EqualBundles(set_))
    ensures (exists c :: Answer(t, set_, nodes, c)) <==>
            exists c :: ValidOrder(t, set_, SetOf(nodes), c)
  {
    hide Answer, ValidOrder, LeastFirst, EqualBundles;
    if c :| Answer(t, set_, nodes, c) {
      AnswerIsValidOrder(t, set_, nodes, c);
    }
    if c :| ValidOrder(t, set_, SetOf(nodes), c) {
      StartAtLeast(t, set_, nodes, c);
    }
  }
}
