/** Head election across any number of daemons: each daemon's elector, the
    distributed steps, stability of a settled head and convergence. */
module Election {

  import opened Basics

  type Id = nat

  /** What a daemon last heard from a peer. `head` is the head that peer claimed,
      or None when it claimed nothing. */
  datatype Status = Silent | Heard(head: Option<Id>)

  /** A peer's row. It outlives the link, and keeps the last status. */
  datatype Peer = Peer(alive: bool, status: Status)

  /** One daemon: the head it follows, whether its boot wait is over, its peers'
      rows, and the candidate it has been watching. `met` records whether any peer's status has arrived since boot; no rule reads it. */
  datatype Daemon = Daemon(
    head: Option<Id>,
    heard: bool,
    met: bool,
    peers: map<Id, Peer>,
    since: Option<(Id, nat)>)

  datatype Config = Config(holdDown: nat, bootWait: nat)

  // ------------------------------------------------------------ one daemon

  /** Whether the daemon holds a live link to `x`. */
  predicate Links(d: Daemon, x: Id) {
    x in d.peers && d.peers[x].alive
  }

  function Linked(d: Daemon): set<Id> {
    set x | x in d.peers && Links(d, x)
  }

  predicate Alive(me: Id, d: Daemon, x: Id) {
    x == me || Links(d, x)
  }

  /** Whether peer `p` claims a head that this daemon counts as live. */
  predicate Claims(d: Daemon, me: Id, p: Id) {
    Links(d, p) && d.peers[p].status.Heard? && d.peers[p].status.head.Some? &&
    Alive(me, d, d.peers[p].status.head.value)
  }

  /** The live heads a daemon knows of: those its live peers claim, and its own. */
  function Claimed(me: Id, d: Daemon): (s: set<Id>)
    ensures forall h :: h in s ==> Alive(me, d, h)
  {
    (set p | p in d.peers && Claims(d, me, p) :: d.peers[p].status.head.value) +
    (if d.head.Some? && Alive(me, d, d.head.value) then {d.head.value} else {})
  }

  /** The head this daemon should follow: the least live head it knows of, else
      the least live id. */
  function Candidate(me: Id, d: Daemon): (h: Id)
    ensures Alive(me, d, h)
    ensures Claimed(me, d) != {} ==> IsLeast(Claimed(me, d), h)
    ensures Claimed(me, d) == {} ==> IsLeast(Linked(d) + {me}, h)
  {
    if Claimed(me, d) != {} then Least(Claimed(me, d)) else Least(Linked(d) + {me})
  }

  /** Whether any live peer's status has arrived. */
  predicate AnyStatus(d: Daemon) {
    exists p :: p in d.peers && Links(d, p) && d.peers[p].status.Heard?
  }

  /** One tick of the elector, `up` after boot at time `now`. A daemon that has
      heard nobody waits out the boot wait. A candidate other than the head is
      committed once it has held still for the hold-down. */
  function Tick(cfg: Config, me: Id, d: Daemon, up: nat, now: nat): Daemon {
    var heard := d.heard || AnyStatus(d) || up >= cfg.bootWait;
    if !heard then d
    else
      var d1 := d.(heard := true);
      var c := Candidate(me, d);
      if d.head == Some(c) then d1.(since := None)
      else if d.since.None? || d.since.value.0 != c then d1.(since := Some((c, now)))
      else if now >= d.since.value.1 + cfg.holdDown then d1.(head := Some(c), since := None)
      else d1
  }

  predicate Commits(cfg: Config, me: Id, d: Daemon, up: nat, now: nat) {
    Tick(cfg, me, d, up, now).head != d.head
  }

  /** What a commit is: the candidate, watched for the whole hold-down. */
  lemma CommitIsCandidate(cfg: Config, me: Id, d: Daemon, up: nat, now: nat)
    requires Commits(cfg, me, d, up, now)
    ensures Tick(cfg, me, d, up, now).head == Some(Candidate(me, d)) != d.head
    ensures d.heard || AnyStatus(d) || up >= cfg.bootWait
    ensures d.since.Some? && d.since.value.0 == Candidate(me, d) &&
            d.since.value.1 + cfg.holdDown <= now
  {
  }

  /** The candidate does not depend on having heard anyone. */
  lemma SameCandidate(me: Id, d: Daemon, e: Daemon)
    requires e.head == d.head && e.peers == d.peers
    ensures Candidate(me, e) == Candidate(me, d)
  {
    assert forall x :: Links(e, x) == Links(d, x);
    assert Linked(e) == Linked(d) && Claimed(me, e) == Claimed(me, d);
  }

  /** The elector as the daemon runs it: state that each tick updates. */
  class Elector {
    const me: Id
    const cfg: Config
    var head: Option<Id>
    var generation: nat
    var heard: bool
    var since: Option<(Id, nat)>
    ghost var met: bool

    constructor (me: Id, cfg: Config, expectsPeers: bool)
      ensures this.me == me && this.cfg == cfg && head == None && since == None
      ensures heard == !expectsPeers && generation == 0 && !met
    {
      this.me, this.cfg := me, cfg;
      head, generation, heard, since := None, 0, !expectsPeers, None;
      met := false;
    }

    ghost function Seen(peers: map<Id, Peer>): Daemon
      reads this
    {
      Daemon(head, heard, met, peers, since)
    }

    /** The least live head claimed, else the least live id, by scanning. */
    method HeadCandidate(peers: map<Id, Peer>) returns (h: Id)
      ensures h == Candidate(me, Seen(peers))
    {
      ghost var d := Seen(peers);
      var best: Option<Id> := None;
      var low := me;
      var todo := peers.Keys;
      if head.Some? && (head.value == me || (head.value in peers && peers[head.value].alive)) {
        best := head;
      }
      while todo != {}
        invariant todo <= peers.Keys
        invariant IsLeast(Linked(d) - todo + {me}, low)
        invariant best.None? ==> !(d.head.Some? && Alive(me, d, d.head.value))
        invariant best.None? ==> forall p :: p in peers && p !in todo ==> !Claims(d, me, p)
        invariant best.Some? ==> best.value in Claimed(me, d)
        invariant best.Some? && d.head.Some? && Alive(me, d, d.head.value) ==> best.value <= d.head.value
        invariant best.Some? ==> forall p :: p in peers && p !in todo && Claims(d, me, p) ==>
                                   best.value <= peers[p].status.head.value
        decreases todo
      {
        var p :| p in todo;
        ghost var seen := Linked(d) - todo + {me};
        todo := todo - {p};
        if !peers[p].alive {
          assert Linked(d) - todo + {me} == seen;
          continue;
        }
        if p < low { low := p; }
        assert Linked(d) - todo + {me} == seen + {p};
        var s := peers[p].status;
        if s.Heard? && s.head.Some? && (s.head.value == me || (s.head.value in peers && peers[s.head.value].alive)) {
          assert Claims(d, me, p) && s.head.value in Claimed(me, d);
          if best.None? || s.head.value < best.value { best := s.head; }
        }
      }
      if best.Some? {
        LeastIsOnlyOne(Claimed(me, d));
        return best.value;
      }
      assert Linked(d) - todo + {me} == Linked(d) + {me};
      LeastIsOnlyOne(Linked(d) + {me});
      return low;
    }

    method OnTick(peers: map<Id, Peer>, up: nat, now: nat) returns (changed: bool)
      modifies this
      ensures Seen(peers) == Tick(cfg, me, old(Seen(peers)), up, now)
      ensures changed == (head != old(head))
      ensures generation == old(generation) + if changed then 1 else 0
    {
      if !heard {
        heard := exists p :: p in peers && peers[p].alive && peers[p].status.Heard?;
        if !heard {
          if up < cfg.bootWait { return false; }
          heard := true;
        }
      }
      var c := HeadCandidate(peers);
      assert c == Candidate(me, old(Seen(peers))) by {
        SameCandidate(me, old(Seen(peers)), Seen(peers));
      }
      hide Candidate;
      if head == Some(c) {
        since := None;
        return false;
      }
      if since.None? || since.value.0 != c {
        since := Some((c, now));
        return false;
      }
      if now >= since.value.1 + cfg.holdDown {
        head, since, generation := Some(c), None, generation + 1;
        return true;
      }
      return false;
    }
  }

  // ------------------------------------------------------------ the mesh

  /** Every daemon that is up. A daemon that is down has no state. */
  type Mesh = map<Id, Daemon>

  const BOOTED := Daemon(None, false, false, map[], None)

  /** A daemon that has heard a peer holds every live daemon's current status. */
  ghost predicate Informed(m: Mesh, d: Id)
    requires d in m
  {
    forall e :: e in m && e != d ==> Links(m[d], e) && m[d].peers[e].status == Heard(m[e].head)
  }

  /** What the mesh does between two states. Links and statuses reach daemons
      in any order. A push carries the status its sender has at that moment; what a
      daemon holds from then on may grow arbitrarily old before the next one. A
      peer's row outlives its link, and a new link to the peer finds the status
      where the old one left it, whatever became of the peer in between. */
  datatype Step =
    | Boot(d: Id)
    | Crash(d: Id)
    | Link(d: Id, e: Id)                 // d gets a link to e
    | Push(from: Id, to: Id)             // what from now states reaches to
    | Drop(d: Id, e: Id)                 // d's link to e is over
    | Forget(d: Id, e: Id)               // d drops the row of a peer long gone
    | Elect(d: Id, up: nat, now: nat)

  /** The status on a peer's row, alive or not. */
  function Kept(d: Daemon, e: Id): Status {
    if e in d.peers then d.peers[e].status else Silent
  }

  function Relinked(d: Daemon, e: Id): Daemon {
    d.(peers := d.peers[e := Peer(true, Kept(d, e))])
  }

  function Told(d: Daemon, e: Id, head: Option<Id>): Daemon {
    d.(met := true, peers := d.peers[e := Peer(true, Heard(head))])
  }

  function Unlinked(d: Daemon, e: Id): Daemon {
    d.(peers := d.peers[e := Peer(false, Kept(d, e))])
  }

  ghost predicate Next(cfg: Config, m: Mesh, s: Step, m': Mesh) {
    match s
    case Boot(d) => d !in m && m' == m[d := BOOTED]
    case Crash(d) => d in m && m' == m - {d}
    case Link(d, e) => d in m && e in m && d != e && !Links(m[d], e) && m' == m[d := Relinked(m[d], e)]
    case Push(from, to) =>
      from in m && to in m && from != to && Links(m[to], from) && m' == m[to := Told(m[to], from, m[from].head)]
    case Drop(d, e) =>
      // A link to a live daemon is lost only by a daemon in the mesh.
      d in m && Links(m[d], e) && (e in m ==> m[d].met) && m' == m[d := Unlinked(m[d], e)]
    case Forget(d, e) =>
      d in m && e in m[d].peers && !Links(m[d], e) && m' == m[d := m[d].(peers := m[d].peers - {e})]
    case Elect(d, up, now) =>
      d in m && m' == m[d := Tick(cfg, d, m[d], up, now)] &&
      // The assumptions of the model: a daemon that has heard a peer reaches
      // every live daemon within the hold-down, and a live daemon answers
      // sooner than the boot wait.
      (Commits(cfg, d, m[d], up, now) && m[d].met ==> Informed(m, d)) &&
      (!m[d].heard && !AnyStatus(m[d]) && up >= cfg.bootWait ==> m.Keys == {d})
  }

  // ------------------------------------------------------------ stability

  /** A status that gives nobody a reason to leave head `h`. */
  predicate Harmless(s: Status, h: Id) {
    s.Silent? || s.head.None? || s.head.value >= h
  }

  /** The head is settled: it is up and follows itself, no status held over a live
      link claims a lower one, and every other daemon either follows it, having
      heard a peer or holding a link to it, or has yet to elect and has not waited
      out its boot wait alone. */
  ghost predicate Settled(m: Mesh, h: Id) {
    h in m && m[h].head == Some(h) &&
    (forall d :: d in m ==> Follows(d, m[d], h)) &&
    (forall d, p :: d in m && Links(m[d], p) ==> Harmless(m[d].peers[p].status, h)) &&
    (forall d, p :: d in m && p in m[d].peers && m[d].peers[p].status.Heard? ==> m[d].met)
  }

  predicate Follows(me: Id, d: Daemon, h: Id) {
    if d.head.Some? then d.head.value == h && (d.met || me == h || Links(d, h))
    else d.met || !d.heard
  }

  lemma SettledCandidate(m: Mesh, h: Id, d: Id)
    requires Settled(m, h) && d in m
    requires m[d].met ==> Informed(m, d)
    requires m[d].met || m[d].head.Some?
    ensures Candidate(d, m[d]) == h
  {
    var c := Claimed(d, m[d]);
    assert forall x :: x in c ==> x >= h;
    if d != h && m[d].met {
      assert m[d].peers[h].status == Heard(Some(h));
      assert Claims(m[d], d, h);
    }
    assert h in c;
  }

  /** The one step that unsettles a head that stays up: a new link to a peer whose
      row kept the claim of a lower head. No boot, other crash, push, lost link,
      forgotten row or commit does. */
  predicate RelinksClean(m: Mesh, s: Step, h: Id) {
    s.Link? && s.d in m ==> Harmless(Kept(m[s.d], s.e), h)
  }

  lemma LinkSettled(m: Mesh, d: Id, e: Id, h: Id)
    requires Settled(m, h) && d in m && !Links(m[d], e)
    ensures Settled(m[d := Relinked(m[d], e)], h) <==> Harmless(Kept(m[d], e), h)
  {
    var m' := m[d := Relinked(m[d], e)];
    assert Links(m'[d], e) && m'[d].peers[e].status == Kept(m[d], e);
    if Harmless(Kept(m[d], e), h) { OneRow(m, m', d, e, h); }
  }

  /** Only one row of one daemon's peers may have changed. */
  ghost predicate RowOnly(m: Mesh, m': Mesh, d: Id, e: Id) {
    m'.Keys == m.Keys && d in m && (forall x :: x in m && x != d ==> m'[x] == m[x]) &&
    m'[d] == m[d].(peers := m'[d].peers, met := m'[d].met) && (m[d].met ==> m'[d].met) &&
    forall p :: p != e ==> (p in m'[d].peers <==> p in m[d].peers) && (p in m[d].peers ==> m'[d].peers[p] == m[d].peers[p])
  }

  /** Such a change keeps a head settled if the one row does. */
  lemma OneRow(m: Mesh, m': Mesh, d: Id, e: Id, h: Id)
    requires RowOnly(m, m', d, e) && Settled(m, h)
    requires Links(m'[d], e) ==> Harmless(m'[d].peers[e].status, h)
    requires e in m'[d].peers && m'[d].peers[e].status.Heard? ==> m'[d].met
    requires e == h && Links(m[d], h) ==> m[d].met || Links(m'[d], h)
    ensures Settled(m', h)
  {
    forall x, p | x in m && (x != d || p != e) ensures Links(m'[x], p) == Links(m[x], p) {
    }
  }

  lemma ElectSettled(cfg: Config, m: Mesh, d: Id, up: nat, now: nat, h: Id)
    requires Settled(m, h) && d in m && Next(cfg, m, Elect(d, up, now), m[d := Tick(cfg, d, m[d], up, now)])
    ensures Settled(m[d := Tick(cfg, d, m[d], up, now)], h)
    ensures m[d].head == Some(h) ==> Tick(cfg, d, m[d], up, now).head == Some(h)
  {
    if Commits(cfg, d, m[d], up, now) {
      CommitIsCandidate(cfg, d, m[d], up, now);
      SettledCandidate(m, h, d);
    }
    hide Candidate;
    var x := Tick(cfg, d, m[d], up, now);
    assert x.peers == m[d].peers && x.met == m[d].met;
    assert forall p :: Links(x, p) == Links(m[d], p);
  }

  /** A step keeps a settled head settled exactly when it is not such a relink, and
      in no step does a daemon that follows the head leave it. */
  lemma StableHeadStep(cfg: Config, m: Mesh, s: Step, m': Mesh, h: Id)
    requires Settled(m, h) && Next(cfg, m, s, m') && s != Crash(h)
    ensures Settled(m', h) <==> RelinksClean(m, s, h)
    ensures forall d :: d in m && d in m' && m[d].head == Some(h) && s != Boot(d) ==> m'[d].head == Some(h)
  {
    match s
    case Boot(d) =>
    case Crash(d) =>
    case Link(d, e) => LinkSettled(m, d, e, h);
    case Push(from, to) => OneRow(m, m', to, from, h);
    case Drop(d, e) => OneRow(m, m', d, e, h);
    case Forget(d, e) => OneRow(m, m', d, e, h);
    case Elect(d, up, now) => ElectSettled(cfg, m, d, up, now, h);
  }

  /** A run: each state follows from the one before. */
  ghost predicate Run(cfg: Config, ms: seq<Mesh>, ss: seq<Step>) {
    |ms| == |ss| + 1 &&
    forall i :: 0 <= i < |ss| ==> Next(cfg, ms[i], ss[i], ms[i + 1])
  }

  /** Over every run in which the head stays up and no peer is relinked with the
      claim of a lower head on its row, a settled head stays settled. */
  lemma {:induction false} StableHead(cfg: Config, ms: seq<Mesh>, ss: seq<Step>, h: Id, i: nat)
    requires Run(cfg, ms, ss) && Settled(ms[0], h) && i < |ms|
    requires forall j :: 0 <= j < |ss| ==> ss[j] != Crash(h) && RelinksClean(ms[j], ss[j], h)
    ensures Settled(ms[i], h)
  {
    if i > 0 {
      StableHead(cfg, ms, ss, h, i - 1);
      StableHeadStep(cfg, ms[i - 1], ss[i - 1], ms[i], h);
    }
  }

  // ---- how a kept claim takes the head from a live one

  lemma SettlesOn(me: Id, d: Daemon, c: Id)
    requires IsLeast(Claimed(me, d), c)
    ensures Candidate(me, d) == c
  {
    LeastIsOnlyOne(Claimed(me, d));
  }

  /** Two ticks a hold-down apart bring a daemon whose wait is over to its candidate. */
  lemma TwoTicks(cfg: Config, me: Id, d: Daemon, up: nat, now: nat)
    requires d.heard || AnyStatus(d) || up >= cfg.bootWait
    requires d.since.Some? ==> d.since.value.1 + cfg.holdDown <= now
    ensures var d1 := Tick(cfg, me, d, up, now);
            Tick(cfg, me, d1, up, now + cfg.holdDown).head == Some(Candidate(me, d))
  {
    var c := Candidate(me, d);
    var d1 := Tick(cfg, me, d, up, now);
    assert forall x :: Links(d1, x) == Links(d, x);
    assert forall p :: p in d.peers ==> Claims(d1, me, p) == Claims(d, me, p);
    if d1.head == d.head {
      SameCandidate(me, d, d1);
    } else {
      assert d1.head == Some(c) && Alive(me, d1, c);
      assert c in Claimed(me, d1);
      forall x | x in Claimed(me, d1) ensures c <= x {
        if x != c {
          var p :| p in d1.peers && Claims(d1, me, p) && d1.peers[p].status.head.value == x;
          assert Claims(d, me, p);
          assert x in Claimed(me, d);
        }
      }
      SettlesOn(me, d1, c);
    }
  }

  /** The run after the relink: the peer goes down unnoticed, and the daemon ticks
      twice. */
  ghost function Away(d: Id, e: Id, cfg: Config, now: nat): seq<Step> {
    [Link(d, e), Crash(e), Elect(d, cfg.bootWait, now), Elect(d, cfg.bootWait, now + cfg.holdDown)]
  }

  /** Every kept claim of a lower head that the daemon counts as live does it: a
      daemon of the mesh relinks to the peer, the peer goes down again before it
      pushes a status, and a hold-down later the daemon has left the head, which is
      up all along. */
  lemma RelinkTakesHead(cfg: Config, m: Mesh, d: Id, e: Id, h: Id, now: nat) returns (ms: seq<Mesh>)
    requires Settled(m, h) && d in m && e in m && d != e && e != h && !Links(m[d], e)
    requires m[d].met && m[d].head == Some(h) && Informed(m - {e}, d)
    requires !Harmless(Kept(m[d], e), h) && Alive(d, Relinked(m[d], e), Kept(m[d], e).head.value)
    requires m[d].since.Some? ==> m[d].since.value.1 + cfg.holdDown <= now
    ensures Run(cfg, ms, Away(d, e, cfg, now)) && ms[0] == m
    ensures ms[4].Keys == m.Keys - {e} && h in ms[4]
    ensures ms[4][d].head == Some(Candidate(d, Relinked(m[d], e))) && ms[4][d].head.value < h
  {
    hide Candidate, Tick, Informed, Settled, AnyStatus, Harmless, Alive, Relinked, Commits;
    var d1 := Relinked(m[d], e);
    var m1, m2 := m[d := d1], (m - {e})[d := d1];
    KeptClaimWins(m[d], d, e, h);
    TwoTicks(cfg, d, d1, cfg.bootWait, now) by {
      RelinkedSame(m[d], e);
    }
    RelinkedInformed(m, d, e);
    var d2 := Tick(cfg, d, d1, cfg.bootWait, now);
    var d3 := Tick(cfg, d, d2, cfg.bootWait, now + cfg.holdDown);
    InformedTick(cfg, m2, d, cfg.bootWait, now);
    ms := [m, m1, m2, m2[d := d2], m2[d := d3]];
    assert m1 - {e} == m2;
    assert m2[d := d2][d := d3] == m2[d := d3];
    var ss := Away(d, e, cfg, now);
    assert Next(cfg, ms[0], ss[0], ms[1]);
    assert Next(cfg, ms[1], ss[1], ms[2]);
    assert Next(cfg, ms[2], ss[2], ms[3]);
    assert Next(cfg, ms[3], ss[3], ms[4]);
    HeadIsUp(m, h);
  }

  lemma HeadIsUp(m: Mesh, h: Id)
    requires Settled(m, h)
    ensures h in m
  {
  }

  lemma RelinkedSame(d: Daemon, e: Id)
    ensures Relinked(d, e).since == d.since && Relinked(d, e).heard == d.heard && Relinked(d, e).head == d.head
  {
  }

  lemma KeptClaimWins(d: Daemon, me: Id, e: Id, h: Id)
    requires !Harmless(Kept(d, e), h) && Alive(me, Relinked(d, e), Kept(d, e).head.value)
    ensures var d1 := Relinked(d, e); AnyStatus(d1) && Claimed(me, d1) != {} && Candidate(me, d1) < h
  {
    var d1 := Relinked(d, e);
    assert Links(d1, e) && Claims(d1, me, e);
    assert Kept(d, e).head.value in Claimed(me, d1);
  }

  lemma RelinkedInformed(m: Mesh, d: Id, e: Id)
    requires d in m && d != e && Informed(m - {e}, d)
    ensures Informed((m - {e})[d := Relinked(m[d], e)], d)
  {
    assert forall p :: p != e ==> Links(Relinked(m[d], e), p) == Links(m[d], p);
  }

  lemma InformedTick(cfg: Config, m: Mesh, d: Id, up: nat, now: nat)
    requires d in m && Informed(m, d)
    ensures var x := Tick(cfg, d, m[d], up, now);
            Informed(m[d := x], d) && (AnyStatus(x) <==> AnyStatus(m[d]))
  {
    hide Candidate;
    var x := Tick(cfg, d, m[d], up, now);
    assert x.peers == m[d].peers;
    assert forall p :: Links(x, p) == Links(m[d], p);
    assert AnyStatus(x) <==> AnyStatus(m[d]);
  }

  /** A daemon with no live link and no head watches itself, then follows itself. */
  lemma AloneTicks(cfg: Config, me: Id, d: Daemon, now: nat)
    requires Linked(d) == {} && d.head.None? && d.since.None?
    ensures var d1 := d.(heard := true, since := Some((me, now)));
            Tick(cfg, me, d, cfg.bootWait, now) == d1 &&
            Tick(cfg, me, d1, cfg.bootWait, now + cfg.holdDown) == d1.(head := Some(me), since := None)
  {
    var d1 := d.(heard := true, since := Some((me, now)));
    assert forall p :: p in d.peers ==> p !in Linked(d);
    assert Claimed(me, d) == {};
    assert Linked(d) + {me} == {me};
    SameCandidate(me, d, d1);
  }

  /** Daemon 1 elects itself, tells daemon 2 and goes down. Daemon 2 notices, elects
      itself, and then daemon 1 is back. */
  ghost function Handover(cfg: Config): seq<Step> {
    [Boot(1), Elect(1, cfg.bootWait, 0), Elect(1, cfg.bootWait, cfg.holdDown), Boot(2), Link(2, 1), Push(1, 2), Crash(1),
     Drop(2, 1), Elect(2, cfg.bootWait, 0), Elect(2, cfg.bootWait, cfg.holdDown), Boot(1)]
  }

  const FIRST := Daemon(Some(1), true, false, map[], None)
  const SECOND := Daemon(Some(2), true, true, map[1 := Peer(false, Heard(Some(1)))], None)

  ghost function HandoverMeshes(): seq<Mesh> {
    [map[], map[1 := BOOTED], map[1 := BOOTED.(heard := true, since := Some((1, 0)))], map[1 := FIRST],
     map[1 := FIRST, 2 := BOOTED],
     map[1 := FIRST, 2 := BOOTED.(peers := map[1 := Peer(true, Silent)])],
     map[1 := FIRST, 2 := BOOTED.(met := true, peers := map[1 := Peer(true, Heard(Some(1)))])],
     map[2 := BOOTED.(met := true, peers := map[1 := Peer(true, Heard(Some(1)))])],
     map[2 := SECOND.(head := None, heard := false)],
     map[2 := SECOND.(head := None, since := Some((2, 0)))],
     map[2 := SECOND], map[1 := BOOTED, 2 := SECOND]]
  }

  lemma FirstElects(cfg: Config)
    ensures var ms, ss := HandoverMeshes(), Handover(cfg); forall i :: 0 <= i < 3 ==> Next(cfg, ms[i], ss[i], ms[i + 1])
  {
    hide Tick, Candidate, AnyStatus;
    var ms, ss := HandoverMeshes(), Handover(cfg);
    AloneTicks(cfg, 1, BOOTED, 0);
    assert ms[1].Keys == ms[2].Keys == {1};
    assert Next(cfg, ms[0], ss[0], ms[1]);
    assert Next(cfg, ms[1], ss[1], ms[2]);
    assert Next(cfg, ms[2], ss[2], ms[3]);
  }

  lemma SecondHears(cfg: Config)
    ensures var ms, ss := HandoverMeshes(), Handover(cfg); forall i :: 3 <= i < 8 ==> Next(cfg, ms[i], ss[i], ms[i + 1])
  {
    hide Tick, Candidate, AnyStatus;
    var ms, ss := HandoverMeshes(), Handover(cfg);
    assert Told(ms[5][2], 1, Some(1)).peers == ms[6][2].peers;
    assert Unlinked(ms[7][2], 1).peers == ms[8][2].peers;
    assert Next(cfg, ms[3], ss[3], ms[4]);
    assert Next(cfg, ms[4], ss[4], ms[5]);
    assert Next(cfg, ms[5], ss[5], ms[6]);
    assert Next(cfg, ms[6], ss[6], ms[7]);
    assert Next(cfg, ms[7], ss[7], ms[8]);
  }

  lemma SecondElects(cfg: Config)
    ensures var ms, ss := HandoverMeshes(), Handover(cfg); forall i :: 8 <= i < 11 ==> Next(cfg, ms[i], ss[i], ms[i + 1])
  {
    hide Tick, Candidate, AnyStatus;
    var ms, ss := HandoverMeshes(), Handover(cfg);
    AloneTicks(cfg, 2, SECOND.(head := None, heard := false), 0);
    assert ms[8].Keys == ms[9].Keys == {2};
    assert Next(cfg, ms[8], ss[8], ms[9]);
    assert Next(cfg, ms[9], ss[9], ms[10]);
    assert Next(cfg, ms[10], ss[10], ms[11]);
  }

  lemma HandoverRuns(cfg: Config)
    ensures Run(cfg, HandoverMeshes(), Handover(cfg))
  {
    hide Next;
    FirstElects(cfg);
    SecondHears(cfg);
    SecondElects(cfg);
  }

  /** A run from an empty mesh of two daemons, for every configuration: daemon 2 is
      the settled head, daemon 1 comes back and goes again, and daemon 2, up all
      along, hands the head to the daemon that is down. */
  lemma ReturnTakesHead(cfg: Config) returns (ms: seq<Mesh>)
    ensures Run(cfg, ms, Handover(cfg) + Away(2, 1, cfg, 0)) && ms[0] == map[]
    ensures Settled(ms[11], 2) && ms[11][2].head == Some(2)
    ensures 2 in ms[15] && ms[15][2].head == Some(1) && 1 !in ms[15]
  {
    var before, m := HandoverMeshes(), HandoverMeshes()[11];
    HandoverRuns(cfg);
    var back := Relinked(SECOND, 1);
    assert Links(back, 1) && Claims(back, 2, 1);
    assert Claimed(2, back) == {1, 2};
    var after := RelinkTakesHead(cfg, m, 2, 1, 2, 0);
    ms := before + after[1..];
    hide Next, Settled;
    var ss := Handover(cfg) + Away(2, 1, cfg, 0);
    forall i | 0 <= i < |ss| ensures Next(cfg, ms[i], ss[i], ms[i + 1]) {
    }
  }

  /** The boot wait is what stability rests on: were a booted daemon to elect
      before hearing anyone, a lower id would take the head from a live one. */
  lemma BootWaitIsNeeded()
    ensures exists m: Mesh, h, d ::
              Settled(m, h) && d in m && !AnyStatus(m[d]) && !m[d].heard && Candidate(d, m[d]) != h
  {
    var m: Mesh := map[1 := BOOTED, 2 := Daemon(Some(2), true, false, map[], None)];
    assert Claimed(1, m[1]) == {};
    assert Linked(m[1]) + {1} == {1};
    assert Settled(m, 2) && Candidate(1, m[1]) == 1;
  }

  // ---------------------------------------------------------- convergence

  /** The live set is fixed and fully meshed: every daemon holds a link to
      every other and to nothing else. Statuses may be stale. */
  ghost predicate Meshed(m: Mesh) {
    forall d :: d in m ==> Linked(m[d]) == m.Keys - {d}
  }

  /** How far a daemon's head can still fall: the number of live ids at or
      below it, with no live head counted above every id. */
  function Rank(live: set<Id>, head: Option<Id>): nat {
    if head.Some? && head.value in live then |set x | x in live && x < head.value| else |live|
  }

  lemma RankFalls(live: set<Id>, head: Option<Id>, c: Id)
    requires c in live
    requires head.Some? && head.value in live ==> c < head.value
    ensures Rank(live, Some(c)) < Rank(live, head)
  {
    var below := set x | x in live && x < c;
    var most := if head.Some? && head.value in live then set x | x in live && x < head.value else live;
    assert c in most && c !in below && below <= most;
    StrictSubset(below, most);
  }

  lemma {:induction false} StrictSubset(a: set<Id>, b: set<Id>)
    requires a < b
    ensures |a| < |b|
  {
    var x :| x in b && x !in a;
    assert a <= b - {x};
    SubsetSize(a, b - {x});
  }

  lemma AliveInMesh(m: Mesh, d: Id, x: Id)
    requires Meshed(m) && d in m
    ensures Alive(d, m[d], x) <==> x in m
  {
    assert Links(m[d], x) <==> x in Linked(m[d]);
  }

  /** Every commit in a meshed live set strictly lowers the committing
      daemon's head, whatever stale statuses it holds. */
  lemma CommitLowers(m: Mesh, d: Id)
    requires Meshed(m) && d in m && m[d].head != Some(Candidate(d, m[d]))
    ensures Candidate(d, m[d]) in m
    ensures Rank(m.Keys, Some(Candidate(d, m[d]))) < Rank(m.Keys, m[d].head)
  {
    var c := Candidate(d, m[d]);
    AliveInMesh(m, d, c);
    if m[d].head.Some? && m[d].head.value in m {
      AliveInMesh(m, d, m[d].head.value);
      assert m[d].head.value in Claimed(d, m[d]);
    }
    RankFalls(m.Keys, m[d].head, c);
  }

  function Total(live: set<Id>, m: Mesh, todo: set<Id>): nat
    requires todo <= m.Keys
    decreases |todo|
  {
    if todo == {} then 0
    else
      Rank(live, m[Least(todo)].head) + Total(live, m, todo - {Least(todo)})
  }

  /** Changing one daemon's head changes the total by that daemon's share. */
  lemma {:induction false} TotalOfOne(live: set<Id>, m: Mesh, m': Mesh, todo: set<Id>, d: Id)
    requires todo <= m.Keys && m.Keys == m'.Keys
    requires forall e :: e in todo && e != d ==> m[e].head == m'[e].head
    ensures d in todo ==>
              Total(live, m, todo) + Rank(live, m'[d].head) == Total(live, m', todo) + Rank(live, m[d].head)
    ensures d !in todo ==> Total(live, m, todo) == Total(live, m', todo)
    decreases |todo|
  {
    if todo != {} {
      TotalOfOne(live, m, m', todo - {Least(todo)}, d);
    }
  }

  lemma {:induction false} TotalBound(live: set<Id>, m: Mesh, todo: set<Id>)
    requires todo <= m.Keys
    ensures Total(live, m, todo) <= |todo| * |live|
    decreases |todo|
  {
    if todo != {} {
      var x := Least(todo);
      TotalBound(live, m, todo - {x});
      SubsetSize(if m[x].head.Some? then set y | y in live && y < m[x].head.value else live, live);
      assert |todo - {x}| == |todo| - 1;
    }
  }

  /** A step of a phase in which no daemon boots or crashes and links stay up. */
  ghost predicate Quiet(s: Step) {
    s.Push? || s.Elect?
  }

  ghost predicate IsCommit(cfg: Config, m: Mesh, s: Step) {
    s.Elect? && s.d in m && Commits(cfg, s.d, m[s.d], s.up, s.now)
  }

  /** Replacing one daemon's state, links kept, moves the total by its share. */
  lemma ReplaceOne(m: Mesh, d: Id, x: Daemon)
    requires Meshed(m) && d in m && Linked(x) == Linked(m[d])
    ensures Meshed(m[d := x]) && m[d := x].Keys == m.Keys
    ensures Total(m.Keys, m, m.Keys) + Rank(m.Keys, x.head) ==
            Total(m.Keys, m[d := x], m.Keys) + Rank(m.Keys, m[d].head)
  {
    var m' := m[d := x];
    assert m'.Keys == m.Keys;
    TotalOfOne(m.Keys, m, m', m.Keys, d);
  }

  lemma TickKeepsPeers(cfg: Config, me: Id, d: Daemon, up: nat, now: nat)
    ensures Tick(cfg, me, d, up, now).peers == d.peers && Linked(Tick(cfg, me, d, up, now)) == Linked(d)
  {
  }

  lemma PushKeepsTotal(m: Mesh, from: Id, to: Id)
    requires Meshed(m) && from in m && to in m && Links(m[to], from)
    ensures var m' := m[to := Told(m[to], from, m[from].head)];
            Meshed(m') && m'.Keys == m.Keys && Total(m.Keys, m', m.Keys) == Total(m.Keys, m, m.Keys)
  {
    var x := Told(m[to], from, m[from].head);
    assert forall p :: Links(x, p) == Links(m[to], p);
    assert Linked(x) == Linked(m[to]);
    ReplaceOne(m, to, x);
  }

  lemma TickLowersTotal(cfg: Config, m: Mesh, d: Id, up: nat, now: nat)
    requires Meshed(m) && d in m
    ensures var m' := m[d := Tick(cfg, d, m[d], up, now)];
            Meshed(m') && m'.Keys == m.Keys &&
            Total(m.Keys, m', m.Keys) + (if Commits(cfg, d, m[d], up, now) then 1 else 0)
              <= Total(m.Keys, m, m.Keys)
  {
    var x := Tick(cfg, d, m[d], up, now);
    TickKeepsPeers(cfg, d, m[d], up, now);
    ReplaceOne(m, d, x);
    if x.head != m[d].head {
      CommitIsCandidate(cfg, d, m[d], up, now);
      CommitLowers(m, d);
    }
  }

  lemma QuietStep(cfg: Config, m: Mesh, s: Step, m': Mesh)
    requires Meshed(m) && Next(cfg, m, s, m') && Quiet(s)
    ensures Meshed(m') && m'.Keys == m.Keys
    ensures Total(m.Keys, m', m.Keys) + (if IsCommit(cfg, m, s) then 1 else 0)
              <= Total(m.Keys, m, m.Keys)
  {
    match s
    case Push(from, to) => PushKeepsTotal(m, from, to);
    case Elect(d, up, now) => TickLowersTotal(cfg, m, d, up, now);
  }

  ghost function CommitCount(cfg: Config, ms: seq<Mesh>, ss: seq<Step>): nat
    requires |ms| == |ss| + 1
    decreases |ss|
  {
    if ss == [] then 0
    else
      var n := |ss| - 1;
      CommitCount(cfg, ms[..n + 1], ss[..n]) + if IsCommit(cfg, ms[n], ss[n]) then 1 else 0
  }

  /** Over every run with a fixed, fully meshed live set, the commits are at
      most the square of its size. */
  lemma {:induction false} CommitsAreFinite(cfg: Config, ms: seq<Mesh>, ss: seq<Step>)
    requires Run(cfg, ms, ss) && Meshed(ms[0])
    requires forall i :: 0 <= i < |ss| ==> Quiet(ss[i])
    ensures Meshed(ms[|ss|]) && ms[|ss|].Keys == ms[0].Keys
    ensures CommitCount(cfg, ms, ss) + Total(ms[0].Keys, ms[|ss|], ms[0].Keys)
              <= Total(ms[0].Keys, ms[0], ms[0].Keys)
    ensures CommitCount(cfg, ms, ss) <= |ms[0].Keys| * |ms[0].Keys|
    decreases |ss|
  {
    TotalBound(ms[0].Keys, ms[0], ms[0].Keys);
    if ss != [] {
      var n := |ss| - 1;
      assert ms[..n + 1][0] == ms[0] && ms[..n + 1][n] == ms[n];
      CommitsAreFinite(cfg, ms[..n + 1], ss[..n]);
      assert Quiet(ss[n]) && Next(cfg, ms[n], ss[n], ms[n + 1]);
      QuietStep(cfg, ms[n], ss[n], ms[n + 1]);
    }
  }

  /** No daemon would change its head, with every status held current. */
  ghost predicate AtRest(m: Mesh) {
    Meshed(m) &&
    (forall d :: d in m ==> Informed(m, d) && m[d].head == Some(Candidate(d, m[d]))) &&
    (forall d, p :: d in m && p in m[d].peers && m[d].peers[p].status.Heard? ==> m[d].met)
  }

  /** A mesh at rest follows one live head, which is then settled. */
  lemma RestIsAgreement(m: Mesh) returns (h: Id)
    requires AtRest(m) && m != map[]
    ensures h in m && Settled(m, h)
    ensures forall d :: d in m ==> m[d].head == Some(h)
  {
    var d0 :| d0 in m;
    h := Candidate(d0, m[d0]);
    forall d | d in m
      ensures m[d].head == Some(h)
    {
      HeadsAgree(m, d, d0);
      HeadsAgree(m, d0, d);
    }
    HeadIsLive(m, d0);
    RestIsSettled(m, h);
  }

  lemma HeadIsLive(m: Mesh, d: Id)
    requires Meshed(m) && d in m
    ensures Candidate(d, m[d]) in m
  {
    AliveInMesh(m, d, Candidate(d, m[d]));
  }

  lemma HeadsAgree(m: Mesh, d: Id, e: Id)
    requires AtRest(m) && d in m && e in m
    ensures Candidate(d, m[d]) <= Candidate(e, m[e])
  {
    if d != e {
      var h := Candidate(e, m[e]);
      HeadIsLive(m, e);
      assert Informed(m, d) && m[e].head == Some(h);
      assert m[d].peers[e].status == Heard(Some(h));
      assert Linked(m[d]) == m.Keys - {d};
      assert Claims(m[d], d, e);
      assert h in Claimed(d, m[d]);
    }
  }

  lemma RestIsSettled(m: Mesh, h: Id)
    requires Meshed(m) && h in m
    requires forall d :: d in m ==> Informed(m, d) && m[d].head == Some(h)
    requires forall d, p :: d in m && p in m[d].peers && m[d].peers[p].status.Heard? ==> m[d].met
    ensures Settled(m, h)
  {
    forall d | d in m ensures Follows(d, m[d], h) {
      assert Linked(m[d]) == m.Keys - {d};
    }
    forall d, p | d in m && Links(m[d], p) ensures Harmless(m[d].peers[p].status, h) {
      assert Linked(m[d]) == m.Keys - {d};
      assert p in Linked(m[d]);
      assert m[d].peers[p].status == Heard(m[p].head);
    }
  }
}
