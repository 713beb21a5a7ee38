/** The last leg of a call: the host process of an actor is given the calls this
    head accepted in the order it accepted them. */
module Delivery {
  import opened Tables
  import opened Head
  import opened Safety
  import opened Rows
  import opened Runs
  import opened Calls
  import opened Joins
  import opened Cluster

  /** The call came in a frame the agent has read. */
  ghost predicate Arrived(c: Cluster, g: AgentId, a: ActorId, call: Call) {
    g in c.sides &&
    exists i :: 0 <= i < |c.head.sent| && i < c.sides[g].read && c.head.sent[i].msg == Dispatch(a, call)
  }

  /** A host's calls came in frames read, but for those here before this head, and
      stand in the order of their numbers. */
  ghost predicate LineGood(c: Cluster, g: AgentId, a: ActorId)
    requires HostsActor(c, g, a)
  {
    var h := c.sides[g].hosts[a];
    (forall k :: 0 <= k < |Line(h)| ==> Line(h)[k].ref in h.early || Arrived(c, g, a, Line(h)[k])) &&
    Ascends(Line(h), h.early)
  }

  /** Calls not in `early` stand in the order of their numbers. */
  ghost predicate Ascends(s: seq<Call>, early: set<RefId>) {
    forall i, j :: 0 <= i < j < |s| && s[i].ref !in early && s[j].ref !in early ==> s[i].ref.n < s[j].ref.n
  }

  ghost predicate LinesGood(c: Cluster) {
    (forall g :: g in c.sides ==> c.sides[g].read <= |c.head.sent|) &&
    (forall g, a :: HostsActor(c, g, a) ==> LineGood(c, g, a))
  }

  lemma BeginsInLine(c: Cluster)
    requires Begins(c)
    ensures LinesGood(c)
  {
    forall g, a | HostsActor(c, g, a) ensures LineGood(c, g, a) {
      assert AllEarly(c.sides[g].hosts[a]);
    }
  }

  // ------------------------------------------------------- steps of the head

  ghost predicate SentGrows(sent: seq<Sent>, sent': seq<Sent>) {
    |sent| <= |sent'| && forall i :: 0 <= i < |sent| ==> sent'[i] == sent[i]
  }

  lemma PrefixGrows(sent: seq<Sent>, sent': seq<Sent>)
    requires |sent| <= |sent'| && sent'[..|sent|] == sent
    ensures SentGrows(sent, sent')
  {
    assert forall i :: 0 <= i < |sent| ==> sent'[i] == sent'[..|sent|][i];
  }

  /** No step takes back a frame. */
  lemma FramesStand(st: State, cfg: Config, step: Step)
    requires RowsHold(st) && Handing(st) && IsOrder(step.ord) && Sane(st, step.event)
    ensures SentGrows(st.sent, Apply(st, cfg, step.ord, step.now, step.event).sent)
  {
    var e := step.event;
    hide Apply, SentGrows, RowsHold, Handing, IsOrder, Sane;
    if e.ActorCall? {
      CallFramesStand(st, cfg, step);
    } else if e.Register? {
      JoinFramesStand(st, cfg, step);
    } else {
      OthersHandNothing(st, cfg, step.ord, step.now, e);
      PrefixGrows(st.sent, Apply(st, cfg, step.ord, step.now, e).sent);
    }
  }

  lemma CallFramesStand(st: State, cfg: Config, step: Step)
    requires RowsHold(st) && Handing(st) && step.event.ActorCall?
    ensures SentGrows(st.sent, Apply(st, cfg, step.ord, step.now, step.event).sent)
  {
    var e := step.event;
    hide RowsHold, Handing, SentGrows;
    MakesCall(st, e.client, e.actor, e.body, e.delivered);
    var st' := MakeCall(st, e.client, e.actor, e.body, e.delivered);
    assert Apply(st, cfg, step.ord, step.now, e) == st';
    hide Apply, MakeCall;
    PrefixGrows(st.sent, st'.sent);
  }

  lemma JoinFramesStand(st: State, cfg: Config, step: Step)
    requires RowsHold(st) && Handing(st) && IsOrder(step.ord) && step.event.Register?
    ensures SentGrows(st.sent, Apply(st, cfg, step.ord, step.now, step.event).sent)
  {
    var e := step.event;
    hide Registered, RowsHold, Handing, SentGrows, IsOrder, RowsJoined, CallsJoined, QueuesJoined, CountersJoined;
    JoinEffects(st, cfg, step.ord, step.now, e.agent, e.group, e.node, e.gpus, e.resume, e.unacked, e.through);
    var st' := Registered(st, cfg, step.ord, step.now, e.agent, e.group, e.node, e.gpus, e.resume, e.unacked, e.through);
    assert Apply(st, cfg, step.ord, step.now, e) == st';
    hide Apply;
    PrefixGrows(st.sent, st'.sent);
  }

  /** Frames only added, and each side reading on or from the end. */
  lemma LinesStand(c: Cluster, c': Cluster)
    requires LinesGood(c) && SentGrows(c.head.sent, c'.head.sent)
    requires forall g :: g in c'.sides ==> g in c.sides && c.sides[g].read <= c'.sides[g].read <= |c'.head.sent|
    requires forall g, a :: HostsActor(c', g, a) ==>
               HostsActor(c, g, a) && Line(c'.sides[g].hosts[a]) == Line(c.sides[g].hosts[a]) &&
               c'.sides[g].hosts[a].early == c.sides[g].hosts[a].early
    ensures LinesGood(c')
  {
    forall g, a | HostsActor(c', g, a) ensures LineGood(c', g, a) {
      assert LineGood(c, g, a);
      ArrivedStands(c, c', g, a);
    }
  }

  lemma ArrivedStands(c: Cluster, c': Cluster, g: AgentId, a: ActorId)
    requires SentGrows(c.head.sent, c'.head.sent)
    requires g in c.sides && g in c'.sides && c.sides[g].read <= c'.sides[g].read
    ensures forall call :: Arrived(c, g, a, call) ==> Arrived(c', g, a, call)
  {
    forall call | Arrived(c, g, a, call) ensures Arrived(c', g, a, call) {
      var i :| 0 <= i < |c.head.sent| && i < c.sides[g].read && c.head.sent[i].msg == Dispatch(a, call);
      assert c'.head.sent[i].msg == Dispatch(a, call);
    }
  }

  // ------------------------------------------------------- reading a frame

  lemma TakeInLine(c: Cluster, g: AgentId, i: nat, written: bool)
    requires Good(c) && LinesGood(c) && Open(c, g, i)
    ensures LinesGood(TakeFrame(c, g, i, written))
  {
    var c' := TakeFrame(c, g, i, written);
    var msg := c.head.sent[i].msg;
    forall h, a | HostsActor(c', h, a) ensures LineGood(c', h, a) {
      if h == g && msg.Spawn? && a == msg.actor {
        assert Line(c'.sides[g].hosts[a]) == [];
      } else if h == g && msg.Dispatch? && a == msg.actor && HostsActor(c, g, a) {
        CallInLine(c, c', g, i, written);
      } else {
        assert HostsActor(c, h, a) && c'.sides[h].hosts[a] == c.sides[h].hosts[a];
        SameLine(c, c', h, a);
      }
    }
  }

  lemma SameLine(c: Cluster, c': Cluster, g: AgentId, a: ActorId)
    requires LinesGood(c) && HostsActor(c, g, a) && HostsActor(c', g, a) && c'.head == c.head
    requires c'.sides[g].hosts[a] == c.sides[g].hosts[a] && c.sides[g].read <= c'.sides[g].read
    ensures LineGood(c', g, a)
  {
    assert LineGood(c, g, a);
    ArrivedStands(c, c', g, a);
  }

  /** Accepting a call leaves the line alone or puts the call at its end. */
  lemma AcceptInLine(h: Host, call: Call, written: bool)
    requires HostGood(h)
    ensures var h' := Accept(h, call, written);
            h'.early == h.early && (Line(h') == Line(h) || Line(h') == Line(h) + [call])
  {
    if h.connected {
      assert h.given + [call] + [] == h.given + [] + [call];
    } else {
      assert h.given + (h.queued + [call]) == h.given + h.queued + [call];
    }
  }

  /** A call from the frame just read is newer than all that arrived before. */
  lemma CallInLine(c: Cluster, c': Cluster, g: AgentId, i: nat, written: bool)
    requires Good(c) && LinesGood(c) && Open(c, g, i) && c.head.sent[i].msg.Dispatch?
    requires HostsActor(c, g, c.head.sent[i].msg.actor) && c' == TakeFrame(c, g, i, written)
    ensures HostsActor(c', g, c.head.sent[i].msg.actor) && LineGood(c', g, c.head.sent[i].msg.actor)
  {
    var a, call := c.head.sent[i].msg.actor, c.head.sent[i].msg.call;
    var h, h' := c.sides[g].hosts[a], c'.sides[g].hosts[a];
    assert LineGood(c, g, a) && HostGood(h) && Handing(c.head);
    AcceptInLine(h, call, written);
    assert h' == Accept(h, call, written);
    ArrivedStands(c, c', g, a);
    assert Arrived(c', g, a, call) by {
      assert c'.head.sent[i].msg == Dispatch(a, call);
    }
    hide Good, TakeFrame, Accept, Line;
    NewerThanArrived(c, g, i, a, call);
    if Line(h') != Line(h) {
      PushInLine(c, c', g, a, call);
    } else {
      LineAsBefore(c, c', g, a);
    }
  }

  lemma LineAsBefore(c: Cluster, c': Cluster, g: AgentId, a: ActorId)
    requires HostsActor(c, g, a) && HostsActor(c', g, a) && LineGood(c, g, a)
    requires Line(c'.sides[g].hosts[a]) == Line(c.sides[g].hosts[a])
    requires c'.sides[g].hosts[a].early == c.sides[g].hosts[a].early
    requires forall x :: Arrived(c, g, a, x) ==> Arrived(c', g, a, x)
    ensures LineGood(c', g, a)
  {
    hide Arrived, Line;
  }

  lemma NewerThanArrived(c: Cluster, g: AgentId, i: nat, a: ActorId, call: Call)
    requires HandedInOrder(c.head.sent) && Open(c, g, i) && c.head.sent[i].msg == Dispatch(a, call)
    ensures forall x :: Arrived(c, g, a, x) ==> x.ref.n < call.ref.n
  {
    forall x | Arrived(c, g, a, x) ensures x.ref.n < call.ref.n {
      var j :| 0 <= j < |c.head.sent| && j < c.sides[g].read && c.head.sent[j].msg == Dispatch(a, x);
      assert Hands(c.head.sent[i], c.head.sent[j].msg.actor);
    }
  }

  lemma PushInLine(c: Cluster, c': Cluster, g: AgentId, a: ActorId, call: Call)
    requires HostsActor(c, g, a) && HostsActor(c', g, a) && LineGood(c, g, a)
    requires Line(c'.sides[g].hosts[a]) == Line(c.sides[g].hosts[a]) + [call]
    requires c'.sides[g].hosts[a].early == c.sides[g].hosts[a].early
    requires forall x :: Arrived(c, g, a, x) ==> Arrived(c', g, a, x) && x.ref.n < call.ref.n
    requires Arrived(c', g, a, call)
    ensures LineGood(c', g, a)
  {
    hide Arrived, Line;
  }

  // ------------------------------------------------- connecting a host

  /** Dropping calls keeps the order of the rest. */
  lemma {:induction false} ThroughKeeps(before: seq<Call>, queue: seq<Call>, written: set<RefId>, early: set<RefId>)
    requires Ascends(before + queue, early)
    ensures Ascends(before + Through(queue, written), early)
    ensures forall k :: 0 <= k < |Through(queue, written)| ==> Through(queue, written)[k] in queue
    decreases |queue|
  {
    if queue != [] {
      var n := |queue| - 1;
      var t := Through(queue[..n], written);
      assert before + queue == before + queue[..n] + [queue[n]];
      AscendsDrop(before + queue[..n], queue[n], early);
      ThroughKeeps(before, queue[..n], written, early);
      if queue[n].ref in written {
        forall i | 0 <= i < |before + t| && (before + t)[i].ref !in early && queue[n].ref !in early
          ensures (before + t)[i].ref.n < queue[n].ref.n
        {
          LastIsNewest(before, queue, early, (before + t)[i]);
        }
        assert before + (t + [queue[n]]) == before + t + [queue[n]];
        AscendsPush(before + t, queue[n], early);
      } else {
        assert Through(queue, written) == t;
      }
    }
  }

  lemma AscendsDrop(s: seq<Call>, x: Call, early: set<RefId>)
    requires Ascends(s + [x], early)
    ensures Ascends(s, early)
  {
    forall i, j | 0 <= i < j < |s| && s[i].ref !in early && s[j].ref !in early ensures s[i].ref.n < s[j].ref.n {
      assert (s + [x])[i] == s[i] && (s + [x])[j] == s[j];
    }
  }

  lemma AscendsPush(s: seq<Call>, x: Call, early: set<RefId>)
    requires Ascends(s, early)
    requires forall i :: 0 <= i < |s| && s[i].ref !in early && x.ref !in early ==> s[i].ref.n < x.ref.n
    ensures Ascends(s + [x], early)
  {
  }

  lemma LastIsNewest(before: seq<Call>, queue: seq<Call>, early: set<RefId>, x: Call)
    requires Ascends(before + queue, early) && queue != []
    requires x in before || x in queue[..|queue| - 1]
    requires x.ref !in early && queue[|queue| - 1].ref !in early
    ensures x.ref.n < queue[|queue| - 1].ref.n
  {
    var s := before + queue;
    assert s[|s| - 1] == queue[|queue| - 1];
    if x in before {
      var i :| 0 <= i < |before| && before[i] == x;
      assert s[i] == x;
    } else {
      var i :| 0 <= i < |queue| - 1 && queue[i] == x;
      assert s[|before| + i] == x;
    }
  }

  lemma ConnectInLine(c: Cluster, g: AgentId, a: ActorId, written: set<RefId>)
    requires LinesGood(c) && HostsActor(c, g, a)
    ensures LinesGood(AfterConnect(c, g, a, written))
  {
    var c' := AfterConnect(c, g, a, written);
    var h, h' := c.sides[g].hosts[a], c'.sides[g].hosts[a];
    assert LineGood(c, g, a);
    assert Ascends(h.given + h.queued, h.early);
    ThroughKeeps(h.given, h.queued, written, h.early);
    assert Line(h') == h.given + Through(h.queued, written);
    forall k | 0 <= k < |Line(h')| ensures Line(h')[k].ref in h.early || Arrived(c, g, a, Line(h')[k]) {
      assert Line(h')[k] in h.given || Line(h')[k] in h.queued;
      assert Line(h')[k] in Line(h);
      var j :| 0 <= j < |Line(h)| && Line(h)[j] == Line(h')[k];
    }
    ArrivedStands(c, c', g, a);
    forall k, x | HostsActor(c', k, x) ensures LineGood(c', k, x) {
      if k != g || x != a {
        assert HostsActor(c, k, x) && c'.sides[k].hosts[x] == c.sides[k].hosts[x];
        SameLine(c, c', k, x);
      }
    }
  }

  // ------------------------------------------------------------- every run

  lemma HeadInLine(c: Cluster, cfg: Config, step: Step)
    requires Good(c) && LinesGood(c) && HeadMoves(c, step)
    ensures LinesGood(AfterHead(c, cfg, step))
  {
    assert RowsHold(c.head) && Handing(c.head);
    hide Apply, Good, RowsHold, Handing, Sane, IsOrder, Steady, LinesGood;
    FramesStand(c.head, cfg, step);
    ReadsStand(c, Apply(c.head, cfg, step.ord, step.now, step.event).sent);
    LinesStand(c, AfterHead(c, cfg, step));
  }

  lemma ReadsStand(c: Cluster, sent: seq<Sent>)
    requires LinesGood(c) && SentGrows(c.head.sent, sent)
    ensures forall g :: g in c.sides ==> c.sides[g].read <= |sent|
  {
  }

  lemma JoinInLine(c: Cluster, cfg: Config, step: Step)
    requires Good(c) && LinesGood(c) && Joining(c, step)
    ensures LinesGood(AfterJoin(c, cfg, step))
  {
    assert RowsHold(c.head) && Handing(c.head);
    hide Apply, Good, RowsHold, Handing, IsOrder, ResumeOf, LinesGood;
    FramesStand(c.head, cfg, step);
    ReadsStand(c, c.head.sent);
    ReadsStand(c, Apply(c.head, cfg, step.ord, step.now, step.event).sent);
    LinesStand(c, AfterJoin(c, cfg, step));
  }

  /** Moves that touch no host's line and no frame. */
  lemma QuietInLine(c: Cluster, c': Cluster, g: AgentId)
    requires LinesGood(c) && c'.head == c.head && g in c.sides && g in c'.sides
    requires c'.sides == c.sides[g := c'.sides[g]] && c'.sides[g].read == c.sides[g].read
    requires forall a :: a in c'.sides[g].hosts ==>
               a in c.sides[g].hosts && Line(c'.sides[g].hosts[a]) == Line(c.sides[g].hosts[a]) &&
               c'.sides[g].hosts[a].early == c.sides[g].hosts[a].early
    ensures LinesGood(c')
  {
    LinesStand(c, c');
  }

  lemma BreakInLine(c: Cluster, a: ActorId)
    requires LinesGood(c)
    ensures LinesGood(c.(broken := c.broken + {a}))
  {
    LinesStand(c, c.(broken := c.broken + {a}));
  }

  lemma MoveInLine(c: Cluster, cfg: Config, m: Move)
    requires Good(c) && LinesGood(c) && Enabled(c, m)
    ensures LinesGood(Next(c, cfg, m))
  {
    hide Good, LinesGood, HeadMoves, Joining, AfterHead, AfterJoin, TakeFrame, AfterConnect;
    match m
    case HeadMove(step) => HeadInLine(c, cfg, step);
    case Join(step) => JoinInLine(c, cfg, step);
    case Take(g, i, written) => TakeInLine(c, g, i, written);
    case Connect(g, a, through) => ConnectInLine(c, g, a, through);
    case Break(g, a) => BreakInLine(c, a);
    case Finish(g, a, r) => QuietInLine(c, FinishCall(c, g, a, r), g);
    case Resend(g, r) => QuietInLine(c, AfterResend(c, g, r), g);
    case Leave(g, a) => QuietInLine(c, AfterLeave(c, g, a), g);
    case Cut(g) => QuietInLine(c, AfterCut(c, g), g);
  }

  lemma {:induction false} EveryRunInLine(cfg: Config, cs: seq<Cluster>, ms: seq<Move>, k: nat)
    requires IsRun(cfg, cs, ms) && k <= |ms|
    ensures LinesGood(cs[k])
    decreases k
  {
    hide Good, Enabled, Next, Begins, LinesGood;
    if k == 0 {
      BeginsInLine(cs[0]);
    } else {
      EveryRunInLine(cfg, cs, ms, k - 1);
      EveryRunGood(cfg, cs, ms, k - 1);
      MoveInLine(cs[k - 1], cfg, ms[k - 1]);
    }
  }

  /** At every point of every run, two calls an actor's host was given in this
      head's time were accepted by the head in that order, whatever links were
      lost, however long the host took to connect, and whichever writes failed. */
  lemma HostServedInOrder(cfg: Config, cs: seq<Cluster>, ms: seq<Move>, k: nat, g: AgentId, a: ActorId, i: nat, j: nat)
    requires IsRun(cfg, cs, ms) && k <= |ms| && HostsActor(cs[k], g, a)
    requires var h := cs[k].sides[g].hosts[a];
             i < j < |h.given| && h.given[i].ref !in h.early && h.given[j].ref !in h.early
    ensures var h := cs[k].sides[g].hosts[a]; AcceptedBefore(cs[k].head, h.given[i].ref, h.given[j].ref)
  {
    var c := cs[k];
    hide IsRun;
    EveryRunGood(cfg, cs, ms, k);
    EveryRunInLine(cfg, cs, ms, k);
    GivenInOrder(c, g, a, i, j);
  }

  lemma GivenInOrder(c: Cluster, g: AgentId, a: ActorId, i: nat, j: nat)
    requires Good(c) && LinesGood(c) && HostsActor(c, g, a)
    requires var h := c.sides[g].hosts[a];
             i < j < |h.given| && h.given[i].ref !in h.early && h.given[j].ref !in h.early
    ensures var h := c.sides[g].hosts[a]; AcceptedBefore(c.head, h.given[i].ref, h.given[j].ref)
  {
    var h := c.sides[g].hosts[a];
    assert LineGood(c, g, a) && Handing(c.head);
    hide Good, LinesGood;
    var x, y := h.given[i], h.given[j];
    assert Line(h)[i] == x && Line(h)[j] == y;
    var p :| 0 <= p < |c.head.sent| && p < c.sides[g].read && c.head.sent[p].msg == Dispatch(a, x);
    var q :| 0 <= q < |c.head.sent| && q < c.sides[g].read && c.head.sent[q].msg == Dispatch(a, y);
    assert Hands(c.head.sent[p], a) && Hands(c.head.sent[q], a);
    assert HandedInOrder(c.head.sent);
    assert p < q;
    OrderOfHanding(c.head, p, q);
  }
}
