/** The agent's end of a link as it runs: the report it registers with, the
    frames it takes, and the results it sends or keeps. */
module AgentSide {
  import opened Basics
  import opened Tables
  import opened Head
  import opened Joins
  import opened Cluster

  class AgentShared {
    var side: Side

    constructor (side: Side)
      ensures this.side == side
    {
      this.side := side;
    }

    /** A set of calls as a list, in any order. */
    static method Listed(refs: set<RefId>) returns (s: seq<RefId>)
      ensures SetOf(s) == refs
    {
      s := [];
      var rest := refs;
      while rest != {}
        invariant rest <= refs && SetOf(s) == refs - rest
        decreases |rest|
      {
        var r :| r in rest;
        rest := rest - {r};
        s := s + [r];
        assert SetOf(s) == refs - rest;
      }
    }

    /** What `serve_once` reports: every actor with all its calls, and every result
        still unsent. */
    method Report() returns (resume: seq<Resumed>, unacked: seq<RefId>)
      ensures ResumeOf(side, resume) && SetOf(unacked) == side.unsent
    {
      resume := [];
      var rest := side.hosts.Keys;
      while rest != {}
        invariant rest <= side.hosts.Keys
        invariant forall k :: 0 <= k < |resume| ==> ReportedRight(side, resume[k])
        invariant forall a :: a in side.hosts && a !in rest ==> Resumes(resume, a)
        decreases |rest|
      {
        var a :| a in rest;
        rest := rest - {a};
        var h := side.hosts[a];
        var pending := Listed(h.running + h.stuck);
        ghost var was := resume;
        resume := resume + [Resumed(a, h.name, h.gpuIds, h.owner, pending)];
        StillResumed(was, resume[|was|]);
      }
      unacked := Listed(side.unsent);
    }

    /** A frame read from the head. A call joins its actor's pending ones first,
        then goes to the host or waits for it. The calls answered with an error are
        given back. */
    method Take(msg: HeadMsg, written: bool) returns (bounced: set<RefId>)
      modifies this
      ensures side == TakeMsg(old(side), msg, written) && bounced == Bounced(old(side), msg, written)
    {
      bounced := {};
      match msg
      case Spawn(a, name, owner, gpuIds) =>
        side := side.(hosts := side.hosts[a := Host(name, owner, gpuIds, {}, {}, false, [], [], {})]);
      case Dispatch(a, call) =>
        if a !in side.hosts {
          bounced := {call.ref};
          return;
        }
        var h := side.hosts[a];
        if !h.connected {
          h := h.(running := h.running + {call.ref}, queued := h.queued + [call]);
        } else if written {
          h := h.(running := h.running + {call.ref}, given := h.given + [call]);
        } else {
          h := h.(stuck := h.stuck + {call.ref});
          bounced := {call.ref};
        }
        side := side.(hosts := side.hosts[a := h]);
      case Kill(_) =>
    }

    /** The host connects: published, and the queue drained to it in arrival order.
        A call that cannot be written is answered with an error, sent or kept while
        the link is down. */
    method Connected(a: ActorId, written: set<RefId>) returns (failed: set<RefId>)
      requires a in side.hosts
      modifies this
      ensures side == ConnectHost(old(side), a, written) && failed == Unwritten(old(side).hosts[a].queued, written)
    {
      var h := side.hosts[a];
      var queue := h.queued;
      var given := h.given;
      failed := {};
      for k := 0 to |queue|
        invariant given == h.given + Through(queue[..k], written)
        invariant forall r :: r in failed <==> exists j :: 0 <= j < k && queue[j].ref == r && r !in written
      {
        assert queue[..k + 1][..k] == queue[..k];
        if queue[k].ref in written {
          given := given + [queue[k]];
        } else {
          failed := failed + {queue[k].ref};
        }
      }
      assert queue[..|queue|] == queue;
      assert failed == Unwritten(queue, written);
      h := h.(connected := true, queued := [], given := given, running := h.running - failed, stuck := h.stuck + failed);
      side := side.(hosts := side.hosts[a := h]);
      if side.link.None? {
        side := side.(unsent := side.unsent + failed);
      }
    }

    /** A host's result: off the pending calls, and sent, or kept while the link
        is down. */
    method Finished(a: ActorId, r: RefId) returns (sent: bool)
      requires a in side.hosts
      modifies this
      ensures side == EndCall(old(side), a, r) && sent == old(side).link.Some?
    {
      var h := side.hosts[a];
      side := side.(hosts := side.hosts[a := h.(running := h.running - {r})]);
      sent := side.link.Some?;
      if !sent {
        side := side.(unsent := side.unsent + {r});
      }
    }
  }

  predicate ReportedRight(s: Side, r: Resumed) {
    r.actor in s.hosts && r.name == s.hosts[r.actor].name && r.owner == s.hosts[r.actor].owner &&
    r.gpuIds == s.hosts[r.actor].gpuIds && SetOf(r.pending) == s.hosts[r.actor].running + s.hosts[r.actor].stuck
  }

  lemma StillResumed(was: seq<Resumed>, r: Resumed)
    ensures Resumes(was + [r], r.actor) && forall a :: Resumes(was, a) ==> Resumes(was + [r], a)
  {
    assert (was + [r])[|was|].actor == r.actor;
    forall a | Resumes(was, a) ensures Resumes(was + [r], a) {
      var k :| 0 <= k < |was| && was[k].actor == a;
      assert (was + [r])[k].actor == a;
    }
  }
}
