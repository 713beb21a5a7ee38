/** The head daemon itself: one object holding the tables, changed in place by
    each message and timer, step by step as the code does it. */
module Daemon {
  import opened Basics
  import opened Topology
  import opened Chains
  import opened Solver
  import opened Claims
  import opened Tables
  import opened Placement
  import opened Placing
  import opened Head
  import opened Safety
  import opened Rows
  import opened Runs

  /** What the daemon's threads share. Each method is one hold of its lock, or
      several with nothing in between. `ord` is the order hash maps are walked in,
      which may differ from call to call. */
  class Shared {
    var st: State
    const cfg: Config

    constructor (cfg: Config, now: nat)
      ensures st == Fresh(now) && this.cfg == cfg
    {
      st := Fresh(now);
      this.cfg := cfg;
    }

    // ---------------------------------------------------------- placement

    /** `try_place`. */
    method PlacePending(ord: Order)
      requires IsOrder(ord)
      modifies this
      ensures st == TryPlace(old(st), cfg, ord)
    {
      var ids := ord(st.pgs.Keys);
      assert ids[0..] == ids;
      for k := 0 to |ids|
        invariant PlaceAll(old(st), cfg, ids) == PlaceAll(st, cfg, ids[k..])
      {
        assert ids[k..][1..] == ids[k + 1..];
        if ids[k] in st.pgs && st.pgs[ids[k]].state == Pending {
          var bs := FindPlace(st, ord, cfg, st.pgs[ids[k]]);
          if bs.Some? {
            st := st.(pgs := st.pgs[ids[k] := st.pgs[ids[k]].(assignment := Somes(bs.value), state := Created)]);
          }
        }
      }
    }

    // --------------------------------------------------------------- death

    /** The death of an actor fanned out to its pending calls. */
    method FailCallsOf(a: ActorId)
      modifies this
      ensures st == old(st).(refs := FanOut(old(st).refs, a))
    {
      var was := st.refs;
      var rest := was.Keys;
      while rest != {}
        invariant rest <= was.Keys && st == old(st).(refs := st.refs) && st.refs.Keys == was.Keys
        invariant forall r :: r in was ==> st.refs[r] == if r in rest then was[r] else FanOut(was, a)[r]
        decreases |rest|
      {
        var r :| r in rest;
        rest := rest - {r};
        if st.refs[r].actor == a && st.refs[r].state == Waiting {
          st := st.(refs := st.refs[r := st.refs[r].(state := ActorDied)]);
        }
      }
      assert st.refs == FanOut(was, a);
    }

    /** `mark_actor_dead`. */
    method MarkActorDead(ord: Order, now: nat, a: ActorId)
      requires IsOrder(ord)
      modifies this
      ensures st == MarkDead(old(st), cfg, ord, now, a)
    {
      if a in st.actors {
        if !Live(st.actors[a]) { return; }
        st := st.(actors := st.actors[a := st.actors[a].(state := Dead(now), queued := [])]);
      }
      FailCallsOf(a);
      PlacePending(ord);
    }

    method MarkActorsDead(ord: Order, now: nat, ids: seq<ActorId>)
      requires IsOrder(ord)
      modifies this
      ensures st == MarkAll(old(st), cfg, ord, now, ids)
    {
      for k := 0 to |ids|
        invariant st == MarkAll(old(st), cfg, ord, now, ids[..k])
      {
        assert ids[..k + 1][..k] == ids[..k];
        MarkActorDead(ord, now, ids[k]);
      }
      assert ids[..|ids|] == ids;
    }

    /** `kill_actor`. */
    method KillOne(ord: Order, now: nat, a: ActorId, delivered: bool)
      requires IsOrder(ord)
      modifies this
      ensures st == KillActor(old(st), cfg, ord, now, a, delivered)
    {
      if a !in st.actors || !Live(st.actors[a]) { return; }
      if AgentUp(st, st.actors[a].agent) {
        if delivered { st := Write(st, st.actors[a].agent, Kill(a)); }
      } else {
        MarkActorDead(ord, now, a);
      }
    }

    method KillActors(ord: Order, now: nat, ids: seq<ActorId>, reached: set<ActorId>)
      requires IsOrder(ord)
      modifies this
      ensures st == KillAll(old(st), cfg, ord, now, ids, reached)
    {
      for k := 0 to |ids|
        invariant st == KillAll(old(st), cfg, ord, now, ids[..k], reached)
      {
        assert ids[..k + 1][..k] == ids[..k];
        KillOne(ord, now, ids[k], ids[k] in reached);
      }
      assert ids[..|ids|] == ids;
    }

    // ------------------------------------------- groups, actors and calls

    method CreateGroup(ord: Order, now: nat, client: ClientId, pg: PgId, bundles: seq<nat>, claim: Option<Name>)
      requires IsOrder(ord)
      modifies this
      ensures st == CreatePg(old(st), cfg, ord, now, client, pg, bundles, claim)
    {
      st := st.(pgs := st.pgs[pg := Pg(ClientGroup(st, client), client, bundles, claim, NoBundles(|bundles|), Pending, now, None)]);
      PlacePending(ord);
    }

    method RemoveGroup(ord: Order, now: nat, pg: PgId)
      requires IsOrder(ord)
      modifies this
      ensures st == RemovePg(old(st), cfg, ord, now, pg)
    {
      if pg in st.pgs {
        st := st.(pgs := st.pgs[pg := st.pgs[pg].(state := Removed, removedMs := Some(now))]);
      }
      PlacePending(ord);
    }

    /** Whether a live actor of the group bears the name. */
    method NameInUse(ord: Order, group: Group, name: Name) returns (b: bool)
      requires IsOrder(ord)
      ensures b == NameTaken(st, group, name)
    {
      var ids := ord(st.actors.Keys);
      for k := 0 to |ids|
        invariant forall j :: 0 <= j < k ==>
                    !(st.actors[ids[j]].group == group && st.actors[ids[j]].name == name && Live(st.actors[ids[j]]))
      {
        var a := st.actors[ids[k]];
        if a.group == group && a.name == name && Live(a) { return true; }
      }
      forall a | a in st.actors ensures !(st.actors[a].group == group && st.actors[a].name == name && Live(st.actors[a])) {
        var j :| 0 <= j < |ids| && ids[j] == a;
      }
      return false;
    }

    /** `create_actor`: the checks in the code's order, then the row, then the
        frame, undone by a death if it does not go out. */
    method MakeActor(ord: Order, now: nat, client: ClientId, a: ActorId, name: Name, numGpus: nat, pg: PgId, index: nat,
                     delivered: bool) returns (ok: bool)
      requires IsOrder(ord)
      modifies this
      ensures st == CreateActor(old(st), cfg, ord, now, client, a, name, numGpus, pg, index, delivered)
      ensures ok == (delivered && Creatable(old(st), ClientGroup(old(st), client), name, numGpus, pg, index))
    {
      var group := ClientGroup(st, client);
      var dup := NameInUse(ord, group, name);
      if dup { return false; }
      if pg !in st.pgs { return false; }
      if st.pgs[pg].state != Created { return false; }
      if index >= |st.pgs[pg].assignment| || st.pgs[pg].assignment[index].None? { return false; }
      var b := st.pgs[pg].assignment[index].value;
      if numGpus > |b.gpuIds| { return false; }
      if !AgentUp(st, b.agent) { return false; }
      st := st.(actors := st.actors[a := Actor(name, group, b.agent, b.node, b.gpuIds, client, Spawning, [], Some(pg))]);
      if !delivered {
        MarkActorDead(ord, now, a);
        return false;
      }
      st := Write(st, b.agent, Spawn(a, name, client, b.gpuIds));
      return true;
    }

    /** A call, as the message handler takes it. */
    method TakeCall(client: ClientId, a: ActorId, body: nat, delivered: bool) returns (r: Option<RefId>)
      modifies this
      ensures st == MakeCall(old(st), client, a, body, delivered)
      ensures r == if a in old(st).actors then Some(RefId(a, old(st).nextRef)) else None
    {
      var rid := RefId(a, st.nextRef);
      st := st.(nextRef := st.nextRef + 1);
      if a !in st.actors {
        assert FateOf(old(st), a, delivered) == NoActor;
        return None;
      }
      if !Live(st.actors[a]) {
        st := st.(refs := st.refs[rid := Ref(ActorDied, a, client)]);
        assert FateOf(old(st), a, delivered) == TooLate;
        return Some(rid);
      }
      var agent := st.actors[a].agent;
      if agent !in st.agents {
        st := st.(refs := st.refs[rid := Ref(ActorDied, a, client)]);
        assert FateOf(old(st), a, delivered) == TooLate;
      } else if !st.agents[agent].alive {
        st := st.(refs := st.refs[rid := Ref(Waiting, a, client)], accepted := st.accepted + [rid]);
        st := st.(actors := st.actors[a := Enqueued(st.actors[a], Call(rid, body))]);
        assert FateOf(old(st), a, delivered) == Hold;
      } else {
        st := st.(refs := st.refs[rid := Ref(Waiting, a, client)], accepted := st.accepted + [rid]);
        if delivered {
          st := Write(st, agent, Dispatch(a, Call(rid, body)));
          assert FateOf(old(st), a, delivered) == Goes;
        } else {
          st := st.(actors := st.actors[a := Enqueued(st.actors[a], Call(rid, body))],
                    failed := st.failed + {st.agents[agent].seqNo});
          assert FateOf(old(st), a, delivered) == SendFails;
        }
      }
      return Some(rid);
    }

    // ------------------------------------------------- claims and sessions

    /** `claim`. The tables say whether the answer is a repeat or new. */
    method TakeHold(client: ClientId, name: Name, shape: Option<Request>, net: Net) returns (r: Result<Solution>)
      requires IslandsDistinct(net)
      modifies this
      ensures st == TakeClaim(old(st), client, name, shape, net)
      ensures r.Ok? ==> (ClientGroup(st, client), name) in st.claims && r.value == st.claims[(ClientGroup(st, client), name)].view
    {
      var key := (ClientGroup(st, client), name);
      if key in st.claims {
        if shape != Some(st.claims[key].req) { return Err; }
        var c := st.claims[key];
        st := st.(claims := st.claims[key := c.(holders := c.holders + {client})]);
        return Ok(c.view);
      }
      if shape.None? { return Err; }
      var sol := SolveClaim(net, shape.value);
      if sol.Err? { return Err; }
      st := st.(claimGeneration := st.claimGeneration + 1);
      st := st.(claims := st.claims[key := Claim(shape.value, sol.value, st.claimGeneration, {client})]);
      return sol;
    }

    /** `release_all`: each claim let go of in turn. */
    method ReleaseAll(client: ClientId)
      modifies this
      ensures st == old(st).(claims := Released(old(st).claims, client))
    {
      var was := st.claims;
      var claims, rest := was, was.Keys;
      while rest != {}
        invariant rest <= was.Keys && claims.Keys <= was.Keys
        invariant forall k :: k in rest ==> k in claims && claims[k] == was[k]
        invariant forall k :: k in was && k !in rest ==> (k in claims <==> was[k].holders - {client} != {})
        invariant forall k :: k in claims && k !in rest ==> claims[k] == was[k].(holders := was[k].holders - {client})
        decreases |rest|
      {
        var k :| k in rest;
        rest := rest - {k};
        var c := claims[k];
        if c.holders - {client} == {} {
          claims := claims - {k};
        } else {
          claims := claims[k := c.(holders := c.holders - {client})];
        }
      }
      assert claims == Released(was, client);
      st := st.(claims := claims);
    }

    /** The driver check and the row of a hello, then the orphans. */
    method TakeHello(ord: Order, now: nat, client: ClientId, group: Group, node: NodeId, session: bool, reached: set<ActorId>)
      returns (ok: bool)
      requires IsOrder(ord)
      modifies this
      ensures st == Greet(old(st), cfg, ord, now, client, group, node, session, reached)
      ensures ok <==> !(session && Driven(old(st), group, client))
    {
      if session && Driven(st, group, client) { return false; }
      var orphans := if session then ord(Orphans(st, group, client)) else [];
      if client !in st.clients {
        st := st.(clients := st.clients[client := Client(group, node, false)]);
      }
      st := st.(clients := st.clients[client := st.clients[client].(group := group)]);
      if session {
        st := st.(clients := st.clients[client := st.clients[client].(hasSession := true)]);
        ghost var s := old(st).(clients := old(st).clients[client := HelloRow(old(st), client, group, node, session)]);
        assert st == s;
        KillActors(ord, now, orphans, reached);
      } else {
        ghost var s := old(st).(clients := old(st).clients[client := HelloRow(old(st), client, group, node, session)]);
        assert st == s;
      }
      return true;
    }

    method RemoveGroupsOf(client: ClientId, now: nat)
      modifies this
      ensures st == old(st).(pgs := PgsRemoved(old(st).pgs, client, now))
    {
      var was := st.pgs;
      var pgs, rest := was, was.Keys;
      while rest != {}
        invariant rest <= was.Keys && pgs.Keys == was.Keys
        invariant forall p :: p in rest ==> pgs[p] == was[p]
        invariant forall p :: p in was && p !in rest ==> pgs[p] == ReapedRow(was[p], client, now)
        decreases |rest|
      {
        var p :| p in rest;
        rest := rest - {p};
        if pgs[p].owner == client && pgs[p].state != Removed {
          pgs := pgs[p := pgs[p].(state := Removed, removedMs := Some(now))];
        }
      }
      assert pgs == PgsRemoved(was, client, now);
      st := st.(pgs := pgs);
    }

    /** `reap_client_resources`. */
    method ReapResources(ord: Order, now: nat, client: ClientId, token: Option<nat>, reached: set<ActorId>)
      requires IsOrder(ord)
      modifies this
      ensures st == Reap(old(st), cfg, ord, now, client, token, reached)
    {
      if token.Some? && !(client in st.reapPending && st.reapPending[client] == token.value) { return; }
      st := st.(reapPending := st.reapPending - {client});
      if HasSession(st, client) { return; }
      ReleaseAll(client);
      var ids := ord(OwnedBy(st, client));
      RemoveGroupsOf(client, now);
      assert OwnedBy(st, client) == OwnedBy(old(st), client) && st == ReapStart(old(st), client, now);
      KillActors(ord, now, ids, reached);
      st := st.(refs := RefsOfOthers(st.refs, client));
      PlacePending(ord);
    }

    /** `reap_client`, with the grace timer left to fire as its own step. */
    method ReapClient(ord: Order, now: nat, client: ClientId, reached: set<ActorId>) returns (token: Option<nat>)
      requires IsOrder(ord)
      modifies this
      ensures st == CloseSession(old(st), cfg, ord, now, client, reached)
      ensures token == if cfg.graceMs == 0 then None else Some(old(st).nextReap)
    {
      st := st.(clients := st.clients - {client});
      if cfg.graceMs == 0 {
        ReapResources(ord, now, client, None, reached);
        return None;
      }
      token := Some(st.nextReap);
      st := st.(nextReap := st.nextReap + 1);
      st := st.(reapPending := st.reapPending[client := token.value]);
    }

    method CloseOther(client: ClientId)
      modifies this
      ensures st == CloseConn(old(st), client)
    {
      if client in st.clients && !st.clients[client].hasSession {
        st := st.(clients := st.clients - {client});
      }
    }

    // ------------------------------------------------------- registration

    /** The resumed actors: known ones refused or kept, unknown ones taken on. */
    method SortResumed(agent: AgentId, group: Group, node: NodeId, resume: seq<Resumed>) returns (kills: seq<HeadMsg>)
      modifies this
      ensures kills == Kills(old(st), resume)
      ensures st == old(st).(actors := Adopt(old(st).actors, resume, group, agent, node))
    {
      kills := [];
      var adopted := st.actors;
      for k := 0 to |resume|
        invariant st == old(st)
        invariant kills == Kills(st, resume[..k])
        invariant adopted == Adopt(st.actors, resume[..k], group, agent, node)
      {
        assert resume[..k + 1][..k] == resume[..k];
        var r := resume[k];
        if r.actor in st.actors {
          if st.actors[r.actor].owner !in st.clients || !Live(st.actors[r.actor]) {
            kills := kills + [Kill(r.actor)];
          }
        } else {
          adopted := adopted[r.actor := AdoptedRow(r, group, agent, node)];
        }
      }
      assert resume[..|resume|] == resume;
      st := st.(actors := adopted);
    }

    method AdoptCalls(agent: AgentId, rs: seq<RefId>)
      modifies this
      ensures st == AdoptRefs(old(st), agent, rs)
    {
      for k := 0 to |rs|
        invariant st == AdoptRefs(old(st), agent, rs[..k])
      {
        assert rs[..k + 1][..k] == rs[..k];
        var r := rs[k];
        if r !in st.refs && r.actor in st.actors && st.actors[r.actor].agent == agent {
          var owner := st.actors[r.actor].owner;
          st := st.(nextRef := if r.n < st.nextRef then st.nextRef else r.n + 1,
                    refs := st.refs[r := Ref(Waiting, r.actor, owner)]);
        }
      }
      assert rs[..|rs|] == rs;
    }

    /** Pending calls that neither side holds any more. */
    method FailLostCalls(agent: AgentId, known: seq<RefId>)
      modifies this
      ensures st == FailLost(old(st), agent, known)
    {
      var was := st;
      var rest := was.refs.Keys;
      while rest != {}
        invariant rest <= was.refs.Keys && st == was.(refs := st.refs) && st.refs.Keys == was.refs.Keys
        invariant forall r :: r in was.refs ==>
                    st.refs[r] == if r in rest then was.refs[r] else FailLost(was, agent, known).refs[r]
        decreases |rest|
      {
        var r :| r in rest;
        rest := rest - {r};
        if Lost(was, agent, known, r) {
          st := st.(refs := st.refs[r := st.refs[r].(state := ActorDied)]);
        }
      }
      assert st.refs == FailLost(was, agent, known).refs;
    }

    /** Held calls taken out of their queues, in order. */
    method TakeQueues(agent: AgentId, ids: seq<ActorId>) returns (frames: seq<HeadMsg>)
      requires NoDup(ids) && forall a :: a in ids <==> a in DrainIds(st, agent)
      modifies this
      ensures frames == Drains(old(st), ids)
      ensures st == old(st).(actors := Emptied(old(st), agent))
    {
      frames := [];
      var was := st;
      for k := 0 to |ids|
        invariant frames == Drains(was, ids[..k])
        invariant st == was.(actors := st.actors) && st.actors.Keys == was.actors.Keys
        invariant forall a :: a in was.actors ==>
                    st.actors[a] == if a in ids[..k] then was.actors[a].(queued := []) else was.actors[a]
      {
        var a := ids[k];
        assert a in ids;
        assert ids[..k + 1] == ids[..k] + [a] && ids[..k + 1][..k] == ids[..k];
        assert a !in ids[..k];
        frames := frames + DispatchesOf(a, st.actors[a].queued);
        st := st.(actors := st.actors[a := st.actors[a].(queued := [])]);
      }
      assert ids[..|ids|] == ids;
      assert st.actors == Emptied(was, agent);
    }

    /** Frames written to a new connection until one fails. */
    method WriteAll(agent: AgentId, conn: nat, frames: seq<HeadMsg>, through: nat)
      modifies this
      ensures var k := if through < |frames| then through else |frames|;
              st == old(st).(sent := old(st).sent + OnConn(agent, conn, frames[..k]),
                             failed := if k < |frames| then old(st).failed + {conn} else old(st).failed)
    {
      for i := 0 to |frames|
        invariant var k := if through < i then through else i;
                  st == old(st).(sent := old(st).sent + OnConn(agent, conn, frames[..k]),
                                 failed := if k < i then old(st).failed + {conn} else old(st).failed)
      {
        if i < through {
          assert OnConn(agent, conn, frames[..i]) + [Sent(agent, conn, frames[i])] == OnConn(agent, conn, frames[..i + 1]);
          st := st.(sent := st.sent + [Sent(agent, conn, frames[i])]);
        } else {
          st := st.(failed := st.failed + {conn});
        }
      }
    }

    /** An agent registers: its row, its actors, its calls, what it lost, then the
        kills and held calls over the new connection. */
    method RegisterAgent(ord: Order, now: nat, agent: AgentId, group: Group, node: NodeId, gpus: seq<nat>,
                         resume: seq<Resumed>, unacked: seq<RefId>, through: nat)
      requires IsOrder(ord)
      modifies this
      ensures st == Registered(old(st), cfg, ord, now, agent, group, node, gpus, resume, unacked, through)
    {
      hide MarkAll, TryPlace, Drains, Adopt, AdoptRefs, IsOrder, Lost, Missing, Emptied, Reported, Kills, DrainIds, FailLost, NoDup;
      var conn := st.nextSeq;
      st := st.(agents := st.agents[agent := Agent(group, node, gpus, true, None, None, conn)], nextSeq := conn + 1);
      SameKills(old(st), st, resume);
      var kills := SortResumed(agent, group, node, resume);
      AdoptCalls(agent, Reported(resume, unacked));
      MarkActorsDead(ord, now, ord(Missing(st, agent, resume)));
      FailLostCalls(agent, Reported(resume, unacked));
      ghost var settled := st;
      var ids := ord(DrainIds(st, agent));
      OrderGives(ord, DrainIds(st, agent));
      var calls := TakeQueues(agent, ids);
      WriteAll(agent, conn, kills + calls, through);
      assert st == Flush(settled, ord, agent, conn, kills, through);
      PlacePending(ord);
    }

    /** The end of an agent's connection. */
    method LinkEnded(now: nat, agent: AgentId, conn: nat)
      modifies this
      ensures st == LoseLink(old(st), now, agent, conn)
    {
      if agent in st.agents && st.agents[agent].seqNo == conn {
        st := st.(agents := st.agents[agent := st.agents[agent].(alive := false, lostAt := Some(now), goneSince := Some(now))]);
      }
    }

    method SpawnReported(ord: Order, now: nat, a: ActorId, ok: bool)
      requires IsOrder(ord)
      modifies this
      ensures st == if ok then Spawned(old(st), a) else MarkDead(old(st), cfg, ord, now, a)
    {
      if !ok {
        MarkActorDead(ord, now, a);
      } else if a in st.actors && st.actors[a].state == Spawning {
        st := st.(actors := st.actors[a := st.actors[a].(state := Running)]);
      }
    }

    method ResultReported(r: RefId, ok: bool, payload: seq<nat>, error: bool)
      modifies this
      ensures st == Resolve(old(st), r, ok, payload, error)
    {
      if r in st.refs && st.refs[r].state == Waiting {
        var state := if !ok && payload == [] && error then ActorDied else Ready(ok, payload);
        st := st.(refs := st.refs[r := st.refs[r].(state := state)]);
      }
    }

    // -------------------------------------------------------------- sweeps

    method TimeOutGroups(now: nat)
      modifies this
      ensures st == old(st).(pgs := TimedOut(old(st).pgs, cfg, now))
    {
      var was := st.pgs;
      var pgs, rest := was, was.Keys;
      while rest != {}
        invariant rest <= was.Keys && pgs.Keys == was.Keys
        invariant forall p :: p in rest ==> pgs[p] == was[p]
        invariant forall p :: p in was && p !in rest ==> pgs[p] == TimedOutRow(was[p], cfg, now)
        decreases |rest|
      {
        var p :| p in rest;
        rest := rest - {p};
        if pgs[p].state == Pending && Since(now, pgs[p].createdMs) > cfg.pgTimeoutMs {
          pgs := pgs[p := pgs[p].(state := Removed, removedMs := Some(now))];
        }
      }
      assert pgs == TimedOut(was, cfg, now);
      st := st.(pgs := pgs);
    }

    /** The agents away too long, their loss forgotten so that this happens once. */
    method CollectGivenUp(now: nat) returns (given: set<AgentId>)
      modifies this
      ensures given == GivenUp(old(st), cfg, now) && st == Forget(old(st), cfg, now)
    {
      given := {};
      var was := st;
      var rest := was.agents.Keys;
      while rest != {}
        invariant rest <= was.agents.Keys && st == was.(agents := st.agents) && st.agents.Keys == was.agents.Keys
        invariant forall g :: g in was.agents ==>
                    st.agents[g] == if g in rest then was.agents[g] else Forget(was, cfg, now).agents[g]
        invariant forall g :: g in given <==> g in was.agents && g !in rest && GivesUp(was, cfg, now, g)
        decreases |rest|
      {
        var g :| g in rest;
        rest := rest - {g};
        var a := st.agents[g];
        if a.lostAt.Some? && Since(now, a.lostAt.value) >= cfg.deadAfterMs {
          st := st.(agents := st.agents[g := a.(lostAt := None)]);
          given := given + {g};
        }
      }
      assert st.agents == Forget(was, cfg, now).agents;
    }

    method GiveUpOn(ord: Order, now: nat, agents: seq<AgentId>)
      requires IsOrder(ord)
      modifies this
      ensures st == GiveUpAll(old(st), cfg, ord, now, agents)
    {
      for k := 0 to |agents|
        invariant st == GiveUpAll(old(st), cfg, ord, now, agents[..k])
      {
        assert agents[..k + 1][..k] == agents[..k];
        MarkActorsDead(ord, now, ord(HostedBy(st, agents[k])));
      }
      assert agents[..|agents|] == agents;
    }

    /** `sweep_history`. */
    method DropHistory(now: nat)
      modifies this
      ensures st == SweepHistory(old(st), cfg, now)
    {
      var actors := set a | a in st.actors && OldActor(st, cfg, now, a);
      var pgs := set p | p in st.pgs && OldPg(st, cfg, now, p);
      var agents := set g | g in st.agents && OldAgent(st, cfg, now, g);
      NothingOld(st, cfg, now, actors, pgs, agents);
      if actors == {} && pgs == {} && agents == {} { return; }
      ghost var was := st;
      st := st.(actors := st.actors - actors);
      st := st.(pgs := st.pgs - pgs);
      st := st.(agents := st.agents - agents);
      st := st.(refs := map r | r in st.refs && st.refs[r].actor in st.actors :: st.refs[r]);
      assert st.actors == (map a | a in was.actors && !OldActor(was, cfg, now, a) :: was.actors[a]);
      assert st.pgs == (map p | p in was.pgs && !OldPg(was, cfg, now, p) :: was.pgs[p]);
      assert st.agents == (map g | g in was.agents && !OldAgent(was, cfg, now, g) :: was.agents[g]);
    }

    /** One tick of the lifecycle sweeper. */
    method Tick(ord: Order, now: nat)
      requires IsOrder(ord)
      modifies this
      ensures st == SweepAll(old(st), cfg, ord, now)
    {
      TimeOutGroups(now);
      var given := CollectGivenUp(now);
      GiveUpOn(ord, now, ord(given));
      DropHistory(now);
    }

    // ------------------------------------------------------ any message

    /** One message or timer. What every run keeps, this keeps. */
    method Handle(ord: Order, now: nat, e: Event)
      requires IsOrder(ord) && (e.ClaimName? ==> IslandsDistinct(e.net))
      modifies this
      ensures st == Apply(old(st), cfg, ord, now, e)
      ensures HeadInvariant(old(st), cfg) && Sane(old(st), e) ==> HeadInvariant(st, cfg) && Onward(old(st), st)
      ensures HeadInvariant(old(st), cfg) && Sane(old(st), e) && Allocated(old(st)) && Undisputed(old(st), e) ==> Allocated(st)
    {
      hide IsOrder, CreatePg, RemovePg, CreateActor, KillActor, Greet, CloseSession, Reap, Registered, MarkDead, SweepAll,
           MakeCall, TakeClaim, CloseConn, LoseLink, Spawned, Resolve, HeadInvariant, Onward, Sane, Allocated, Undisputed,
           Creatable, Driven;
      match e {
        case PgCreate(client, pg, bundles, claim) => CreateGroup(ord, now, client, pg, bundles, claim);
        case PgRemove(pg) => RemoveGroup(ord, now, pg);
        case ActorCreate(client, a, name, n, pg, i, ok) => var _ := MakeActor(ord, now, client, a, name, n, pg, i, ok);
        case ActorCall(client, a, body, ok) => var _ := TakeCall(client, a, body, ok);
        case ActorKill(a, ok) => KillOne(ord, now, a, ok);
        case ClaimName(client, name, shape, net) => var _ := TakeHold(client, name, shape, net);
        case Hello(client, group, node, session, reached) => var _ := TakeHello(ord, now, client, group, node, session, reached);
        case SessionClosed(client, reached) => var _ := ReapClient(ord, now, client, reached);
        case ConnClosed(client) => CloseOther(client);
        case ReapTimer(client, token, reached) => ReapResources(ord, now, client, Some(token), reached);
        case Register(agent, group, node, gpus, resume, unacked, through) =>
          RegisterAgent(ord, now, agent, group, node, gpus, resume, unacked, through);
        case LinkLost(agent, conn) => LinkEnded(now, agent, conn);
        case SpawnResult(a, ok) => SpawnReported(ord, now, a, ok);
        case ActorResult(r, ok, payload, error) => ResultReported(r, ok, payload, error);
        case ActorExit(a) => MarkActorDead(ord, now, a);
        case Sweep => Tick(ord, now);
        case FabricsDerived(islands, tagged) => st := st.(islands := islands, tagged := tagged);
      }
      assert st == Apply(old(st), cfg, ord, now, e);
      hide Apply;
      if HeadInvariant(old(st), cfg) && Sane(old(st), e) {
        StepHolds(old(st), cfg, Step(now, ord, e));
      }
    }

    // ----------------------------------------------------------- refs

    /** One pass of `ref_get`: an answer, or None to go on waiting. */
    method GetPass(now: nat, h: Handle) returns (r: Option<Res>)
      ensures r.None? <==> GetNow(st, cfg, now, h) == Pends
      ensures r.Some? ==> r.value == GetNow(st, cfg, now, h)
    {
      var res := ResolveRef(st, h);
      if res == Unknown && InWindow(st, cfg, now) { return None; }
      if res == Pends { return None; }
      return Some(res);
    }

    /** One pass of `ref_wait`: the finished handles in the caller's order, at most
        as many as asked for, once there are enough or the time is up. */
    method WaitPass(now: nat, hs: seq<Handle>, numReturns: nat, timedOut: bool) returns (r: Option<seq<Handle>>)
      ensures var ready := ReadyOf(st, cfg, now, hs); var want := if numReturns < |hs| then numReturns else |hs|;
              r == if |ready| >= want then Some(if numReturns < |ready| then ready[..numReturns] else ready)
                   else if timedOut then Some(ready) else None
    {
      var ready := [];
      for k := 0 to |hs|
        invariant ready == ReadyOf(st, cfg, now, hs[..k])
      {
        assert hs[..k + 1][..k] == hs[..k];
        if WaitCounts(st, cfg, now, hs[k]) { ready := ready + [hs[k]]; }
      }
      assert hs[..|hs|] == hs;
      var want := if numReturns < |hs| then numReturns else |hs|;
      if |ready| >= want { return Some(if numReturns < |ready| then ready[..numReturns] else ready); }
      return if timedOut then Some(ready) else None;
    }
  }

  lemma OrderGives(ord: Order, s: set<nat>)
    requires IsOrder(ord)
    ensures NoDup(ord(s)) && forall x :: x in ord(s) <==> x in s
  {
  }

  lemma {:induction false} SameKills(st: State, s: State, resume: seq<Resumed>)
    requires s.actors == st.actors && s.clients == st.clients
    ensures Kills(s, resume) == Kills(st, resume)
    decreases |resume|
  {
    if resume != [] { SameKills(st, s, resume[..|resume| - 1]); }
  }

  lemma NothingOld(st: State, cfg: Config, now: nat, actors: set<ActorId>, pgs: set<PgId>, agents: set<AgentId>)
    requires actors == (set a | a in st.actors && OldActor(st, cfg, now, a))
    requires pgs == (set p | p in st.pgs && OldPg(st, cfg, now, p))
    requires agents == (set g | g in st.agents && OldAgent(st, cfg, now, g))
    ensures AnythingOld(st, cfg, now) <==> !(actors == {} && pgs == {} && agents == {})
  {
    if AnythingOld(st, cfg, now) {
      if a :| a in st.actors && OldActor(st, cfg, now, a) {
        assert a in actors;
      } else if p :| p in st.pgs && OldPg(st, cfg, now, p) {
        assert p in pgs;
      } else {
        var g :| g in st.agents && OldAgent(st, cfg, now, g);
        assert g in agents;
      }
    }
  }
}
