/** What killing actors does to the tables, one kill or many: a relation between
    the tables before and after that the steps of the head are built from. */
module Deaths {
  import opened Basics
  import opened Tables
  import opened Placement
  import opened Head

  /** Groups only go from pending to created. */
  ghost predicate OnlyPlaced(pgs: map<PgId, Pg>, pgs': map<PgId, Pg>) {
    pgs'.Keys == pgs.Keys &&
    forall p :: p in pgs && pgs'[p] != pgs[p] ==>
      pgs[p].state == Pending && pgs'[p].state == Created && SamePg(pgs[p], pgs'[p])
  }

  /** Two rows of one group: nothing it was asked for with differs. */
  predicate SamePg(x: Pg, y: Pg) {
    x.group == y.group && x.owner == y.owner && x.bundles == y.bundles && x.claim == y.claim && x.createdMs == y.createdMs
  }

  /** Rows in `ids` may have died, and nothing else happened to any row. */
  ghost predicate RowsDied(actors: map<ActorId, Actor>, actors': map<ActorId, Actor>, ids: set<ActorId>, now: nat) {
    actors'.Keys == actors.Keys &&
    forall a :: a in actors && actors'[a] != actors[a] ==>
      a in ids && Live(actors[a]) && actors'[a] == DeadRow(actors[a], now)
  }

  /** Pending calls on actors in `ids` may have resolved as died. */
  ghost predicate CallsDied(refs: map<RefId, Ref>, refs': map<RefId, Ref>, ids: set<ActorId>) {
    refs'.Keys == refs.Keys &&
    forall r :: r in refs && refs'[r] != refs[r] ==>
      refs[r].state == Waiting && refs[r].actor in ids && refs'[r] == refs[r].(state := ActorDied)
  }

  /** Frames added are kills of actors in `ids`. */
  ghost predicate OnlyKills(sent: seq<Sent>, sent': seq<Sent>, ids: set<ActorId>) {
    |sent| <= |sent'| && sent'[..|sent|] == sent &&
    forall i :: |sent| <= i < |sent'| ==> sent'[i].msg.Kill? && sent'[i].msg.actor in ids
  }

  /** Of the pending calls exactly those die whose actor went from live to dead. */
  ghost predicate DiedWithActor(st: State, st': State) {
    forall r :: r in st.refs && r in st'.refs && st.refs[r].state == Waiting &&
                st.refs[r].actor in st.actors && st.refs[r].actor in st'.actors ==>
      (st'.refs[r].state == Waiting <==> Live(st.actors[st.refs[r].actor]) == Live(st'.actors[st.refs[r].actor]))
  }

  ghost predicate Died(st: State, st': State, ids: set<ActorId>, now: nat) {
    st' == st.(actors := st'.actors, refs := st'.refs, pgs := st'.pgs, sent := st'.sent) &&
    RowsDied(st.actors, st'.actors, ids, now) && CallsDied(st.refs, st'.refs, ids) && DiedWithActor(st, st') &&
    OnlyPlaced(st.pgs, st'.pgs) && OnlyKills(st.sent, st'.sent, ids)
  }

  lemma DiedTrans(s0: State, s1: State, s2: State, d: set<ActorId>, e: set<ActorId>, now: nat)
    requires Died(s0, s1, d, now) && Died(s1, s2, e, now)
    ensures Died(s0, s2, d + e, now)
  {
    assert s2.sent[..|s1.sent|][..|s0.sent|] == s2.sent[..|s0.sent|];
    forall i | |s0.sent| <= i < |s2.sent| ensures s2.sent[i].msg.Kill? && s2.sent[i].msg.actor in d + e {
      if i < |s1.sent| {
        assert s2.sent[i] == s2.sent[..|s1.sent|][i] == s1.sent[i];
      }
    }
  }

  lemma {:induction false} PlaceAllOnlyPlaces(st: State, cfg: Config, ids: seq<PgId>)
    ensures var st' := PlaceAll(st, cfg, ids); st' == st.(pgs := st'.pgs) && OnlyPlaced(st.pgs, st'.pgs)
    decreases |ids|
  {
    hide PlaceFor;
    if ids != [] {
      PlaceAllOnlyPlaces(PlaceOne(st, cfg, ids[0]), cfg, ids[1..]);
    }
  }

  lemma TryPlaceOnlyPlaces(st: State, cfg: Config, ord: Order)
    ensures var st' := TryPlace(st, cfg, ord); st' == st.(pgs := st'.pgs) && OnlyPlaced(st.pgs, st'.pgs)
  {
    PlaceAllOnlyPlaces(st, cfg, ord(st.pgs.Keys));
  }

  lemma MarkDeadDied(st: State, cfg: Config, ord: Order, now: nat, a: ActorId)
    ensures Died(st, MarkDead(st, cfg, ord, now, a), {a}, now)
    ensures var st' := MarkDead(st, cfg, ord, now, a); a in st'.actors ==> !Live(st'.actors[a])
  {
    hide TryPlace, OnlyPlaced;
    TryPlaceOnlyPlaces(Bury(st, now, a), cfg, ord);
    SelfPlaced(st);
  }

  lemma SelfPlaced(st: State)
    ensures OnlyPlaced(st.pgs, st.pgs)
  {
  }

  lemma SelfDied(st: State, ids: set<ActorId>, now: nat)
    ensures Died(st, st, ids, now)
  {
  }

  lemma {:induction false} MarkAllDied(st: State, cfg: Config, ord: Order, now: nat, ids: seq<ActorId>)
    ensures Died(st, MarkAll(st, cfg, ord, now, ids), SetOf(ids), now)
    decreases |ids|
  {
    hide Died, MarkDead;
    if ids == [] {
      SelfDied(st, SetOf(ids), now);
    } else {
      var n := |ids| - 1;
      MarkAllDied(st, cfg, ord, now, ids[..n]);
      var s := MarkAll(st, cfg, ord, now, ids[..n]);
      MarkDeadDied(s, cfg, ord, now, ids[n]);
      DiedTrans(st, s, MarkAll(st, cfg, ord, now, ids), SetOf(ids[..n]), {ids[n]}, now);
      assert SetOf(ids) == SetOf(ids[..n]) + {ids[n]};
    }
  }

  lemma KillActorDied(st: State, cfg: Config, ord: Order, now: nat, a: ActorId, delivered: bool)
    ensures Died(st, KillActor(st, cfg, ord, now, a, delivered), {a}, now)
  {
    hide MarkDead, OnlyPlaced;
    MarkDeadDied(st, cfg, ord, now, a);
    SelfPlaced(st);
  }

  lemma {:induction false} KillAllDied(st: State, cfg: Config, ord: Order, now: nat, ids: seq<ActorId>, reached: set<ActorId>)
    ensures Died(st, KillAll(st, cfg, ord, now, ids, reached), SetOf(ids), now)
    decreases |ids|
  {
    hide Died, KillActor;
    if ids == [] {
      SelfDied(st, SetOf(ids), now);
    } else {
      var n := |ids| - 1;
      KillAllDied(st, cfg, ord, now, ids[..n], reached);
      var s := KillAll(st, cfg, ord, now, ids[..n], reached);
      KillActorDied(s, cfg, ord, now, ids[n], ids[n] in reached);
      DiedTrans(st, s, KillAll(st, cfg, ord, now, ids, reached), SetOf(ids[..n]), {ids[n]}, now);
      assert SetOf(ids) == SetOf(ids[..n]) + {ids[n]};
    }
  }

  /** Giving up on agents kills actors filed under them and no other. */
  lemma {:induction false} GiveUpDied(st: State, cfg: Config, ord: Order, now: nat, agents: seq<AgentId>)
    requires IsOrder(ord)
    ensures Died(st, GiveUpAll(st, cfg, ord, now, agents), OnAgents(st, SetOf(agents)), now)
    decreases |agents|
  {
    hide MarkAll, IsOrder;
    if agents == [] {
      SelfDied(st, OnAgents(st, {}), now);
    } else {
      hide Died;
      var n := |agents| - 1;
      GiveUpDied(st, cfg, ord, now, agents[..n]);
      var s := GiveUpAll(st, cfg, ord, now, agents[..n]);
      var ids := ord(HostedBy(s, agents[n]));
      MarkAllDied(s, cfg, ord, now, ids);
      var d, e := OnAgents(st, SetOf(agents[..n])), SetOf(ids);
      DiedTrans(st, s, GiveUpAll(st, cfg, ord, now, agents), d, e, now);
      HostedAre(st, s, ord, agents[n], d, now);
      assert SetOf(agents) == SetOf(agents[..n]) + {agents[n]};
      DiedMore(st, GiveUpAll(st, cfg, ord, now, agents), d + e, OnAgents(st, SetOf(agents)), now);
    }
  }

  lemma DiedMore(st: State, st': State, d: set<ActorId>, e: set<ActorId>, now: nat)
    requires Died(st, st', d, now) && d <= e
    ensures Died(st, st', e, now)
  {
    forall i | |st.sent| <= i < |st'.sent| ensures st'.sent[i].msg.Kill? && st'.sent[i].msg.actor in e {
    }
  }

  lemma HostedAre(st: State, s: State, ord: Order, agent: AgentId, d: set<ActorId>, now: nat)
    requires IsOrder(ord) && Died(st, s, d, now)
    ensures SetOf(ord(HostedBy(s, agent))) <= OnAgents(st, {agent})
  {
  }

  function OnAgents(st: State, agents: set<AgentId>): set<ActorId> {
    set a | a in st.actors && st.actors[a].agent in agents
  }
}
