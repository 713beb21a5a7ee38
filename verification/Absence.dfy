/** When the head gives up on an agent, told from the events alone, and over whole runs
    with the agents that no call still running is ever reported finished. */
module Absence {
  import opened Basics
  import opened Tables
  import opened Head
  import opened Safety
  import opened Rows
  import opened Runs
  import opened Calls
  import opened Effects
  import opened Joins
  import opened Fates
  import opened Entries
  import opened Answers
  import opened Cluster
  import opened Devices

  // ------------------------------------------------------ links, from events

  /** The head's clock does not run back. */
  ghost predicate Clock(steps: seq<Step>) {
    forall i, j :: 0 <= i <= j < |steps| ==> steps[i].now <= steps[j].now
  }

  function Registrations(steps: seq<Step>): nat {
    if steps == [] then 0
    else Registrations(steps[..|steps| - 1]) + if steps[|steps| - 1].event.Register? then 1 else 0
  }

  /** The number of the connection that registration `i` came over. */
  function ConnOf(steps: seq<Step>, i: nat): nat
    requires i < |steps|
  {
    1 + Registrations(steps[..i])
  }

  predicate RegistersAt(steps: seq<Step>, g: AgentId, i: nat)
    requires i < |steps|
  {
    steps[i].event.Register? && steps[i].event.agent == g
  }

  /** Registration `j` is the agent's last before `n`. */
  ghost predicate LastRegister(steps: seq<Step>, g: AgentId, n: nat, j: nat) {
    j < n <= |steps| && RegistersAt(steps, g, j) && forall k :: j < k < n ==> !RegistersAt(steps, g, k)
  }

  /** Step `i` is the end of the connection the agent last registered over. */
  ghost predicate EndsLink(steps: seq<Step>, g: AgentId, i: nat)
    requires i < |steps|
  {
    exists j: nat :: LastRegister(steps, g, i, j) && steps[i].event == LinkLost(g, ConnOf(steps, j))
  }

  /** Step `i` ended the agent's link, and before `n` it has neither registered again nor
      had that link end once more. */
  ghost predicate AwaySince(steps: seq<Step>, g: AgentId, n: nat, i: nat) {
    i < n <= |steps| && EndsLink(steps, g, i) && forall k :: i < k < n ==> !RegistersAt(steps, g, k) && !EndsLink(steps, g, k)
  }

  /** Before `n` the agent has been away since step `i`, at time `at`, and no sweep came
      as late as the give-up time after it. */
  ghost predicate WaitsSince(cfg: Config, steps: seq<Step>, g: AgentId, n: nat, i: nat, at: nat) {
    AwaySince(steps, g, n, i) && steps[i].now == at &&
    forall k :: i < k < n && steps[k].event.Sweep? ==> steps[k].now < at + cfg.deadAfterMs
  }

  /** Before `n` the agent is waited for since `at`. */
  ghost predicate Waited(cfg: Config, steps: seq<Step>, g: AgentId, n: nat, at: nat) {
    exists i: nat :: WaitsSince(cfg, steps, g, n, i, at)
  }

  /** At `now`, before step `n`, the agent has been away for the give-up time and no
      sweep has acted on it yet. */
  ghost predicate Overdue(cfg: Config, steps: seq<Step>, g: AgentId, n: nat, now: nat) {
    exists at: nat :: Waited(cfg, steps, g, n, at) && at + cfg.deadAfterMs <= now
  }

  // --------------------------------------------------- what the rows say of it

  /** The agent's row carries the number of its last connection, is up exactly if that
      has not ended, and is waited for exactly if it has and no sweep has acted on it. */
  ghost predicate RowTells(cfg: Config, steps: seq<Step>, n: nat, g: AgentId, row: Agent)
    requires n <= |steps|
  {
    (exists j: nat :: LastRegister(steps, g, n, j) && row.seqNo == ConnOf(steps, j)) &&
    (row.alive <==> forall i: nat :: !AwaySince(steps, g, n, i)) &&
    (forall t: nat :: row.lostAt == Some(t) <==> Waited(cfg, steps, g, n, t))
  }

  /** What every run keeps of the agents' rows. */
  ghost predicate AgentsTell(cfg: Config, steps: seq<Step>, n: nat, st: State)
    requires n <= |steps|
  {
    st.nextSeq == 1 + Registrations(steps[..n]) &&
    (forall g :: g in st.agents ==> RowTells(cfg, steps, n, g, st.agents[g])) &&
    (forall g, j: nat :: LastRegister(steps, g, n, j) && (forall i: nat :: !AwaySince(steps, g, n, i)) ==> g in st.agents)
  }

  lemma OneAway(steps: seq<Step>, g: AgentId, n: nat, i: nat, j: nat)
    requires AwaySince(steps, g, n, i) && AwaySince(steps, g, n, j)
    ensures i == j
  {
  }

  lemma OneLast(steps: seq<Step>, g: AgentId, n: nat, i: nat, j: nat)
    requires LastRegister(steps, g, n, i) && LastRegister(steps, g, n, j)
    ensures i == j
  {
  }

  lemma LastOn(steps: seq<Step>, g: AgentId, n: nat, j: nat)
    requires n < |steps| && j < n
    ensures LastRegister(steps, g, n + 1, j) <==> LastRegister(steps, g, n, j) && !RegistersAt(steps, g, n)
  {
  }

  lemma AwayOn(steps: seq<Step>, g: AgentId, n: nat, i: nat)
    requires n < |steps| && i < n
    ensures AwaySince(steps, g, n + 1, i) <==>
            AwaySince(steps, g, n, i) && !RegistersAt(steps, g, n) && !EndsLink(steps, g, n)
  {
    hide EndsLink, RegistersAt;
  }

  lemma AwayNow(steps: seq<Step>, g: AgentId, n: nat)
    requires n < |steps|
    ensures AwaySince(steps, g, n + 1, n) <==> EndsLink(steps, g, n)
  {
    hide EndsLink, RegistersAt;
  }

  /** A registration starts the row afresh. */
  lemma TellsRegister(cfg: Config, steps: seq<Step>, n: nat, g: AgentId, row: Agent)
    requires n < |steps| && RegistersAt(steps, g, n) && row.seqNo == ConnOf(steps, n) && row.alive && row.lostAt.None?
    ensures RowTells(cfg, steps, n + 1, g, row)
  {
    var m := n + 1;
    assert LastRegister(steps, g, m, n);
    forall i: nat ensures !AwaySince(steps, g, m, i) {
      if i < n { AwayOn(steps, g, n, i); } else if i == n { AwayNow(steps, g, n); assert !EndsLink(steps, g, n); }
    }
  }

  /** The end of the last connection starts the wait. */
  lemma TellsLost(cfg: Config, steps: seq<Step>, n: nat, g: AgentId, row: Agent, row': Agent)
    requires n < |steps| && RowTells(cfg, steps, n, g, row) && EndsLink(steps, g, n)
    requires row'.seqNo == row.seqNo && !row'.alive && row'.lostAt == Some(steps[n].now)
    ensures RowTells(cfg, steps, n + 1, g, row')
  {
    var j: nat :| LastRegister(steps, g, n, j) && row.seqNo == ConnOf(steps, j);
    LastOn(steps, g, n, j);
    AwayNow(steps, g, n);
    var m := n + 1;
    assert AwaySince(steps, g, m, n);
    hide EndsLink, RegistersAt, AwaySince, LastRegister, Waited;
    WaitNow(cfg, steps, g, n, m);
  }

  /** Just after the end, the wait is since then. */
  lemma WaitNow(cfg: Config, steps: seq<Step>, g: AgentId, n: nat, m: nat)
    requires n < |steps| && m == n + 1 && AwaySince(steps, g, m, n)
    ensures forall t: nat :: Waited(cfg, steps, g, m, t) <==> t == steps[n].now
  {
    assert WaitsSince(cfg, steps, g, m, n, steps[n].now);
    forall t: nat, i: nat | WaitsSince(cfg, steps, g, m, i, t) ensures t == steps[n].now {
      OneAway(steps, g, m, i, n);
    }
  }

  /** Any other step leaves the row alone, but for a sweep past the give-up time. */
  lemma TellsOther(cfg: Config, steps: seq<Step>, n: nat, g: AgentId, row: Agent, row': Agent)
    requires Clock(steps) && n < |steps| && RowTells(cfg, steps, n, g, row) && !RegistersAt(steps, g, n) && !EndsLink(steps, g, n)
    requires row' == if steps[n].event.Sweep? && row.lostAt.Some? && Passed(row.lostAt.value, cfg.deadAfterMs, steps[n].now)
                     then row.(lostAt := None) else row
    ensures RowTells(cfg, steps, n + 1, g, row')
  {
    var m := n + 1;
    AwaySame(steps, g, n, m);
    var j: nat :| LastRegister(steps, g, n, j) && row.seqNo == ConnOf(steps, j);
    LastOn(steps, g, n, j);
    assert LastRegister(steps, g, m, j);
    hide EndsLink, RegistersAt, Passed, LastRegister, AwaySince, Waited, Clock;
    forall t: nat ensures row'.lostAt == Some(t) <==> Waited(cfg, steps, g, m, t) {
      assert row.lostAt == Some(t) <==> Waited(cfg, steps, g, n, t);
      WaitStep(cfg, steps, g, n, m, t);
    }
  }

  lemma AwaySame(steps: seq<Step>, g: AgentId, n: nat, m: nat)
    requires n < |steps| && m == n + 1 && !RegistersAt(steps, g, n) && !EndsLink(steps, g, n)
    ensures forall i: nat :: AwaySince(steps, g, n, i) <==> AwaySince(steps, g, m, i)
  {
    hide EndsLink, RegistersAt;
    forall i: nat ensures AwaySince(steps, g, n, i) <==> AwaySince(steps, g, m, i) {
      if i < n { AwayOn(steps, g, n, i); } else if i == n { AwayNow(steps, g, n); }
    }
  }

  /** A wait goes on over a step unless it is a sweep past the give-up time. */
  lemma WaitStep(cfg: Config, steps: seq<Step>, g: AgentId, n: nat, m: nat, at: nat)
    requires Clock(steps) && n < |steps| && m == n + 1
    requires forall i: nat :: AwaySince(steps, g, n, i) <==> AwaySince(steps, g, m, i)
    ensures Waited(cfg, steps, g, m, at) <==>
            Waited(cfg, steps, g, n, at) && !(steps[n].event.Sweep? && Passed(at, cfg.deadAfterMs, steps[n].now))
  {
    hide EndsLink, RegistersAt;
    forall i: nat ensures WaitsSince(cfg, steps, g, m, i, at) <==>
                          WaitsSince(cfg, steps, g, n, i, at) && !(steps[n].event.Sweep? && Passed(at, cfg.deadAfterMs, steps[n].now))
    {
      WaitSinceStep(cfg, steps, g, n, m, i, at);
    }
  }

  lemma WaitSinceStep(cfg: Config, steps: seq<Step>, g: AgentId, n: nat, m: nat, i: nat, at: nat)
    requires Clock(steps) && n < |steps| && m == n + 1 && (AwaySince(steps, g, n, i) <==> AwaySince(steps, g, m, i))
    ensures WaitsSince(cfg, steps, g, m, i, at) <==>
            WaitsSince(cfg, steps, g, n, i, at) && !(steps[n].event.Sweep? && Passed(at, cfg.deadAfterMs, steps[n].now))
  {
    hide EndsLink, RegistersAt;
    assert AwaySince(steps, g, n, i) ==> i < n && steps[i].now <= steps[n].now;
  }

  // ------------------------------------------------------------- every run

  lemma RegistrationsOn(steps: seq<Step>, n: nat)
    requires n < |steps|
    ensures Registrations(steps[..n + 1]) == Registrations(steps[..n]) + if steps[n].event.Register? then 1 else 0
  {
    assert steps[..n + 1][..n] == steps[..n];
  }

  lemma EndsIs(steps: seq<Step>, g: AgentId, n: nat, row: Agent, cfg: Config)
    requires n < |steps| && RowTells(cfg, steps, n, g, row)
    ensures EndsLink(steps, g, n) <==> steps[n].event == LinkLost(g, row.seqNo)
  {
    var j: nat :| LastRegister(steps, g, n, j) && row.seqNo == ConnOf(steps, j);
    if EndsLink(steps, g, n) {
      var i: nat :| LastRegister(steps, g, n, i) && steps[n].event == LinkLost(g, ConnOf(steps, i));
      OneLast(steps, g, n, i, j);
    }
  }

  /** One agent's row over one step. */
  lemma RowTellsStep(cfg: Config, steps: seq<Step>, n: nat, st: State, g: AgentId, m: nat)
    requires Clock(steps) && n < |steps| && m == n + 1 && AgentsTell(cfg, steps, n, st) && IsOrder(steps[n].ord)
    requires var st' := Apply(st, cfg, steps[n].ord, steps[n].now, steps[n].event); g in st'.agents
    ensures RowTells(cfg, steps, m, g, Apply(st, cfg, steps[n].ord, steps[n].now, steps[n].event).agents[g])
  {
    var step := steps[n];
    hide Apply, IsOrder, RowTells, Clock, DropsAgent, Passed, LastRegister, AwaySince;
    AgentsExactly(st, cfg, step.ord, step.now, step.event, g);
    var row' := Apply(st, cfg, step.ord, step.now, step.event).agents[g];
    if RegistersAt(steps, g, n) {
      TellsRegister(cfg, steps, n, g, row');
    } else {
      var row := st.agents[g];
      EndsIs(steps, g, n, row, cfg);
      if EndsLink(steps, g, n) {
        TellsLost(cfg, steps, n, g, row, row');
      } else {
        TellsOther(cfg, steps, n, g, row, row');
      }
    }
  }

  /** An agent whose last connection stands keeps its row. */
  lemma LinkedStays(cfg: Config, steps: seq<Step>, n: nat, st: State, g: AgentId, m: nat, j: nat)
    requires n < |steps| && m == n + 1 && AgentsTell(cfg, steps, n, st) && IsOrder(steps[n].ord)
    requires LastRegister(steps, g, m, j) && forall i: nat :: !AwaySince(steps, g, m, i)
    ensures g in Apply(st, cfg, steps[n].ord, steps[n].now, steps[n].event).agents
  {
    var step := steps[n];
    AgentsExactly(st, cfg, step.ord, step.now, step.event, g);
    hide Apply, IsOrder, DropsActor, Passed;
    if !RegistersAt(steps, g, n) {
      LastOn(steps, g, n, j);
      AwayNow(steps, g, n);
      AwaySame(steps, g, n, m);
      hide AwaySince, LastRegister, Waited;
      assert g in st.agents;
      assert st.agents[g].alive;
    }
  }

  lemma {:induction false} EveryRunTells(cfg: Config, start: nat, steps: seq<Step>, n: nat)
    requires Clock(steps) && n <= |steps| && forall i :: 0 <= i < n ==> SaneAt(cfg, start, steps, i)
    ensures AgentsTell(cfg, steps, n, After(cfg, start, steps[..n]))
    decreases n
  {
    if n == 0 {
      assert steps[..0] == [];
    } else {
      var k := n - 1;
      EveryRunTells(cfg, start, steps, k);
      assert SaneAt(cfg, start, steps, k);
      hide After, Apply, IsOrder, Clock, RowTells, AwaySince, LastRegister;
      var st, step := After(cfg, start, steps[..k]), steps[k];
      LastStep(cfg, start, steps, k);
      SinceStands(st, cfg, step.ord, step.now, step.event);
      RegistrationsOn(steps, k);
      var st' := After(cfg, start, steps[..n]);
      forall g | g in st'.agents ensures RowTells(cfg, steps, n, g, st'.agents[g]) {
        RowTellsStep(cfg, steps, k, st, g, n);
      }
      forall g, j: nat | LastRegister(steps, g, n, j) && (forall i: nat :: !AwaySince(steps, g, n, i)) ensures g in st'.agents {
        LinkedStays(cfg, steps, k, st, g, n, j);
      }
    }
  }

  /** Over every run an agent is up exactly if it has registered and the connection it
      last registered over has not ended. */
  lemma UpExactly(cfg: Config, start: nat, steps: seq<Step>, g: AgentId)
    requires SaneRun(cfg, start, steps) && Clock(steps)
    ensures AgentUp(After(cfg, start, steps), g) <==>
              (exists j: nat :: LastRegister(steps, g, |steps|, j)) && forall i: nat :: !AwaySince(steps, g, |steps|, i)
  {
    EveryRunTells(cfg, start, steps, |steps|);
    assert steps[..|steps|] == steps;
    hide After, AwaySince, LastRegister, Waited;
  }

  /** Over every run a sweep ends a live actor exactly if its agent's link ended, the
      agent has not registered since, the give-up time since the end has passed, and no
      earlier sweep came that late. */
  lemma SweepKillsExactly(cfg: Config, start: nat, steps: seq<Step>, k: nat, a: ActorId)
    requires SaneRun(cfg, start, steps) && Clock(steps) && k < |steps| && steps[k].event.Sweep?
    requires var st := After(cfg, start, steps[..k]); a in st.actors && Live(st.actors[a])
    ensures var st, st' := After(cfg, start, steps[..k]), After(cfg, start, steps[..k + 1]);
            a in st'.actors && (!Live(st'.actors[a]) <==> Overdue(cfg, steps, st.actors[a].agent, k, steps[k].now))
  {
    hide After, Apply, IsOrder, OwnQueues, RowsHold, RowTells, Passed, Overdue, Clock;
    EveryRunTells(cfg, start, steps, k);
    EveryRunAnswers(cfg, start, steps, k);
    assert SaneAt(cfg, start, steps, k);
    LastStep(cfg, start, steps, k);
    var st := After(cfg, start, steps[..k]);
    SweepEndsWith(st, cfg, steps[k], a);
    WaitsPast(cfg, steps, k, st.actors[a].agent, st.agents[st.actors[a].agent]);
  }

  /** A sweep ends a live actor exactly if its agent's row has waited long enough. */
  lemma SweepEndsWith(st: State, cfg: Config, step: Step, a: ActorId)
    requires RowsHold(st) && IsOrder(step.ord) && step.event.Sweep? && a in st.actors && Live(st.actors[a])
    ensures var st' := Apply(st, cfg, step.ord, step.now, step.event); var g := st.actors[a].agent;
            g in st.agents && a in st'.actors &&
            (!Live(st'.actors[a]) <==> st.agents[g].lostAt.Some? && Passed(st.agents[g].lostAt.value, cfg.deadAfterMs, step.now))
  {
    hide Apply, IsOrder, Passed;
    ActorsExactly(st, cfg, step.ord, step.now, step.event, a);
  }

  /** What the row says of the wait. */
  lemma WaitsPast(cfg: Config, steps: seq<Step>, k: nat, g: AgentId, row: Agent)
    requires Clock(steps) && k < |steps| && RowTells(cfg, steps, k, g, row)
    ensures row.lostAt.Some? && Passed(row.lostAt.value, cfg.deadAfterMs, steps[k].now) <==> Overdue(cfg, steps, g, k, steps[k].now)
  {
    if row.lostAt.Some? {
      var t := row.lostAt.value;
      assert Waited(cfg, steps, g, k, t);
      var i: nat :| WaitsSince(cfg, steps, g, k, i, t);
      assert steps[i].now <= steps[k].now;
    }
  }

  // ------------------------------------------- the head's steps in a joint run

  /** The steps of the head among the moves. */
  ghost function StepsOf(ms: seq<Move>): seq<Step> {
    if ms == [] then []
    else
      var m := ms[|ms| - 1];
      StepsOf(ms[..|ms| - 1]) + if m.HeadMove? || m.Join? then [m.step] else []
  }

  /** How many of them come before move `k`. */
  ghost function StepCount(ms: seq<Move>, k: nat): (n: nat)
    requires k <= |ms|
    ensures n <= |StepsOf(ms)|
  {
    StepsPrefix(ms, k);
    |StepsOf(ms[..k])|
  }

  lemma StepsNext(ms: seq<Move>, k: nat)
    requires k < |ms|
    ensures StepsOf(ms[..k + 1]) == StepsOf(ms[..k]) + if ms[k].HeadMove? || ms[k].Join? then [ms[k].step] else []
  {
    assert ms[..k + 1][..k] == ms[..k];
  }

  lemma {:induction false} StepsPrefix(ms: seq<Move>, k: nat)
    requires k <= |ms|
    ensures |StepsOf(ms[..k])| <= |StepsOf(ms)| && StepsOf(ms[..k]) == StepsOf(ms)[..|StepsOf(ms[..k])|]
    decreases |ms| - k
  {
    hide StepsOf;
    if k == |ms| {
      assert ms[..k] == ms;
    } else {
      StepsNext(ms, k);
      StepsPrefix(ms, k + 1);
    }
  }

  /** Each of the head's steps among the first moves. */
  lemma StepAt(ms: seq<Move>, k: nat)
    requires k < |ms|
    ensures StepCount(ms, k) <= StepCount(ms, k + 1) <= |StepsOf(ms)|
    ensures ms[k].HeadMove? || ms[k].Join? ==>
              StepCount(ms, k + 1) == StepCount(ms, k) + 1 && StepsOf(ms)[StepCount(ms, k)] == ms[k].step
    ensures !(ms[k].HeadMove? || ms[k].Join?) ==> StepCount(ms, k + 1) == StepCount(ms, k)
  {
    hide StepsOf;
    StepsNext(ms, k);
    StepsPrefix(ms, k);
    StepsPrefix(ms, k + 1);
  }

  /** The head of a joint run runs its own steps, and they are sane. */
  lemma {:induction false} HeadRuns(cfg: Config, start: nat, cs: seq<Cluster>, ms: seq<Move>, k: nat)
    requires IsRun(cfg, cs, ms) && cs[0].head == Fresh(start) && k <= |ms|
    ensures cs[k].head == After(cfg, start, StepsOf(ms)[..StepCount(ms, k)])
    ensures forall i :: 0 <= i < StepCount(ms, k) ==> SaneAt(cfg, start, StepsOf(ms), i)
    decreases k
  {
    hide StepsOf, After, Apply, IsRun, Sane, IsOrder, Next, Enabled;
    StepsPrefix(ms, k);
    if k == 0 {
      NoStepYet(cfg, start, ms);
    } else {
      HeadRuns(cfg, start, cs, ms, k - 1);
      var j := k - 1;
      RunAt(cfg, cs, ms, j);
      StepAt(ms, j);
      HeadNext(cs[j], cfg, ms[j]);
      if ms[j].HeadMove? || ms[j].Join? {
        LastStep(cfg, start, StepsOf(ms), StepCount(ms, j));
      }
    }
  }

  lemma NoStepYet(cfg: Config, start: nat, ms: seq<Move>)
    ensures StepCount(ms, 0) == 0 && After(cfg, start, StepsOf(ms)[..0]) == Fresh(start)
  {
    assert ms[..0] == [] && StepsOf(ms)[..0] == [];
  }

  lemma RunAt(cfg: Config, cs: seq<Cluster>, ms: seq<Move>, k: nat)
    requires IsRun(cfg, cs, ms) && k < |ms|
    ensures |cs| == |ms| + 1 && Enabled(cs[k], ms[k]) && cs[k + 1] == Next(cs[k], cfg, ms[k])
  {
  }

  /** What a move does to the head: its step, if it is one, and that step is sane. */
  lemma HeadNext(c: Cluster, cfg: Config, m: Move)
    requires Enabled(c, m)
    ensures m.HeadMove? || m.Join? ==>
              Next(c, cfg, m).head == Apply(c.head, cfg, m.step.ord, m.step.now, m.step.event) &&
              IsOrder(m.step.ord) && Sane(c.head, m.step.event)
    ensures !(m.HeadMove? || m.Join?) ==> Next(c, cfg, m).head == c.head
  {
    hide Apply;
  }

  // ---------------------------------------------------- excuses, from events

  /** Before step `n` of the head the actor's death was asked for, or it was refused when
      its agent registered. */
  ghost predicate AskedBefore(cfg: Config, start: nat, steps: seq<Step>, a: ActorId, n: nat)
    requires n <= |steps|
  {
    exists j :: 0 <= j < n && AskedAt(After(cfg, start, steps[..j]), cfg, steps[j].event, a)
  }

  predicate AskedAt(st: State, cfg: Config, e: Event, a: ActorId) {
    a in st.actors &&
    (Asks(st, cfg, e, a) ||
     (e.Register? && Resumes(e.resume, a) && (st.actors[a].owner !in st.clients || !Live(st.actors[a]))))
  }

  /** Before step `n` the call was dropped with its reaped maker. */
  ghost predicate ReapedBefore(cfg: Config, start: nat, steps: seq<Step>, r: RefId, n: nat)
    requires n <= |steps|
  {
    exists j :: 0 <= j < n && ReapedAt(After(cfg, start, steps[..j]), cfg, steps[j].event, r)
  }

  predicate ReapedAt(st: State, cfg: Config, e: Event, r: RefId) {
    r in st.refs && Reaping(st, cfg, e, st.refs[r].owner)
  }

  /** Before step `n` a sweep found the agent away for the give-up time. */
  ghost predicate GaveUpBefore(cfg: Config, steps: seq<Step>, g: AgentId, n: nat)
    requires n <= |steps|
  {
    exists j: nat :: j < n && steps[j].event.Sweep? && Overdue(cfg, steps, g, j, steps[j].now)
  }

  ghost predicate RegisteredBefore(steps: seq<Step>, g: AgentId, n: nat)
    requires n <= |steps|
  {
    exists j :: 0 <= j < n && RegistersAt(steps, g, j)
  }

  /** Before move `k` the actor's constructor raised. */
  ghost predicate BrokeBefore(ms: seq<Move>, a: ActorId, k: nat)
    requires k <= |ms|
  {
    exists j :: 0 <= j < k && ms[j].Break? && ms[j].actor == a
  }

  /** What the histories of a joint run stand for. */
  ghost predicate Excuses(cfg: Config, start: nat, steps: seq<Step>, ms: seq<Move>, n: nat, k: nat, c: Cluster)
    requires n <= |steps| && k <= |ms|
  {
    (forall a :: a in c.killed ==> AskedBefore(cfg, start, steps, a, n)) &&
    (forall r :: r in c.reaped ==> ReapedBefore(cfg, start, steps, r, n)) &&
    (forall a :: a in c.broken ==> BrokeBefore(ms, a, k)) &&
    (forall g :: RegisteredBefore(steps, g, n) ==> g in c.joined) && c.abandoned <= c.met &&
    (forall g, a :: HostsActor(c, g, a) && a in c.abandoned ==> GaveUpBefore(cfg, steps, g, n)) &&
    (forall g, i: nat, a :: SpawnsAt(c, g, i, a) && a in c.abandoned ==> GaveUpBefore(cfg, steps, g, n))
  }

  lemma AskedMore(cfg: Config, start: nat, steps: seq<Step>, a: ActorId, n: nat)
    requires n < |steps|
    ensures AskedBefore(cfg, start, steps, a, n + 1) <==>
            AskedBefore(cfg, start, steps, a, n) || AskedAt(After(cfg, start, steps[..n]), cfg, steps[n].event, a)
  {
    hide After, AskedAt;
  }

  lemma ReapedMore(cfg: Config, start: nat, steps: seq<Step>, r: RefId, n: nat)
    requires n < |steps|
    ensures ReapedBefore(cfg, start, steps, r, n + 1) <==>
            ReapedBefore(cfg, start, steps, r, n) || ReapedAt(After(cfg, start, steps[..n]), cfg, steps[n].event, r)
  {
    hide After, ReapedAt;
  }

  lemma GaveUpMore(cfg: Config, steps: seq<Step>, g: AgentId, n: nat)
    requires n < |steps|
    ensures GaveUpBefore(cfg, steps, g, n) || (steps[n].event.Sweep? && Overdue(cfg, steps, g, n, steps[n].now)) ==>
              GaveUpBefore(cfg, steps, g, n + 1)
  {
    hide Overdue;
  }

  lemma RegisteredMore(steps: seq<Step>, g: AgentId, n: nat)
    requires n < |steps|
    ensures RegisteredBefore(steps, g, n + 1) <==> RegisteredBefore(steps, g, n) || RegistersAt(steps, g, n)
  {
  }

  /** Who a step kills was asked for. */
  lemma KilledWasAsked(st: State, cfg: Config, e: Event, a: ActorId)
    requires a in KillsOf(st, cfg, e)
    ensures AskedAt(st, cfg, e, a)
  {
  }

  lemma RefusedWasAsked(st: State, cfg: Config, e: Event, a: ActorId)
    requires e.Register? && a in RejectedIn(st, e.resume)
    ensures AskedAt(st, cfg, e, a)
  {
  }

  lemma ReapedWasReaped(st: State, cfg: Config, e: Event, r: RefId)
    requires r in ReapedBy(st, cfg, e)
    ensures ReapedAt(st, cfg, e, r)
  {
  }

  /** The agents a sweep gives up on are those away for the give-up time. */
  lemma GivenUpIsOverdue(cfg: Config, steps: seq<Step>, n: nat, st: State, a: ActorId)
    requires Clock(steps) && n < |steps| && AgentsTell(cfg, steps, n, st)
    requires a in GivenUpBy(st, cfg, steps[n])
    ensures a in st.actors && steps[n].event.Sweep? && Overdue(cfg, steps, st.actors[a].agent, n, steps[n].now)
  {
    hide RowTells, Overdue, Clock;
    var g := st.actors[a].agent;
    assert g in GivenUp(st, cfg, steps[n].now);
    WaitsPast(cfg, steps, n, g, st.agents[g]);
  }

  /** A step of the head keeps the histories excused. */
  lemma HeadExcuses(cfg: Config, start: nat, steps: seq<Step>, ms: seq<Move>, n: nat, k: nat, c: Cluster)
    requires Good(c) && n < |steps| && k < |ms| && HeadMoves(c, steps[n]) && Clock(steps)
    requires c.head == After(cfg, start, steps[..n]) && AgentsTell(cfg, steps, n, c.head) && Excuses(cfg, start, steps, ms, n, k, c)
    ensures Excuses(cfg, start, steps, ms, n + 1, k + 1, AfterHead(c, cfg, steps[n]))
  {
    var c' := AfterHead(c, cfg, steps[n]);
    var m := n + 1;
    HeadHistories(cfg, start, steps, ms, n, k, c);
    HeadBlames(cfg, start, steps, ms, n, k, c);
    hide Good, Apply, After, HeadMoves, AskedBefore, ReapedBefore, GaveUpBefore, RegisteredBefore, BrokeBefore, AfterHead,
         KillsOf, ReapedBy, GivenUpBy;
  }

  lemma HeadHistories(cfg: Config, start: nat, steps: seq<Step>, ms: seq<Move>, n: nat, k: nat, c: Cluster)
    requires Good(c) && n < |steps| && k < |ms| && HeadMoves(c, steps[n])
    requires c.head == After(cfg, start, steps[..n]) && Excuses(cfg, start, steps, ms, n, k, c)
    ensures var c' := AfterHead(c, cfg, steps[n]);
            (forall a :: a in c'.killed ==> AskedBefore(cfg, start, steps, a, n + 1)) &&
            (forall r :: r in c'.reaped ==> ReapedBefore(cfg, start, steps, r, n + 1)) &&
            (forall a :: a in c'.broken ==> BrokeBefore(ms, a, k + 1)) &&
            (forall g :: RegisteredBefore(steps, g, n + 1) ==> g in c'.joined) && c'.abandoned <= c'.met
  {
    hide Apply, After, AskedBefore, ReapedBefore, GaveUpBefore, RegisteredBefore, KillsOf, ReapedBy, AskedAt, ReapedAt,
         HeadGood, SidesGood, LinksGood, FiledGood, NumbersGood, SpawnsGood, CallsGood, RunningGood, IsOrder, Sane, Steady;
    var c' := AfterHead(c, cfg, steps[n]);
    var e := steps[n].event;
    forall a | a in c'.killed ensures AskedBefore(cfg, start, steps, a, n + 1) {
      AskedMore(cfg, start, steps, a, n);
      if a in KillsOf(c.head, cfg, e) { KilledWasAsked(c.head, cfg, e, a); }
    }
    forall r | r in c'.reaped ensures ReapedBefore(cfg, start, steps, r, n + 1) {
      ReapedMore(cfg, start, steps, r, n);
      if r in ReapedBy(c.head, cfg, e) { ReapedWasReaped(c.head, cfg, e, r); }
    }
    forall g | RegisteredBefore(steps, g, n + 1) ensures g in c'.joined {
      RegisteredMore(steps, g, n);
    }
  }

  /** An actor hosted or about to be is filed under its host's agent. */
  lemma FiledWhere(c: Cluster, g: AgentId, a: ActorId)
    requires Good(c) && a in c.head.actors && (HostsActor(c, g, a) || exists i: nat :: SpawnsAt(c, g, i, a))
    ensures c.head.actors[a].agent == g
  {
    hide HeadGood, SidesGood, LinksGood, NumbersGood, CallsGood, RunningGood;
  }

  lemma HeadBlames(cfg: Config, start: nat, steps: seq<Step>, ms: seq<Move>, n: nat, k: nat, c: Cluster)
    requires Good(c) && n < |steps| && k < |ms| && HeadMoves(c, steps[n]) && Clock(steps)
    requires c.head == After(cfg, start, steps[..n]) && AgentsTell(cfg, steps, n, c.head) && Excuses(cfg, start, steps, ms, n, k, c)
    ensures var c' := AfterHead(c, cfg, steps[n]);
            (forall g, a :: HostsActor(c', g, a) && a in c'.abandoned ==> GaveUpBefore(cfg, steps, g, n + 1)) &&
            (forall g, i: nat, a :: SpawnsAt(c', g, i, a) && a in c'.abandoned ==> GaveUpBefore(cfg, steps, g, n + 1))
  {
    hide Good, Apply, After, AskedBefore, ReapedBefore, GaveUpBefore, RegisteredBefore, BrokeBefore, Overdue, AgentsTell,
         IsOrder, Sane, Steady, GivenUpBy, Clock;
    var c' := AfterHead(c, cfg, steps[n]);
    HeadSpawns(c, cfg, steps[n]);
    forall g, a | HostsActor(c', g, a) && a in c'.abandoned ensures GaveUpBefore(cfg, steps, g, n + 1) {
      assert HostsActor(c, g, a);
      GaveUpMore(cfg, steps, g, n);
      if a in GivenUpBy(c.head, cfg, steps[n]) {
        GivenUpIsOverdue(cfg, steps, n, c.head, a);
        FiledWhere(c, g, a);
      }
    }
    forall g, i: nat, a | SpawnsAt(c', g, i, a) && a in c'.abandoned ensures GaveUpBefore(cfg, steps, g, n + 1) {
      GaveUpMore(cfg, steps, g, n);
      if a in GivenUpBy(c.head, cfg, steps[n]) {
        GivenUpIsOverdue(cfg, steps, n, c.head, a);
        FiledWhere(c, g, a);
      }
    }
  }

  /** A registration keeps the histories excused. */
  lemma JoinExcuses(cfg: Config, start: nat, steps: seq<Step>, ms: seq<Move>, n: nat, k: nat, c: Cluster)
    requires Good(c) && n < |steps| && k < |ms| && Joining(c, steps[n])
    requires c.head == After(cfg, start, steps[..n]) && Excuses(cfg, start, steps, ms, n, k, c)
    ensures Excuses(cfg, start, steps, ms, n + 1, k + 1, AfterJoin(c, cfg, steps[n]))
  {
    hide Apply, After, AskedBefore, ReapedBefore, GaveUpBefore, RegisteredBefore, AskedAt, Overdue, RejectedIn,
         HeadGood, SidesGood, LinksGood, MetGood, FiledGood, NumbersGood, SpawnsGood, CallsGood, RunningGood, IsOrder;
    JoinsAs(c, cfg, steps[n]);
    var c' := AfterJoin(c, cfg, steps[n]);
    var e := steps[n].event;
    JoinSides(c, c', e);
    JoinFrames(c, c', e);
    hide JoinedAs, ResumeOf;
    forall a | a in c'.killed ensures AskedBefore(cfg, start, steps, a, n + 1) {
      AskedMore(cfg, start, steps, a, n);
      if a in RejectedIn(c.head, e.resume) { RefusedWasAsked(c.head, cfg, e, a); }
    }
    forall r | r in c'.reaped ensures ReapedBefore(cfg, start, steps, r, n + 1) {
      ReapedMore(cfg, start, steps, r, n);
    }
    forall g | RegisteredBefore(steps, g, n + 1) ensures g in c'.joined {
      RegisteredMore(steps, g, n);
    }
    forall g, a | HostsActor(c', g, a) && a in c'.abandoned ensures GaveUpBefore(cfg, steps, g, n + 1) {
      GaveUpMore(cfg, steps, g, n);
    }
    forall g, i: nat, a | SpawnsAt(c', g, i, a) && a in c'.abandoned ensures GaveUpBefore(cfg, steps, g, n + 1) {
      GaveUpMore(cfg, steps, g, n);
    }
  }

  /** Histories, hosts and spawns on their way no more than before. */
  lemma ExcusesLess(cfg: Config, start: nat, steps: seq<Step>, ms: seq<Move>, n: nat, k: nat, c: Cluster, c': Cluster)
    requires n <= |steps| && k < |ms| && Excuses(cfg, start, steps, ms, n, k, c)
    requires c'.killed == c.killed && c'.reaped == c.reaped && c'.joined == c.joined && c'.abandoned == c.abandoned && c'.met == c.met
    requires forall a :: a in c'.broken ==> a in c.broken || (ms[k].Break? && ms[k].actor == a)
    requires forall g, a :: HostsActor(c', g, a) ==> HostsActor(c, g, a) || exists i: nat :: SpawnsAt(c, g, i, a)
    requires forall g, i: nat, a :: SpawnsAt(c', g, i, a) ==> SpawnsAt(c, g, i, a)
    ensures Excuses(cfg, start, steps, ms, n, k + 1, c')
  {
    hide AskedBefore, ReapedBefore, GaveUpBefore, RegisteredBefore;
    forall a | a in c'.broken ensures BrokeBefore(ms, a, k + 1) {
      if a in c.broken {
        var j :| 0 <= j < k && ms[j].Break? && ms[j].actor == a;
        assert j < k + 1;
      }
    }
  }

  /** Moves of an agent alone keep the histories excused. */
  lemma SideExcuses(cfg: Config, start: nat, steps: seq<Step>, ms: seq<Move>, n: nat, k: nat, c: Cluster)
    requires n <= |steps| && k < |ms| && Enabled(c, ms[k]) && !ms[k].HeadMove? && !ms[k].Join?
    requires Excuses(cfg, start, steps, ms, n, k, c)
    ensures Excuses(cfg, start, steps, ms, n, k + 1, Next(c, cfg, ms[k]))
  {
    hide Excuses;
    var c' := Next(c, cfg, ms[k]);
    SideHosts(c, cfg, ms[k]);
    ExcusesLess(cfg, start, steps, ms, n, k, c, c');
  }

  lemma SideHosts(c: Cluster, cfg: Config, m: Move)
    requires Enabled(c, m) && !m.HeadMove? && !m.Join?
    ensures var c' := Next(c, cfg, m);
            (forall g, a :: HostsActor(c', g, a) ==> HostsActor(c, g, a) || exists i: nat :: SpawnsAt(c, g, i, a)) &&
            (forall g, i: nat, a :: SpawnsAt(c', g, i, a) ==> SpawnsAt(c, g, i, a))
  {
    var c' := Next(c, cfg, m);
    if m.Take? && c.head.sent[m.i].msg.Spawn? {
      assert SpawnsAt(c, m.agent, m.i, c.head.sent[m.i].msg.actor);
    }
  }

  lemma BeginsExcused(cfg: Config, start: nat, steps: seq<Step>, ms: seq<Move>, c: Cluster)
    requires Begins(c)
    ensures Excuses(cfg, start, steps, ms, 0, 0, c)
  {
  }

  /** In every joint run whatever the histories excuse was an event. */
  lemma {:induction false} EveryRunExcused(cfg: Config, start: nat, cs: seq<Cluster>, ms: seq<Move>, k: nat)
    requires IsRun(cfg, cs, ms) && cs[0].head == Fresh(start) && k <= |ms| && Clock(StepsOf(ms))
    ensures Excuses(cfg, start, StepsOf(ms), ms, StepCount(ms, k), k, cs[k])
    decreases k
  {
    hide StepsOf, After, Apply, Good, Next, Enabled, Begins, Excuses, Clock, AgentsTell, SaneAt;
    StepsPrefix(ms, k);
    var steps := StepsOf(ms);
    if k == 0 {
      NoStepYet(cfg, start, ms);
      BeginsExcused(cfg, start, steps, ms, cs[0]);
    } else {
      var j := k - 1;
      EveryRunExcused(cfg, start, cs, ms, j);
      EveryRunGood(cfg, cs, ms, j);
      RunAt(cfg, cs, ms, j);
      HeadRuns(cfg, start, cs, ms, j);
      StepAt(ms, j);
      hide IsRun;
      MoveExcuses(cfg, start, steps, ms, StepCount(ms, j), j, cs[j]);
    }
  }

  lemma MoveExcuses(cfg: Config, start: nat, steps: seq<Step>, ms: seq<Move>, n: nat, k: nat, c: Cluster)
    requires Good(c) && Clock(steps) && n <= |steps| && k < |ms| && Enabled(c, ms[k])
    requires ms[k].HeadMove? || ms[k].Join? ==> n < |steps| && steps[n] == ms[k].step
    requires c.head == After(cfg, start, steps[..n]) && forall i :: 0 <= i < n ==> SaneAt(cfg, start, steps, i)
    requires Excuses(cfg, start, steps, ms, n, k, c)
    ensures Excuses(cfg, start, steps, ms, if ms[k].HeadMove? || ms[k].Join? then n + 1 else n, k + 1, Next(c, cfg, ms[k]))
  {
    hide After, Apply, Good, Excuses, Clock, AgentsTell, HeadMoves, Joining, AfterHead, AfterJoin;
    match ms[k]
    case HeadMove(step) =>
      EveryRunTells(cfg, start, steps, n);
      HeadExcuses(cfg, start, steps, ms, n, k, c);
    case Join(step) => JoinExcuses(cfg, start, steps, ms, n, k, c);
    case _ =>
      hide Next, Enabled;
      SideExcuses(cfg, start, steps, ms, n, k, c);
  }

  // ------------------------------------------------------- no false death

  /** No false death. At every point of every run of a head that began empty at time
      `start`, a call still running on an agent is reported finished neither by
      `ref_get` nor by `ref_wait`, provided that before it
      - nobody asked for the actor's death, nor was the actor refused when its agent
        registered, nor did its constructor raise, nor was the call's maker reaped,
      - no sweep found the actor's own agent away for the give-up time, and
      - its agent has registered with this head, or the give-up time since `start` is
        not over.
      All of it is told from the events, and what happens to other agents does not
      matter. */
  lemma NoFalseDeath(cfg: Config, start: nat, cs: seq<Cluster>, ms: seq<Move>, k: nat, now: nat, g: AgentId, a: ActorId,
                     r: RefId, hs: seq<Handle>)
    requires IsRun(cfg, cs, ms) && cs[0].head == Fresh(start) && k <= |ms| && Clock(StepsOf(ms))
    requires Working(cs[k], g, a, r)
    requires var steps, n := StepsOf(ms), StepCount(ms, k);
             !AskedBefore(cfg, start, steps, a, n) && !BrokeBefore(ms, a, k) && !ReapedBefore(cfg, start, steps, r, n) &&
             !GaveUpBefore(cfg, steps, g, n) && (RegisteredBefore(steps, g, n) || now < start + cfg.deadAfterMs)
    ensures GetNow(cs[k].head, cfg, now, CallRef(r)) == Pends
    ensures CallRef(r) !in ReadyOf(cs[k].head, cfg, now, hs)
  {
    var steps, n := StepsOf(ms), StepCount(ms, k);
    hide IsRun, Good, StepsOf, Clock, After, SaneAt, AskedBefore, ReapedBefore, GaveUpBefore, RegisteredBefore, BrokeBefore,
         Answerable;
    EveryRunGood(cfg, cs, ms, k);
    EveryRunExcused(cfg, start, cs, ms, k);
    SinceStart(cfg, start, cs, ms, k);
    RunningPends(cs[k], cfg, now, g, a, r);
    NotReady(cs[k].head, cfg, now, hs, CallRef(r));
  }

  /** The window is the give-up time since the head began. */
  lemma SinceStart(cfg: Config, start: nat, cs: seq<Cluster>, ms: seq<Move>, k: nat)
    requires IsRun(cfg, cs, ms) && cs[0].head == Fresh(start) && k <= |ms|
    ensures forall now: nat :: InWindow(cs[k].head, cfg, now) <==> now < start + cfg.deadAfterMs
  {
    hide IsRun, StepsOf, After, SaneAt;
    HeadRuns(cfg, start, cs, ms, k);
    var steps := StepsOf(ms)[..StepCount(ms, k)];
    SanePart(cfg, start, StepsOf(ms), StepCount(ms, k));
    EveryRunAnswers(cfg, start, steps, |steps|);
    assert steps[..|steps|] == steps;
  }

  lemma SanePart(cfg: Config, start: nat, steps: seq<Step>, n: nat)
    requires n <= |steps| && forall i :: 0 <= i < n ==> SaneAt(cfg, start, steps, i)
    ensures SaneRun(cfg, start, steps[..n])
  {
    forall i | 0 <= i < n ensures SaneAt(cfg, start, steps[..n], i) {
      assert SaneAt(cfg, start, steps, i);
      assert steps[..n][..i] == steps[..i];
    }
  }
}
