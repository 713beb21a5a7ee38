# mentat in Dafny

mentat is a small cluster manager with soft state and no consensus: a head
daemon places groups of GPU bundles and the actors in them, agents host the
actor processes, and a mesh of daemons elects the head. This project models its
logic and proves what its own specification promises, for any number of daemons,
devices, groups and drivers and for runs of any length.

The modules, from the bottom up:

- `Basics`, `Tables`: shared definitions, the head's tables, free devices, first fit.
- `Glob`, `WebSocket`, `EventView`: the name matcher, the frame codec with its incremental parser, the router's patched view.
- `Election`, `Islands`: the elector as a mesh of daemons, fabric islands.
- `Topology`, `Chains`, `Solver`, `Claims`, `Meshes`: probed links, ring and line search, backtracking over sets, claims and rank orders, mesh sets.
- `Placement`, `Placing`, `Fittings`: what a placement pass means, the loops that compute it, and exactly when a group is placed.
- `Head`: every message and timer as a function on the tables.
- `Deaths`, `Safety`, `Rows`, `Runs`: what each step does to devices, no stall, rows and finality over whole runs.
- `Fates`, `Entries`: what becomes of every row in every step and which rows are made, exactly, from events and rows.
- `Answers`, `Absence`: what `ref_get` and `ref_wait` answer over whole runs, when an agent is given up on, and that no running call is reported finished.
- `Sessions`, `Calls`: driver sessions, grace, reaping and claims, and held calls across link losses.
- `Daemon`: the tables as an object changed in place, each method equal to its step in `Head`.
- `Effects`, `Joins`, `Cluster`, `Delivery`, `AgentSide`: the head with its agents, and that hosts are served in order.
- `Devices`: exactly when devices stay in one pair of hands, for a head alone and with its agents.

How the system is rendered:

- Identifiers are natural numbers: the code only compares them. A call's identifier is its actor and a number.
- A device is an agent and an index. Hash maps are walked in an arbitrary order, given to each step as `ord`.
- Time is a natural number. A failed write, a lost link and a process exit are steps or choices of the environment.
- Each message or timer runs to its end before the next, also where the code takes its lock more than once.
- `sent`, `accepted` and `failed` in the tables, and `done`, `gone`, `broken`, `met`, `joined`, `killed`, `abandoned` and `reaped`, and a host's `given` and `early`, in `Cluster`, are history that no decision reads.

In `Cluster` an actor counts as killed when this head asked for its death: by a
kill request, with a replaced or reaped driver, or by refusing it when its agent
registers. It counts as abandoned when a sweep gave up on the agent it was filed
under, and as broken when its constructor raised. A call counts as dropped when
its maker was reaped. `Absence` gives each of these as an event.

What the theorems assume is stated in predicates: `Safety.Sane` (new identifiers
are new), `Calls.Steady` (a connection that failed one call fails the rest),
`Cluster.HeadMoves` and `Cluster.Joining` (reports come from agents and say what
they hold, a link's end is seen after it is cut), and in `Election.Next` the
assumptions of the election's own specification: a daemon that has heard a peer
holds every live daemon's current status before it commits, the boot wait runs out
only alone, and only a daemon that has heard a peer loses a link to a live one.
`Absence.Clock` says that the head's clock does not run back. What agents report of
devices is assumed nowhere: `Safety.Undisputed` is the condition that exclusivity
turns out to need.

Where a promise is false of the code, the code is kept, an input is given and
the exact condition is proved:

- One driver session per group fails for a hello without a session that names another driven group (`Sessions.OneSessionExactly`).
- An agent's return kills an actor inside its owner's grace when the owner has no row (`Sessions.ResumedKilledExactly`).
- A settled head can lose its place while it is up, through a relink to a peer whose row kept the claim of a lower head (`Election.StableHeadStep`, `Election.ReturnTakesHead`).
- A device can be a group's and a live actor's outside the group at once, when an agent brings back an actor whose row the history sweep dropped while its group stands: the new row no longer names the group (`Devices.EveryRunExclusiveExactly`, `Devices.LapseDisputes`).
- A name holding `*` can be rejected by a pattern that matches it (`Glob.DocumentedMeaningExactly`).
- A ring of unequal bundles can be refused though an order exists (`Claims.SolvedExactlyWhenWalked`).
- A fabric of nodes with two tagged addresses can yield no island (`Islands.Prune`: exactly when the chosen ports hold no link).
- A call of a dead actor stays pending when a registration after the death brings it in (`Answers.DeadCallsExactly`, `Answers.LateCallLingers`).
- A mesh set can be refused though nodes have room, when the first choice has a node without an address (`Meshes.MeshSolvedExactly`, `Meshes.UnaddressedIsRefused`).
- A text over 64 MiB does not come through (`WebSocket.SurvivesExactly`).

## Model

| member | source | states |
|---|---|---|
| Absence.NoFalseDeath | rust/mentatd/src/daemon.rs:1776-1888 | No false death over every run of head and agents, told from events alone: a call running on an agent is pending to `ref_get` and absent from `ref_wait`, unless before it somebody asked for its actor's death or the registration refused it, its constructor raised, its maker was reaped, a sweep came the give-up time after the last end of its own agent's link with no registration between, or its agent has not registered and the give-up time since the head began is over |
| Absence.SweepKillsExactly | rust/mentatd/src/daemon.rs:230-304 | Over every run a sweep ends a live actor exactly if its agent's last connection ended, the agent has not registered since, the give-up time since that end has passed, and no earlier sweep came that late |
| Absence.UpExactly | rust/mentatd/src/daemon.rs:3051-3088 | Over every run an agent is up exactly if it has registered and the connection it last registered over has not ended |
| Absence.EveryRunExcused | rust/mentatd/src/daemon.rs:1890-2084 | Over every joint run each excuse on record is an event: a kill asked for, a reap, a raised constructor, or a sweep past the give-up time of the host's own agent |
| Cluster.IdentifiersNeverShared | rust/mentatd/src/daemon.rs:2754-2808 | In every run, give-ups and kills included, the number the next call on a known actor takes belongs to no call running, finished, held or on its way, adopted ones included |
| Cluster.EveryRunGood | rust/mentatd/src/daemon.rs:2688-2878 | The joint invariant of head and agents over every run: what a joined agent runs is filed here, is live and awaited unless its actor was killed, broken or abandoned, and frames on their way name only calls that have not begun |
| Cluster.MoveKeeps | rust/mentatd/src/agent.rs:524-719 | Each move keeps it: any step of the head, registering, reading a frame, a host connecting, writes to a host that fail, a constructor that raises, a result, a resend, an exit, a cut link |
| Cluster.JoinKeeps | rust/mentatd/src/daemon.rs:2652-2923 | A registration keeps it, first or repeated, whatever was lost, held or unsent |
| Cluster.TameExcused | rust/mentatd/src/daemon.rs:1890-1976 | No step of the head ends an awaited call without an excuse: a kill, a give-up on the actor's own agent, a reported exit, raised constructor or result, a reaped maker |
| Cluster.HandedOnce | rust/mentatd/src/daemon.rs:1209-1288 | A call handed over appears in no other frame and in no queue |
| Delivery.HostServedInOrder | rust/mentatd/src/agent.rs:672-712 | In every run, two calls of this head that an actor's host process was given were accepted by the head in that order, across lost links, calls held at either end and failed writes |
| Delivery.MoveInLine | rust/mentatd/src/agent.rs:926-957 | Each move keeps the line of every host: the calls given and then the calls queued, in the order of the frames read |
| AgentSide.AgentShared.Report | rust/mentatd/src/agent.rs:524-550 | The report names every actor with all its pending calls, those that could not be written to its host included, and every unsent result |
| AgentSide.AgentShared.Take | rust/mentatd/src/agent.rs:632-717 | A frame read: the actor entry on spawn, the pending call on dispatch, held at the end of the queue until the host connects, else written to it, and an error answer for an actor not here or a write that fails |
| AgentSide.AgentShared.Connected | rust/mentatd/src/agent.rs:926-957 | The host connects: its queue is written to it in arrival order, and each call that does not go out is answered with an error, sent or buffered |
| AgentSide.AgentShared.Finished | rust/mentatd/src/agent.rs:994-1007 | A result leaves the pending calls and is sent, or buffered while the link is down |
| Calls.HandedOnceInOrder | rust/mentatd/src/daemon.rs:1209-1288 | In every run, two calls handed over for one actor are distinct, accepted, and were accepted in that order, across any number of link losses |
| Calls.EveryRunHandsInOrder | rust/mentatd/src/daemon.rs:2880-2921 | In every run frames and queues carry growing numbers per actor, and calls are held only for an agent away or a connection that failed |
| Joins.NothingLeftBehind | rust/mentatd/src/daemon.rs:2837-2921 | After a registration over a connection that takes every frame, a call of that agent still pending was reported, or was held and has been written to the new connection |
| Calls.WaitingIsFlushed | rust/mentatd/src/daemon.rs:2837-2921 | However many frames the connection takes, a call still pending was reported or is in the list the registration sets out to write |
| Joins.AllFramesOut | rust/mentatd/src/daemon.rs:2880-2921 | A connection that takes every frame is given exactly the kills and then the held calls |
| Calls.DrainsMean | rust/mentatd/src/daemon.rs:2895-2921 | The drained frames are exactly the queued calls of the live actors, each queue in its order |
| Joins.JoinEffects | rust/mentatd/src/daemon.rs:2652-2923 | All a registration does: rows kept or adopted, omitted actors dead, reported calls awaited, lost calls failed, queues of the agent empty |
| Effects.StepTame | rust/mentatd/src/daemon.rs:1890-2084 | In any other step an actor dies only if killed, reported dead or on an agent given up on, and an awaited call ends only by its result, its actor or its reaped maker |
| Runs.EveryRunHolds | rust/mentatd/src/daemon.rs:2101-2171 | Over every run, whatever agents bring back: no stalled group, every actor's agent row and every call's actor row present, numbers unused |
| Devices.EveryRunExclusiveExactly | rust/mentatd/src/daemon.rs:2688-2752 | Over every run devices are in one pair of hands at every point exactly when no registration reports a device twice or brings in an unknown actor on a device a group holds |
| Devices.RegisterExactly | rust/mentatd/src/daemon.rs:2688-2752 | The same of one registration, whatever else it carries |
| Devices.LapseDisputes | rust/mentatd/src/daemon.rs:378-470 | The input, a run from an empty head for every configuration whose grace outlasts the history kept: an actor killed while its agent is away, its row dropped by the history sweep inside its owner's grace, and adopted on its agent's return while its group still holds the device |
| Devices.ExclusiveWithAgents | rust/mentatd/src/daemon.rs:2652-2923 | No double allocation over every run of head and agents, with nothing assumed of what agents bring back, if each reports a device once and no history sweep drops the row of an actor still hosted or about to be |
| Devices.StepOn | rust/mentatd/src/daemon.rs:2101-2171 | A group is only ever placed on an agent that has registered |
| Runs.DeadStaysDead | rust/mentatd/src/daemon.rs:1933-1946 | A dead actor's row never changes again while it lasts |
| Runs.RemovedStaysRemoved | rust/mentatd/src/daemon.rs:1172-1192 | A removed group stays removed while its row lasts |
| Runs.ResolvedStaysResolved | rust/mentatd/src/daemon.rs:2980-2996 | A resolved call keeps its first resolution while its row lasts |
| Runs.UnregisteredNeverReplied | rust/mentatd/src/daemon.rs:1231-1258 | In every run the reply that an actor's agent is not registered is never given |
| Answers.ResultAnswered | rust/mentatd/src/daemon.rs:2980-2996 | Over every run, a result reported while its call is pending is what `ref_get` answers at every later point while the call has its row, as died exactly for an error without a payload, and `ref_wait` counts it |
| Answers.AnswersExactly | rust/mentatd/src/daemon.rs:1808-1832 | Over every run a call is pending exactly until the first step that ends it, and from then on answers what that step says |
| Answers.DeadCallsExactly | rust/mentatd/src/daemon.rs:1959-1969 | Over every run a call of a dead actor is pending exactly if a registration after the death brought it in and nothing has ended it since |
| Answers.DeathEndsCalls | rust/mentatd/src/daemon.rs:1933-1976 | An actor live before a step and dead after it has no pending call left, however it died |
| Answers.LateCallLingers | rust/mentatd/src/daemon.rs:2754-2808 | The input, a run from an empty head: an actor killed while its agent is away, whose agent then reports a call the head does not know, leaves it pending |
| Answers.GroupAnswers | rust/mentatd/src/daemon.rs:1808-1832 | A group's ref answers done exactly while placed, failed exactly while removed, and waits while pending |
| Answers.GroupFailedExactly | rust/mentatd/src/daemon.rs:1808-1832 | Over every run a group's ref answers failed exactly if a step since it was asked for removed it |
| Answers.WaitAgreesWithGet | rust/mentatd/src/daemon.rs:1854-1888 | `ref_wait` counts a handle exactly when `ref_get` would answer it |
| Answers.ReadyExactly | rust/mentatd/src/daemon.rs:1854-1888 | The finished handles are all those counted, in the caller's order, repeats included |
| Answers.UnknownExactly | rust/mentatd/src/daemon.rs:1776-1806 | Over every run an unknown handle is waited for exactly until the give-up time since the head began |
| Fates.GroupsExactly | rust/mentatd/src/daemon.rs:2042-2062 | In every step a group becomes removed exactly when asked to be, when pending past the timeout, or with its own owner's reap, and its row is dropped exactly when removed long enough ago with its owner gone |
| Fates.ActorsExactly | rust/mentatd/src/daemon.rs:1890-1976 | In every step a live actor dies exactly when reported dead, omitted by its agent's registration, on an agent away for the give-up time, or asked to die with its agent down; its row is otherwise kept, and dropped exactly when dead long enough with its owner gone |
| Fates.CallsExactly | rust/mentatd/src/daemon.rs:1933-1976 | In every step a pending call ends exactly by its result, with its actor, or when its agent registers and neither side holds it, and its row is dropped exactly with its reaped maker or its actor's row |
| Entries.AgentsExactly | rust/mentatd/src/daemon.rs:3051-3088 | In every step an agent's row is made, lost, given up on and dropped exactly by its registration, its own connection's end, a sweep past the give-up time, and a history sweep that leaves it no actor |
| Entries.ClientsExactly | rust/mentatd/src/daemon.rs:848-940 | In every step a client's row is made by a hello that is taken and ends with its session or its last connection, its session lasting once opened |
| Entries.PendingExactly | rust/mentatd/src/daemon.rs:1978-2036 | In every step a reap is pending exactly from the close of a session under a grace until that close's own timer, under a token of its own |
| Entries.ClaimsExactly | rust/mentatd/src/daemon.rs:1380-1480 | In every step a client holds a claim exactly by claiming it with an answer, or as before until it is reaped, and a claim keeps its answer while anybody holds it |
| Entries.GroupMadeExactly | rust/mentatd/src/daemon.rs:1078-1136 | A group's row is made exactly by asking for it |
| Entries.ActorMadeExactly | rust/mentatd/src/daemon.rs:1583-1721 | An actor's row is made exactly by a request that can be met, with its bundle's devices and live when its spawn goes out, or by its agent bringing it in |
| Entries.CallMadeExactly | rust/mentatd/src/daemon.rs:1209-1288 | A call's row is made exactly by the next call on a known actor or by the actor's agent reporting it |
| Safety.StepSafe | rust/mentatd/src/daemon.rs:2101-2171 | Every message and timer leaves nothing stalled, and keeps devices exclusive unless a registration disputes one |
| Safety.MadeSafe | rust/mentatd/src/daemon.rs:1606-1681 | An actor created in a bundle shares devices with no other group and stalls nothing |
| Safety.AdoptAllocated | rust/mentatd/src/daemon.rs:2688-2752 | Adopting actors none of which is on a group's device keeps exclusivity |
| Safety.RegisterSafe | rust/mentatd/src/daemon.rs:2652-2923 | A registration ends with nothing stalled, and keeps exclusivity when it disputes no device |
| Safety.ReapSafe | rust/mentatd/src/daemon.rs:2027-2084 | A reap keeps exclusivity and ends with nothing stalled |
| Safety.SweepSafe | rust/mentatd/src/daemon.rs:141-307 | The lifecycle sweep keeps both |
| Rows.StepRows | rust/mentatd/src/daemon.rs:378-470 | Every step keeps rows pointing at rows, and nothing that ended comes back |
| Rows.AdoptRefsMeans | rust/mentatd/src/daemon.rs:2754-2808 | Adopted calls: known ones untouched, new ones pending on this agent's actors, the counter past them all |
| Placement.TryPlaceSettles | rust/mentatd/src/daemon.rs:2101-2171 | A placement pass, in any map order, leaves no waiting group of equal bundles that fits, and keeps exclusivity |
| Placement.PlaceTakes | rust/mentatd/src/daemon.rs:2315-2357 | Every placement takes the right number of free devices of an agent, none twice |
| Placement.GrantKeeps | rust/mentatd/src/daemon.rs:2145-2158 | Granting them keeps every device in one pair of hands |
| Placement.FitsLess | rust/mentatd/src/state.rs:508-532 | What does not fit does not fit when less is free |
| Placement.NotPlacedNotFits | rust/mentatd/src/daemon.rs:2101-2171 | A waiting group that a pass leaves does not fit the group's live agents |
| Placement.FirstOnDriver | rust/mentatd/src/daemon.rs:2309-2357 | Bundle 0 lands on the driver's node when an agent in scope there has room |
| Placement.OrderedPlacement | rust/mentatd/src/daemon.rs:2370-2496 | End to end for a solved ring or line claim: bundle i on rank i of the turned or reversed order, rank 0 on the driver's node, each rank's variables naming the best unforwarded link to the ranks before and after |
| Placement.ClaimFence | rust/mentatd/src/daemon.rs:2196-2239 | A group under a claim is placed only on the claim's nodes |
| Placement.IslandFence | rust/mentatd/src/daemon.rs:2189-2307 | A group of two or more bundles whose nodes claim a fabric is placed inside one island, or on one node, that alone had enough free |
| Placement.ScopesBestFirst | rust/mentatd/src/daemon.rs:2253-2307 | The scopes of such a group are the sufficient ones, the driver's first, then the smallest |
| Fittings.PlacedAnywhere | rust/mentatd/src/daemon.rs:2315-2357 | A group of equal bundles bound to no claim and no fabric is placed exactly when its bundles fit what the group's live agents have free |
| Fittings.PlacedOnFabric | rust/mentatd/src/daemon.rs:2189-2307 | One on a fabric exactly when they fit inside one island, or on one node of none |
| Fittings.PlacedOnBest | rust/mentatd/src/daemon.rs:2253-2307 | Of the islands and lone nodes it fits on it gets the driver's if that is one, and a smallest among those as near to the driver |
| Fittings.PlacedUnderClaim | rust/mentatd/src/daemon.rs:2196-2239 | One under a claim without rank order exactly when the group serves every node of the claim and they fit there |
| Fittings.PlacedInRanks | rust/mentatd/src/daemon.rs:2452-2496 | One under a solved ring or line claim, of any bundles, exactly when the driver is not strictly inside a line, the bundles match the ranks, and each rank's node has an agent with room |
| Fittings.PassPlacesAll | rust/mentatd/src/daemon.rs:2101-2171 | After a placement pass, in any map order, no such group is pending that has a place |
| Tables.FirstFitComplete | rust/mentatd/src/daemon.rs:2315-2357 | First fit of equal bundles fails only when no assignment of hosts fits |
| Tables.FirstFitMissesUnequal | rust/mentatd/src/daemon.rs:2338-2356 | Unequal bundles: an input where first fit fails and a fit exists |
| Tables.DrawIsDrawn | rust/mentatd/src/daemon.rs:2338-2356 | Drained lists give bundles of the right size, from the right lists, with no device twice |
| Placing.FreeGpusOf | rust/mentatd/src/state.rs:508-532 | Filtering by group and by live actor leaves exactly the devices nobody holds |
| Placing.DrainBundles | rust/mentatd/src/daemon.rs:2338-2356 | The draining loop computes first fit |
| Placing.FitScope | rust/mentatd/src/daemon.rs:2315-2357 | Candidates in order, then first fit over their free lists |
| Placing.FitOrdered | rust/mentatd/src/daemon.rs:2452-2496 | Rank by rank over one shared set of free lists |
| Placing.PlacementScopes | rust/mentatd/src/daemon.rs:2189-2307 | The scopes tried: a claim's nodes, the sufficient islands and lone nodes best first, or anywhere |
| Placing.FindPlace | rust/mentatd/src/daemon.rs:2108-2149 | Where a pending group goes, ordered claims first |
| Daemon.Shared.constructor | rust/mentatd/src/state.rs:408-444 | A fresh head: every table empty, every counter at its start |
| Daemon.Shared.Handle | rust/mentatd/src/daemon.rs:993-1349 | Any message or timer changes the tables as specified, keeps the invariant of every run, and keeps devices exclusive when it disputes none |
| Daemon.Shared.PlacePending | rust/mentatd/src/daemon.rs:2101-2171 | The pass over pending groups |
| Daemon.Shared.MarkActorDead | rust/mentatd/src/daemon.rs:1933-1976 | Dead once: the row, the held calls, the fan-out to pending calls, a placement pass |
| Daemon.Shared.KillOne | rust/mentatd/src/daemon.rs:1890-1931 | A kill frame when the agent is up, death at once when it is down |
| Daemon.Shared.CreateGroup | rust/mentatd/src/daemon.rs:1078-1136 | A pending group with no bundle placed, then a pass |
| Daemon.Shared.RemoveGroup | rust/mentatd/src/daemon.rs:1172-1192 | Removed, known or not a pass follows |
| Daemon.Shared.MakeActor | rust/mentatd/src/daemon.rs:1583-1721 | The checks in order, the row, the spawn frame, and death when it does not go out |
| Daemon.Shared.TakeCall | rust/mentatd/src/daemon.rs:1209-1288 | A call: numbered first, then refused, failed, held or sent |
| Daemon.Shared.TakeHold | rust/mentatd/src/daemon.rs:1380-1446 | A claim: the held answer for one shape, refusal for another, else solved |
| Daemon.Shared.ReleaseAll | rust/mentatd/src/daemon.rs:1450-1480 | Every hold of a client dropped, claims with their last holder |
| Daemon.Shared.TakeHello | rust/mentatd/src/daemon.rs:848-940 | The duplicate check, the row, then the orphans |
| Daemon.Shared.ReapClient | rust/mentatd/src/daemon.rs:1978-2020 | The row at once, the resources now or under a new token |
| Daemon.Shared.ReapResources | rust/mentatd/src/daemon.rs:2027-2084 | A reap under its token |
| Daemon.Shared.CloseOther | rust/mentatd/src/daemon.rs:977-991 | A connection without a session takes its row with it |
| Daemon.Shared.RegisterAgent | rust/mentatd/src/daemon.rs:2652-2923 | The whole registration, loop by loop |
| Daemon.Shared.AdoptCalls | rust/mentatd/src/daemon.rs:2754-2808 | Reported calls in order |
| Daemon.Shared.FailLostCalls | rust/mentatd/src/daemon.rs:2837-2878 | Calls neither side holds fail |
| Daemon.Shared.LinkEnded | rust/mentatd/src/daemon.rs:3051-3088 | Only the connection on the row counts |
| Daemon.Shared.SpawnReported | rust/mentatd/src/daemon.rs:2939-2979 | Running once, or dead |
| Daemon.Shared.ResultReported | rust/mentatd/src/daemon.rs:2980-2996 | First resolution wins |
| Daemon.Shared.TimeOutGroups | rust/mentatd/src/daemon.rs:176-206 | Pending groups past the timeout are removed |
| Daemon.Shared.CollectGivenUp | rust/mentatd/src/daemon.rs:230-247 | Agents away past the give-up time, once each |
| Daemon.Shared.GiveUpOn | rust/mentatd/src/daemon.rs:269-304 | Their live actors die |
| Daemon.Shared.DropHistory | rust/mentatd/src/daemon.rs:378-470 | Finished rows of owners gone, long-lost agents, and the calls of dropped actors |
| Daemon.Shared.Tick | rust/mentatd/src/daemon.rs:141-307 | One tick of the sweeper |
| Daemon.Shared.GetPass | rust/mentatd/src/daemon.rs:1808-1852 | `ref_get` answers, or waits when pending or unknown inside the window |
| Daemon.Shared.WaitPass | rust/mentatd/src/daemon.rs:1854-1888 | `ref_wait` answers with the finished handles in order, capped, when enough or out of time |
| Sessions.OneSessionExactly | rust/mentatd/src/daemon.rs:850-899 | A step keeps one session per group exactly when it is not a hello without a session that moves a driver's row into a group another drives |
| Sessions.EveryRunOneSession | rust/mentatd/src/daemon.rs:850-899 | Without such hellos every run keeps one session per group |
| Sessions.SessionCanMove | rust/mentatd/src/daemon.rs:896-899 | The input that gives a group two sessions |
| Sessions.PendingIsLatest | rust/mentatd/src/daemon.rs:1995-2020 | In every run a pending reap holds the token of the client's latest disconnect |
| Sessions.StaleTimerDoesNothing | rust/mentatd/src/daemon.rs:2027-2036 | In every run the timer of an earlier disconnect changes nothing |
| Sessions.ReapKillsExactly | rust/mentatd/src/daemon.rs:2027-2078 | A reap kills exactly the live actors of a client that has no session under the latest token |
| Sessions.ReapTakesAll | rust/mentatd/src/daemon.rs:2027-2084 | A reap that goes ahead leaves the client no claim, no group and no call |
| Sessions.SessionKillsExactly | rust/mentatd/src/daemon.rs:805-814 | A new session kills exactly the actors whose owner has neither a session nor a pending reap |
| Sessions.ResumedKilledExactly | rust/mentatd/src/daemon.rs:2688-2708 | When an agent registers with a live actor known here, over a connection that takes every frame, a kill of it is written exactly when its owner has no row, pending reap or not |
| Sessions.BlipInGraceKills | rust/mentatd/src/daemon.rs:2688-2708 | The input, a run from an empty head for every configuration with a grace: an actor adopted, its driver's session opened and closed, the agent's link lost and back, and a kill written for the actor inside its owner's grace |
| Sessions.ClaimsKeepTheirAnswer | rust/mentatd/src/daemon.rs:1380-1480 | A held claim keeps its shape, answer and number, and always has a holder |
| Claims.RingAndLineComplete | rust/mentatd/src/claim.rs:408-445 | One ring of equal bundles, or one line of any, is solved exactly when a cabled order of distinct nodes with room exists |
| Claims.SolvedExactlyWhenWalked | rust/mentatd/src/claim.rs:408-445 | For any bundles: solved exactly when a valid order exists that, in a ring, starts at its least node |
| Claims.UnequalRingIsMissed | rust/mentatd/src/claim.rs:420-436 | An unequal ring with a valid order that is refused |
| Meshes.MeshComplete | rust/mentatd/src/claim.rs:336-395 | With addresses everywhere, one mesh set is solved exactly when nodes of rising ids, or in the order of one island for a fabric set, have room for its bundles in turn |
| Meshes.MeshOfEqual | rust/mentatd/src/claim.rs:336-395 | For equal bundles over any links, exactly when so many distinct nodes have room |
| Meshes.MeshSolvedExactly | rust/mentatd/src/claim.rs:476-555 | For any topology: exactly when the first such choice exists and each of its nodes has an address to bind |
| Meshes.UnaddressedIsRefused | rust/mentatd/src/claim.rs:476-555 | An input refused although another node has both room and an address |
| Meshes.MeshCandidates | rust/mentatd/src/claim.rs:336-395 | A mesh set has a candidate, whatever is taken, exactly when some list has places for it, and the first is the earliest places of the first such list |
| Claims.SolutionIsSound | rust/mentatd/src/claim.rs:506-563 | Every answer: right sizes, disjoint nodes with room, fabric mesh sets in one island, cabled rings and lines, every between entry met by its least link |
| Claims.SolveClaim | rust/mentatd/src/claim.rs:506-563 | `solve`, checks, search and answer |
| Claims.FabricSetsFirst | rust/mentatd/src/claim.rs:525-530 | The sets are searched fabric sets first, each kind by name |
| Claims.RanksKeepNeighbours | rust/mentatd/src/daemon.rs:2396-2420 | Turning a ring or reversing a line keeps every neighbour |
| Claims.RankZeroOnDriver | rust/mentatd/src/daemon.rs:2396-2415 | Rank 0 on the driver's node when held, refused exactly for a driver strictly inside a line |
| Claims.RanksAreTurnedOrReversed | rust/mentatd/src/daemon.rs:2396-2415 | The rank order is the solved order turned or reversed |
| Solver.SearchIsExact | rust/mentatd/src/claim.rs:565-595 | Backtracking finds an answer exactly when some sequence of candidate choices meets every between entry |
| Solver.Searcher.Run | rust/mentatd/src/claim.rs:565-595 | The search in place, `chosen` and `taken` restored on failure |
| Solver.FindCandidates | rust/mentatd/src/claim.rs:336-395 | The candidate sets of one set |
| Solver.CandidatesFit | rust/mentatd/src/claim.rs:336-395 | Every candidate has the right size, distinct free nodes with room, and its layout's shape |
| Solver.FindBetween | rust/mentatd/src/claim.rs:597-622 | The least link for each between entry |
| Solver.PathsBetweenMeans | rust/mentatd/src/claim.rs:597-622 | All entries are met exactly when a link exists for each, and each is the least by (rtt, from, to) |
| Solver.MeetsIsLeast | rust/mentatd/src/claim.rs:597-622 | An entry's link has the least round trip between the two sets, then the least ids |
| Chains.Walker.Run | rust/mentatd/src/claim.rs:408-445 | The walk in place, the chain restored |
| Chains.WalkIsExact | rust/mentatd/src/claim.rs:408-445 | Up to its cap the walk yields only valid orders, and yields one when one exists |
| Chains.LeastStartIsEnough | rust/mentatd/src/claim.rs:420-436 | A ring of equal bundles loses nothing by starting at its least node |
| Topology.FindPath | rust/mentatd/src/claim.rs:189-223 | The loop over port pairs |
| Topology.BestPathIsBest | rust/mentatd/src/claim.rs:189-223 | A path exists exactly when a port pair serves, and it is the least |
| Topology.BestPathExactly | rust/mentatd/src/claim.rs:189-223 | Two nodes have a best link exactly when some pair of their ports was probed, is tagged at both ends for a fabric link, and for a cable is forwarded by nobody |
| Topology.BestPathIsLeast | rust/mentatd/src/claim.rs:189-223 | It has the least round trip, then the least local address, then the least remote |
| Topology.LinkedBothWays | rust/mentatd/src/claim.rs:172-187 | A link serves in both directions |
| Election.StableHead | rust/mentatd/src/mesh.rs:789-882 | Over every run in which a settled head stays up and no peer is relinked whose row kept the claim of a lower head, it stays settled |
| Election.StableHeadStep | rust/mentatd/src/mesh.rs:789-882 | A step keeps a settled head settled exactly when it is not such a relink, and no boot, other crash, link, push, lost link, forgotten row or commit moves a daemon off it |
| Election.RelinkTakesHead | rust/mentatd/src/mesh.rs:516-554 | Every such relink of a daemon in the mesh can cost the head its place: the peer goes down again before it pushes a status, and a hold-down later the daemon has left a head that is up |
| Election.ReturnTakesHead | rust/mentatd/src/mesh.rs:516-554 | The input, a run of two daemons from an empty mesh for every configuration: the old head comes back and goes again, and the live head hands over to the one that is down |
| Election.CommitLowers | rust/mentatd/src/mesh.rs:858-882 | In a meshed live set every commit strictly lowers the committing daemon's head |
| Election.CommitsAreFinite | rust/mentatd/src/mesh.rs:789-847 | At most the square of the live set's size commits in every run |
| Election.RestIsAgreement | rust/mentatd/src/mesh.rs:789-882 | When no commit is enabled under current statuses, all follow one live head |
| Election.BootWaitIsNeeded | rust/mentatd/src/mesh.rs:783-816 | Electing before hearing anyone would take the head from a live one |
| Election.CommitIsCandidate | rust/mentatd/src/mesh.rs:817-847 | A commit is of the candidate watched for the whole hold-down |
| Election.TwoTicks | rust/mentatd/src/mesh.rs:817-847 | A daemon whose wait is over follows its candidate by the second of two ticks a hold-down apart |
| Election.Elector.HeadCandidate | rust/mentatd/src/mesh.rs:858-882 | The least live head claimed, else the least live id |
| Election.Elector.OnTick | rust/mentatd/src/mesh.rs:789-847 | One tick, with the generation counting changes |
| Islands.FindIslands | rust/mentatd/src/island.rs:105-177 | Each island is whole, no port is in two, and each component that keeps a link is served |
| Islands.Component | rust/mentatd/src/island.rs:115-128 | The walk finds exactly the connected component |
| Islands.ComponentIsExact | rust/mentatd/src/island.rs:81-84 | A component holds exactly the ports a walk reaches |
| Islands.ChoosePorts | rust/mentatd/src/island.rs:129-139 | One port per node, the best connected |
| Islands.ChosenJoinsMost | rust/mentatd/src/island.rs:129-139 | A node's chosen port joins most others of the component, the lowest address among equals |
| Islands.Prune | rust/mentatd/src/island.rs:140-162 | Pruning ends in a clique, of two or more exactly when the chosen ports held a link |
| Islands.DropKeepsLink | rust/mentatd/src/island.rs:140-162 | Dropping the least connected port of a set that is not whole loses no last link |
| Islands.OneAddressKeepsFabric | rust/mentatd/src/island.rs:129-165 | With one tagged address per node every linked pair's component yields an island |
| Islands.TwoAddressesCanLoseFabric | rust/mentatd/src/island.rs:129-139 | With two addresses a linked component can yield none |
| Islands.Ports | rust/mentatd/src/island.rs:68-79 | The tagged ports in order, each once when no node lists an address twice |
| EventView.ViewIsFold | rust/mentatd-serve/src/main.rs:1565-1671 | After any mix of frames and re-reads from one process the view is the last snapshot with the later events applied once each in order |
| EventView.DaemonView.ApplyFrame | rust/mentatd-serve/src/main.rs:1565-1617 | One frame: snapshot, foreign, stale, gap or next, and nothing changed unless it applied |
| EventView.DaemonView.ApplyPatch | rust/mentatd-serve/src/main.rs:1653-1671 | Every entry lands or none does |
| EventView.DaemonView.Reread | rust/mentatd-serve/src/main.rs:1540-1543 | A re-read anchors the stream at the snapshot's own number |
| EventView.PatchAppliesExactly | rust/mentatd-serve/src/main.rs:1624-1649 | A path applies exactly when it is non-empty strings through objects |
| EventView.PatchStores | rust/mentatd-serve/src/main.rs:1624-1649 | A stored value is read back at its path, a removed one is gone, other paths keep theirs |
| Glob.GlobMatch | rust/mentatd/src/announce.rs:332-355 | The loop ends and decides exactly the meaning it has, literal stars first |
| Glob.DocumentedMeaningExactly | rust/mentatd/src/announce.rs:325-355 | It agrees with the recursive meaning of `*` and `?` on all patterns exactly for names without `*` |
| Glob.TrapDisagrees | rust/mentatd/src/announce.rs:332-355 | For each name with a `*`, a pattern on which it differs |
| Glob.AcceptsIsSound | rust/mentatd/src/announce.rs:332-355 | It never accepts what the recursive meaning rejects |
| Glob.MatchSpec | rust/mentatd/src/announce.rs:357-365 | The first entry whose pattern matches |
| WebSocket.RoundTrip | rust/mentatd-serve/src/ws.rs:76-152 | Texts and pings framed, split into any chunks and parsed after each, give back exactly the texts with nothing left |
| WebSocket.SurvivesExactly | rust/mentatd-serve/src/ws.rs:139-144 | A stream comes through exactly when every text is at most 64 MiB |
| WebSocket.SendText | rust/mentatd/src/http.rs:342-358 | The frame of a text, by the three length forms of section 5.2 of RFC 6455 |
| WebSocket.EventStream.TryParse | rust/mentatd-serve/src/ws.rs:110-152 | One frame off the buffer, or more bytes needed, or an error |
| WebSocket.EventStream.Receive | rust/mentatd-serve/src/ws.rs:76-108 | The next text, reading chunks as needed, pings passed over, an error on a close frame or the end of the stream |
| WebSocket.EventStream.Drain | rust/mentatd-serve/src/ws.rs:76-108 | `next` until nothing is left |
| WebSocket.Deliver | rust/mentatd-serve/src/ws.rs:76-108 | A whole stream through the buffer in chunks |
| WebSocket.FrameParses | rust/mentatd-serve/src/ws.rs:110-152 | A whole frame parses to itself, whatever follows |
| WebSocket.PrefixWaits | rust/mentatd-serve/src/ws.rs:110-152 | A part of a frame waits for more |
| WebSocket.OversizeFails | rust/mentatd-serve/src/ws.rs:139-144 | A frame past the limit fails |

## Left out

- Sockets, threads, condition variables, process spawning, interface probing, keepalive and the wire format of messages: environment.
- Interleavings inside a step that takes its lock several times, and the agent's races between its reader and its unsent buffer.
- Head changes: relaying, `head_moved` and a head that comes back. A head here begins with empty tables.
- Tables.FirstFitComplete: equal bundles only, since first fit does miss unequal ones (`Tables.FirstFitMissesUnequal`).
- Placement.TryPlaceSettles: groups confined to an island or placed under a claim are outside the no-stall promise over runs, because losing a tagged agent and solving a claim run no placement pass. `Fittings.PassPlacesAll` covers them at the end of a pass.
- Claims.RingAndLineComplete: one set and no between entry, as the source promises it. For several sets `Solver.SearchIsExact` is relative to each set's candidates, which the walk caps at 32.
- Islands.FindIslands: does not state that an island is as large as it could be, because pruning is greedy and does not promise it.
- EventView.DaemonView.ApplyPatch: the cursor edit inside the JSON tree is modelled on values, so sharing between the staged copy and the stored tree is not captured.
- Topology, claim shapes and names arrive parsed: reading them off the peers' tables and off JSON, and the refusal of an empty claim name, are not modelled.
- The GPU vendor the solver records, reasons and error texts, the degraded flag, counters, metadata, event emission and status rows.
- The environment variables of a rank other than its layout and its neighbours' addresses and interfaces.
- `actor_stop` is a series of kills, and `pg_table`, `nodes`, `resources` and `available` only read the tables.
- Refused agents (misfiled nodes), node identity and address derivation.
- The Python shim, the MCP merge, HTTP proxying, the status page, the CLI and configuration parsing.
