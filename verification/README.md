# Verification of shared-ws

A Dafny model of the `shared-ws` crate's two managed client loops, its managed
server and the policies they drive, with proofs about every run.

**Client** (`src/ws/managed.rs`). A `World` is an arbitrary endpoint handler,
socket and reconnect strategy, each answer a function of everything that happened
before; a schedule is any sequence of connect results, commands, inbound frames,
ticks and elapsed waits. `ClientLoop` gives both loops as step functions over a
state and a trace of every handler call, frame write and status store.
`ClientRuntime` and `ClientHealthRuntime` are the loops as classes with mutable
fields and nested loops; they follow the step functions and end in states that
satisfy the laws. `ClientInvariant`
holds what each step keeps, `ClientReadings` says what the monitors over the
trace mean, `ClientTheorems`, `ClientRefinement` and `ClientHeartbeat` hold results
about whole runs. `ClientConduct` is the whole protocol as an automaton that knows
nothing of the loops' variables and accepts one observation at a time; both loops
keep to it on every schedule. `ClientConsequences` reads off it, over the trace
alone, what each event leads to; `ClientCounters` does so for the health monitor.

**Server** (`src/ws/server/`). `ServerLifecycle` is the server task,
`ServerConnection` one connection task, and `ServerInterleaving` runs one server
task, any number of connections, `dispatch` callers (one move per atomic read),
status waiters and the shutdown request in every order. The `select!` priorities
are dropped: any ready branch may be taken, so more behaviours are covered than
the code has. Contracts of the runtime used: the broadcast channel is a log that
grows only while a receiver exists, a receiver has a position, and it is told
`Lagged` exactly when more than `capacity` commands lie ahead of it; a finished
or aborted task releases its slot and its receiver and becomes joinable in one
move. `ServerRuntime`, `ServerConnectionRuntime`, `ServerHandle` and `FrameBatch`
are the same code over mutable state.

**Policies.** `ProtocolPing`, `ApplicationPing`, `CircuitBreaker`, `Reconnect`,
`CircularBuffer`, `HealthMonitor`, `Utf8` and `JsonRpcId`: each stateful or fast
form against a specification over its history. Durations are natural numbers,
except the client backoff, which is over the reals.

## Findings

Each is a lemma with a concrete input or an exact condition.

- A session mode that changes between connections lets new commands overtake
  queued ones; order is kept where no command arrives in an authenticated session
  with a non-empty queue, and for distinct commands only there
  (`OvertakingHappens`, `NoOvertakingKeepsOrder`, `InOrderIffNoOvertaking`).
- A command that arrives during a backoff wait is consumed and never sent, and
  only such a command is (`CommandLostInWait`, `LostIffWaiting`).
- A heartbeat catches an unanswered ping at the next tick exactly when that tick
  comes more than the pong timeout after the ping; ticks within the timeout of
  each other never detect a dead peer (`NextTickCatchesIffUnanswered`,
  `CloseTicksNeverAlarm`).
- A reused application ping key can raise a false alarm; the cached time is right
  exactly when the key did not replace the only oldest ping
  (`ReusedKeyRaisesFalseAlarm`, `ExactIffHarmless`).
- A backoff base above the maximum is handed out once before the cap applies
  (`RisesToMaxIffBaseBelow`).
- After a handler sends a Close frame as an ordinary reply, the transport can hand
  its own close frame to the socket as well (`SentCloseCanBeDoubled`); without
  such a reply at most one is handed over (`OneCloseFrame`). What the socket
  library does with a second one is not part of this model.
- A lost listener is rebound exactly when `max_attempts` is not one; at one, the
  first loss ends the server without a rebind (`LossIsRetriedIff`,
  `OneAttemptMeansNoRebind`).

Where documentation and code differ the model follows the code:
`src/ws/server/types.rs:82-84` says a close frame returned for the `Closed` event
is honoured, but `src/ws/server/runtime.rs:605` drops the reply;
`src/ws/server/handle.rs:75-78` speaks of one retained command per connection,
but the channel is created with `retained_commands_per_client`
(`src/ws/server/runtime.rs:112`); the documents that describe a WebSocket actor,
delegated-request deduplication and a latency policy have no code behind them
here.

## Model

| member | source | states |
|---|---|---|
| `ClientTheorems.EveryPlainRun` | src/ws/managed.rs:295-523 | every run of the plain loop, for any handler, socket and strategy: every command received is attempted once, still queued, an obeyed control command, or was consumed by a wait; order is kept where nothing overtakes, and always under one session mode; a failed attempt is last in its session and each wait consumes at most one command; writes are guarded and replays carry the listed subscriptions in order; notifications are regular; the status is Disconnected on return; backoff delays are the closed form |
| `ClientTheorems.EveryHealthRun` | src/ws/managed.rs:525-848 | the same laws for every run of the health-checked loop, for any ping strategy and staleness threshold |
| `ClientTheorems.ExecutionKeepsCommandLaws` | src/ws/managed.rs:407-522 | the command laws hold of any sequence of sound steps, so once for both loops |
| `ClientTheorems.ExecutionKeepsTraceLaws` | src/ws/managed.rs:309-522 | the same for the laws of the trace |
| `ClientTheorems.PlainExecution` | src/ws/managed.rs:309-522 | all states of the plain loop along any schedule, each the run of its prefix, form such a sequence |
| `ClientTheorems.HealthExecution` | src/ws/managed.rs:544-847 | the same for the states of the health-checked loop |
| `ClientTheorems.CommandsConserved` | src/ws/managed.rs:407-522 | commands received == attempted + queued + control commands obeyed + consumed by a wait, as multisets; commands taken for sending == attempted + queued (instantiated at both loops' states by EveryPlainRun and EveryHealthRun) |
| `ClientTheorems.StepConserves` | src/ws/managed.rs:850-903 | one step adds exactly the command it was given to exactly one of those fates |
| `ClientTheorems.FixedModeKeepsOrder` | src/ws/managed.rs:381-383 | with one session mode for the run: (attempted ++ queued) equals the order taken, an authenticated session has an empty queue, nothing overtakes |
| `ClientTheorems.NoOvertakingKeepsOrder` | src/ws/managed.rs:407-460 | with modes that may change: where no command arrives in an authenticated session with a non-empty queue, order is kept, equal commands included |
| `ClientTheorems.InOrderIffNoOvertaking` | src/ws/managed.rs:407-460 | and for distinct commands only there |
| `ClientTheorems.LostIffWaiting` | src/ws/managed.rs:889-903 | after any run, a command to send is consumed unsent if and only if it is received during a wait, and taken by a session if and only if one is open |
| `ClientTheorems.CommandLostInWait` | src/ws/managed.rs:901 | a concrete run in which a command received during a backoff wait is never attempted |
| `ClientTheorems.OvertakingHappens` | src/ws/managed.rs:381 | a concrete run in which the mode changes between connections and a later command is attempted before a queued one |
| `ClientTheorems.AttemptsAndWaits` | src/ws/managed.rs:889-903 | a failed attempt is the last of its session; nothing is consumed but by a non-zero wait under way, and at most one command by each |
| `ClientTheorems.WritesGuardedAndNotificationsRegular` | src/ws/managed.rs:224-262 | no replay or command frame before authorisation in its own session; every replay frame carries the bytes serialized for the next listed subscription; no command frame before all listed ones were written; notifications are (Open? Lost(true))* then nothing, Open, or Open? Lost(false); Open says reconnect exactly after the first attempt |
| `ClientTheorems.StatusFollowsPhase` | src/ws/managed.rs:309-522 | Connecting while dialling, Connected in a session, Disconnected while waiting and after every return |
| `ClientTheorems.BackoffThroughTheLoop` | src/ws/managed.rs:207-222 | with an exponential strategy the delay drawn after k others since the last successful connect is term k, whatever immediate reconnects lie between |
| `ClientReadings.GateGuards` | src/ws/managed.rs:249-286 | the write monitor's verdict means, over the trace alone: authorised in this session, each replay frame the next listed subscription's, command frames only after the last of them |
| `ClientReadings.LifeIsRegular` | src/ws/managed.rs:224-233 | the lifecycle monitor's verdict means the notification grammar and the right reconnect flags |
| `ClientConduct.EveryPlainRunConducted` | src/ws/managed.rs:295-523 | every run of the plain loop keeps to one protocol of handler calls, socket writes, status stores and strategy calls, for any handler, socket and strategy: nothing out of turn, nothing left out, every answer the world's own; between steps the duty is that of the phase, the queue and the authentication are the loop's, and the events that reached it are exactly those the schedule gave it |
| `ClientConduct.EveryHealthRunConducted` | src/ws/managed.rs:525-848 | the same for every run of the health-checked loop; the heartbeat frames written are, in order, exactly the pings made and the answers due in the strategy's history |
| `ClientConduct.StepConduct` | src/ws/managed.rs:309-522 | one step of the plain loop keeps to the protocol and hears exactly the event it was given |
| `ClientConduct.HealthStepConduct` | src/ws/managed.rs:544-847 | the same for the health-checked loop, and it writes exactly the heartbeat frames its own call of the strategy made |
| `ClientConduct.FrameConduct` | src/ws/managed.rs:235-247 | a frame is shown to the outbound hook and written next; a failure is owed its own loss |
| `ClientConduct.ItemsConduct` | src/ws/managed.rs:249-286 | the listed subscriptions are serialized and written in order, up to the first failure |
| `ClientConduct.ReplayConduct` | src/ws/managed.rs:249-262 | a replay lists, then writes; done, the session goes on, or the connection is lost in the context it was in |
| `ClientConduct.AttemptConduct` | src/ws/managed.rs:850-868 | a command writes exactly its own frames and reports exactly its own result; a failure is owed a loss with the command's context |
| `ClientConduct.DrainConduct` | src/ws/managed.rs:870-887 | the queue is carried out in order; the rest stays queued after a failure, which is owed a loss as a pending command |
| `ClientConduct.ChooseConduct` | src/ws/managed.rs:207-222 | abort promises nothing, an immediate reconnect zero; a backoff asks the strategy, and promises the delay drawn if it would retry and nothing otherwise |
| `ClientConduct.DepartConduct` | src/ws/managed.rs:224-233 | a loss is classified, decided, notified as decided, with the status stored before or after as the cause demands |
| `ClientConduct.LeaveConduct` | src/ws/managed.rs:507-521 | after it: a stop without a promise, a wait of the promised delay, or a new attempt |
| `ClientConduct.OpenConduct` | src/ws/managed.rs:347-405 | a connection is opened in the code's order; a failed authentication or replay loses it, anything else leaves a session in the right mode |
| `ClientConduct.CommandConduct` | src/ws/managed.rs:409-431 | a command is queued, carried out, obeyed or ends the loop, as its kind and the session's mode say |
| `ClientConduct.OutcomeConduct` | src/ws/managed.rs:436-492 | what was parsed decides: replay and drain, write, hand over, lose the connection, stop, or go on; a server error loses it unless the handler says continue |
| `ClientConduct.WaitConduct` | src/ws/managed.rs:889-903 | a wait ends in a new attempt, or in the end of the loop on a shutdown or a closed channel |
| `ClientConduct.BeatConduct` | src/ws/managed.rs:689-718 | a heartbeat frame due is written; a failed write loses the connection in the context of a ping or of an answer |
| `ClientConduct.TickConduct` | src/ws/managed.rs:682-701 | a tick loses the connection to an overdue pong, then to stale data, and otherwise writes exactly the ping made |
| `ClientConduct.ExamineConduct` | src/ws/managed.rs:702-731 | a frame is answered, taken as a pong, ends the session as an invalid pong, or is parsed |
| `ClientConsequences.EveryPlainRunCourteous` | src/ws/managed.rs:295-523 | the trace of every run of the plain loop, in plain terms: a loss is classified with a cause if and only if the observation before (a status store aside) calls for exactly that cause; after a backoff decision the strategy is asked, drawn from if and only if it would retry, and otherwise the loss is notified as final; every frame is written as shown; no loss called for is left open |
| `ClientConsequences.EveryHealthRunCourteous` | src/ws/managed.rs:525-848 | the same for every run of the health-checked loop |
| `ClientConsequences.LostIffCalledFor` | src/ws/managed.rs:320-505 | along a kept trace the connection is due to be lost, with this cause, if and only if the last observation calls for it: failed connects, writes, attempts and messages in their contexts, server errors not to be continued, reconnect requests, read errors, the stream's end, overdue and invalid pongs, stale data |
| `ClientConsequences.ConductIsCourteous` | src/ws/managed.rs:207-286 | a trace that keeps to the protocol obeys that law |
| `ClientConsequences.NoRetryNoDraw` | src/ws/managed.rs:207-222 | a strategy that never retries is never drawn from |
| `ClientConsequences.ShutdownEndsTheLoop` | src/ws/managed.rs:409-414 | whatever came before and whatever follows: a shutdown command or the end of the command channel, in a session or in a wait, ends the plain loop for good |
| `ClientConsequences.ShutdownEndsTheHealthLoop` | src/ws/managed.rs:657-663 | the same for the health-checked loop |
| `ClientConsequences.WaitEnds` | src/ws/managed.rs:889-903 | after any run a wait ends in a new attempt on the end of the delay and on any command but a shutdown, in the end of the loop on that or a closed channel, and nothing else ends it |
| `ClientConsequences.HealthWaitEnds` | src/ws/managed.rs:842-846 | the same for the health-checked loop |
| `ClientConsequences.StoppedForGood` | src/ws/managed.rs:339-341 | a stopped loop reads no further input |
| `ClientCounters.EveryRunCounted` | src/ws/managed.rs:525-848 | after every run of the health-checked loop the monitor's counters are the trace's own account, saturated at 2^64-1: attempts, successes, reconnects (attempts after a session), messages and errors since the last connect, each error recorded exactly once, an invalid pong twice |
| `ClientCounters.StepCounted` | src/ws/managed.rs:544-847 | each step keeps the counters true to the trace |
| `ClientCounters.LeaveCounted` | src/ws/managed.rs:825-846 | giving a connection up counts an error for a pong timeout and for stale data, and a reconnect exactly when a session came before |
| `ClientCounters.LastReceivedIsLastContact` | src/core/health.rs:101-104 | over any schedule the time kept is that of the latest frame or connect the loop saw |
| `ClientCounters.TickFindsDataStaleIff` | src/ws/managed.rs:686-688 | a tick that finds no pong overdue ends the session for stale data if and only if the last contact is older than the threshold |
| `ClientRefinement.InertHealthRefinesPlain` | src/ws/managed.rs:525-848 | with an inert ping strategy and no stale data the health-checked loop and the plain loop have equal traces (handler calls, writes, status stores) and states on every schedule |
| `ClientRefinement.TicksAreStutter` | src/ws/managed.rs:407-505 | a run of the plain loop equals its run on the schedule with all ticks removed |
| `ClientRefinement.InertHealthIgnoresTicks` | src/ws/managed.rs:682-701 | so with an inert health object the health-checked loop on any schedule equals the plain loop on the schedule without ticks |
| `ClientRefinement.LeaveCounts` | src/ws/managed.rs:825-846 | giving a connection up keeps reconnects <= successes <= attempts, counting a reconnect only after a session |
| `ClientRefinement.OpenCounts` | src/ws/managed.rs:583-650 | so does opening one |
| `ClientRefinement.ReconnectsNeverExceedSuccesses` | src/core/health.rs:93-99 | reconnects <= successes <= attempts at every point of every health-checked run, saturation included |
| `ClientHeartbeat.TickAlarmsIffUnanswered` | src/ws/managed.rs:682-701 | a tick declares a pong timeout if and only if the latest ping of the session is older than the timeout and no pong came at or after it |
| `ClientHeartbeat.NextTickCatchesIffUnanswered` | src/ws/managed.rs:682-701 | over schedules: between two ticks of one session the second declares a pong timeout if and only if it checks more than the timeout after the first one's ping and no pong arrived in between |
| `ClientHeartbeat.CloseTicksNeverAlarm` | src/core/ping.rs:88-126 | if every tick checks within the timeout of the previous ping, no run ever declares a pong timeout, however dead the peer |
| `ClientHeartbeat.PingsChronological` | src/ws/managed.rs:682-731 | along a rising clock the calls a session makes on its strategy are in time order |
| `ClientHeartbeat.StepPings` | src/ws/managed.rs:682-731 | exactly which call each step makes on the ping strategy |
| `ClientInvariant.StepSound` | src/ws/managed.rs:407-521 | every step of the plain loop keeps the whole invariant and advances the command line by exactly what it was given |
| `ClientInvariant.HealthStepSound` | src/ws/managed.rs:682-846 | the same for the health-checked loop; pong-timeout alarms grow by one exactly when the strategy says stale or invalid |
| `ClientInvariant.StepProjects` | src/ws/managed.rs:525-848 | a step without heartbeat work is the same step in both loops |
| `ClientInvariant.OpenSound` | src/ws/managed.rs:347-405 | a connect leaves a sound session, a wait or a stop, in either mode |
| `ClientInvariant.ReplayEffect` | src/ws/managed.rs:249-262 | a replay writes the listed subscriptions in order and opens the gate only if all were written |
| `ClientInvariant.DrainEffect` | src/ws/managed.rs:870-887 | draining attempts the queue in order and keeps the rest after the first failure |
| `ClientInvariant.OnCommandSound` | src/ws/managed.rs:409-431 | a command is attempted, queued, obeyed or ends the loop, once |
| `ClientInvariant.OnOutcomeSound` | src/ws/managed.rs:436-492 | acting on a parsed frame keeps the invariant; which loss it leads to is in ClientConduct.OutcomeConduct |
| `ClientInvariant.UnlockSound` | src/ws/managed.rs:440-460 | authentication replays, then drains the queue, and leaves a ready session with none or gives the connection up |
| `ClientInvariant.OnActionSound` | src/ws/managed.rs:437-485 | each parsed action keeps the invariant and the command line |
| `ClientInvariant.BreakSound` | src/ws/managed.rs:825-846 | ending a health-checked session keeps the invariant and counts an alarm exactly for a pong timeout |
| `ClientInvariant.TickSound` | src/ws/managed.rs:682-701 | a tick keeps the invariant and alarms exactly when the strategy is stale; what it writes is in ClientConduct.TickConduct |
| `ClientInvariant.FrameSound` | src/ws/managed.rs:702-821 | an inbound frame keeps the invariant and alarms exactly on an invalid pong |
| `ClientInvariant.LeaveSound` | src/ws/managed.rs:507-521 | giving up a connection keeps the invariant and the command line |
| `ClientInvariant.WaitStepSound` | src/ws/managed.rs:889-903 | a wait keeps the invariant, discards exactly the command given to it, and a command given ends it; where to is in ClientConsequences.WaitEnds |
| `ClientRuntime.RunManagedWsLoop` | src/ws/managed.rs:295-523 | the nested connect, session and wait loops over mutable fields, on every schedule, end in the last state of a lawful run: all command and trace laws hold of it, it kept to the protocol and heard exactly the schedule's events, and its trace is courteous |
| `ClientHealthRuntime.RunHealthCheckedManagedWsLoop` | src/ws/managed.rs:525-848 | the same for the health-checked loops; the heartbeat frames written are those made, the counters are the trace's account in their order, and the last contact is the latest |
| `ClientRuntime.ManagedWsLoop.ConnectOnce` | src/ws/managed.rs:318-405 | one connection attempt: keeps the loop invariant, advances the command account by exactly what it was given, and keeps to the protocol with exactly the event it was given |
| `ClientRuntime.ManagedWsLoop.SelectOnce` | src/ws/managed.rs:407-505 | one turn of the session select: keeps the loop invariant, advances the command account by exactly what it was given, and keeps to the protocol with exactly the event it was given |
| `ClientRuntime.ManagedWsLoop.WaitOnce` | src/ws/managed.rs:889-903 | one outcome of the wait, with the phase each input leads to: keeps the loop invariant, advances the command account by exactly what it was given, and keeps to the protocol with exactly the event it was given |
| `ClientHealthRuntime.HealthCheckedWsLoop.ConnectOnce` | src/ws/managed.rs:551-650 | one connection attempt of the health-checked loop: the same, writing exactly the heartbeat frames made and keeping the counters true to the trace |
| `ClientHealthRuntime.HealthCheckedWsLoop.SelectOnce` | src/ws/managed.rs:655-823 | one turn of the session select of the health-checked loop: the same, writing exactly the heartbeat frames made and keeping the counters true to the trace |
| `ClientHealthRuntime.HealthCheckedWsLoop.WaitOnce` | src/ws/managed.rs:842-846 | one outcome of the wait, with the phase each input leads to of the health-checked loop: the same, writing exactly the heartbeat frames made and keeping the counters true to the trace |
| `ClientRuntime.ManagedWsLoop.SendSubscriptions` | src/ws/managed.rs:264-286 | the index loop equals the recursive writer, up to the first error |
| `ClientRuntime.ManagedWsLoop.ApplyPendingAuthCommands` | src/ws/managed.rs:870-887 | the popping loop equals the recursive drain |
| `ServerInterleaving.EveryState` | src/ws/server/runtime.rs:198-627 | in every interleaving of server task, connections, dispatch callers, status waiters and shutdown: the task, budget, fan-out, connection, call and waiter invariants together |
| `ServerInterleaving.NextKeeps` | src/ws/server/runtime.rs:198-627 | each atomic move keeps them |
| `ServerInterleaving.HandlersSeeNoGap` | src/ws/server/runtime.rs:390-402 | the commands any handler was told are log[start..start+n]: contiguous from the subscription taken at admission, before the handshake |
| `ServerInterleaving.SubscribesAtAdmission` | src/ws/server/runtime.rs:390-402 | over any continuation the log only grows and members keep their starting points; a connection admitted meanwhile starts at or after what had been dispatched before, so it is shown nothing older and misses nothing newer |
| `ServerInterleaving.LaggedNeverResumes` | src/ws/server/runtime.rs:529-534 | once a command a connection has not seen is overwritten, no continuation ever shows its handler another command |
| `ServerInterleaving.OverwrittenForGood` | src/ws/server/runtime.rs:515-539 | no single move undoes that |
| `ServerInterleaving.ReceiveServesOrCloses` | src/ws/server/runtime.rs:515-539 | a receive hands over the next logged command if retained, and otherwise closes as Lagged with the exact number missed |
| `ServerInterleaving.NothingOutlivesTheServer` | src/ws/server/runtime.rs:614-627 | when run_server has returned by any path, no connection task is left and active is 0 |
| `ServerInterleaving.AdmitKeepsBudget` | src/ws/server/runtime.rs:153-175 | active is the number of running tasks and at most max_connections; ids are 0,1,2,… and rejected sockets use none |
| `ServerInterleaving.DispatchQueuesForEveryConnection` | src/ws/server/handle.rs:104-108 | the count is the number of live connections, each then has the command ahead of it; with none the channel is untouched |
| `ServerInterleaving.ContinueSound` | src/ws/server/handle.rs:82-103 | the Terminal-without-cause arm is never reached; Terminated carries the retained cause; only a call begun before any end queues |
| `ServerInterleaving.WaiterMoveKeeps` | src/ws/server/handle.rs:121-156 | Settled names a final status other than the expected one and nothing has been published since |
| `ServerInterleaving.LookDecides` | src/ws/server/handle.rs:121-156 | a look reaches exactly on the expected status, settles exactly on another final one, and otherwise goes on |
| `ServerInterleaving.StatusesOnlyGrow` | src/ws/server/handle.rs:25-40 | over any continuation: no status is taken back, the cause never changes, nothing follows Stopped or Terminal |
| `ServerLifecycle.EveryServerRun` | src/ws/server/runtime.rs:198-277 | every run of the server task: published statuses are Starting, then Retrying/Listening with no two adjacent Listening, then ShuttingDown,Stopped or Terminal; the cause is set exactly for Terminal; the retry account holds |
| `ServerLifecycle.StepStatuses` | src/ws/server/runtime.rs:213-276 | each step keeps the status grammar, with the phase it belongs to |
| `ServerLifecycle.StepRetry` | src/ws/server/runtime.rs:209-272 | each step keeps the retry account |
| `ServerLifecycle.AccountAt` | src/ws/server/runtime.rs:247-271 | at any point of the history: the wait after the k-th consecutive failure is min(initial*2^(k-1), max), and every bind but the first follows a wait |
| `ServerLifecycle.ExhaustedCause` | src/ws/server/runtime.rs:247-264 | a retry-exhausted cause carries attempts == max_attempts; it is the bind one with no bind ever and that many bind failures, or the accept one with one lost listener and attempts-1 failed rebinds |
| `ServerLifecycle.LossIsRetriedIff` | src/ws/server/runtime.rs:247-266 | in any run a lost listener is retried if and only if more than one attempt is allowed; otherwise the cause is AcceptRetryExhausted at one attempt |
| `ServerLifecycle.ShutdownIsGraceful` | src/ws/server/runtime.rs:213-276 | a shutdown seen by a running server task at any point of any run: ShuttingDown follows, no cause is ever stored, and a return publishes Stopped and nothing else |
| `ServerLifecycle.FaultIsTerminal` | src/ws/server/runtime.rs:236-240 | an unrecoverable accept failure at any point of any run is kept as the cause for good, and a return publishes Terminal |
| `ServerLifecycle.BindIsRetriedIff` | src/ws/server/runtime.rs:218-272 | after any run a failed bind is slept on and tried again if and only if the attempts allowed are not used up; otherwise a retry cause is stored |
| `ServerLifecycle.OneAttemptMeansNoRebind` | src/ws/server/runtime.rs:247-264 | the concrete run: bind, lose the listener, end, with no rebind in the history |
| `ServerLifecycle.LastStatus` | src/ws/server/handle.rs:26-40 | what the current status says about the task: Terminal only with a cause stored, Stopped only after a graceful return |
| `ServerLifecycle.SettledForGood` | src/ws/server/handle.rs:25-40 | statuses only grow and a final one is never left, over any continuation of the task's run |
| `ServerConfig.RetryPolicy.NextIsBackoffAt` | src/ws/server/config.rs:145-147 | saturating doubling capped at the maximum yields the next term of the closed form |
| `ServerRuntime.RunServer` | src/ws/server/runtime.rs:198-277 | the lifecycle loop over mutable locals shows the machine's statuses and cause, on every schedule |
| `ServerRuntime.Listen` | src/ws/server/runtime.rs:213-246 | shutdown check, bind, accept loop: where the machine stands for each outcome |
| `ServerRuntime.Terminate` | src/ws/server/runtime.rs:236-240 | cause, then status, then the join of the aborted tasks |
| `ServerRuntime.Drain` | src/ws/server/runtime.rs:274-276 | ShuttingDown, drain or abort, Stopped |
| `ServerRuntime.ServerShared.SetStatus` | src/ws/server/handle.rs:28-33 | publishes unless a cause is stored and the status is not Terminal |
| `ServerRuntime.ServerShared.StoreCause` | src/ws/server/handle.rs:37-38 | keeps the first cause |
| `ServerHandle.ConnectionSlots.TryAcquire` | src/ws/server/runtime.rs:155-169 | takes a slot exactly below the cap |
| `ServerHandle.ConnectionSlots.Admit` | src/ws/server/runtime.rs:370-403 | slot, then id: the counters follow the interleaving machine, and the id returned is the one that joins the live set |
| `ServerHandle.Dispatch` | src/ws/server/handle.rs:82-109 | undisturbed, answers and logs what the machine's separate reads answer and log |
| `ServerHandle.WaitForStatus` | src/ws/server/handle.rs:121-156 | the first observed status that is expected or final decides; otherwise it times out |
| `ServerConnection.EveryConnectionRun` | src/ws/server/runtime.rs:408-610 | every run of a connection: the handler's events are nothing, or Connected (Frame|Command|Tick)* Closed with Closed once and last (a prefix if aborted); at most one close frame from the transport, last, with its code by the cause told; nothing lost or reordered |
| `ServerConnection.StepEvents` | src/ws/server/runtime.rs:449-553 | each step keeps the event grammar; control frames never reach the handler |
| `ServerConnection.StepWrites` | src/ws/server/runtime.rs:581-610 | 1008 for lag, 1011 for a handler error, 1001 for shutdown, the handler's own close, or none, by the cause recorded; nothing is written after it; which input leads to which cause is in ServerConnection.EndsWithItsCause |
| `ServerConnection.StepFlow` | src/ws/server/runtime.rs:480-579 | events carry exactly the application frames heard and commands received; every ping is answered with its payload and every requested frame written, in order, until a write fails |
| `ServerConnection.EndsWithItsCause` | src/ws/server/runtime.rs:449-610 | over schedules: an input that ends a connection at any point of any run ends its events with its own cause, for good, and every finished continuation's last word is that cause's: a handler error 1011, a shutdown or closed channel 1001, lag 1008, the handler's own close, and none for a client that left or a transport error with its text |
| `ServerConnection.StepAccounted` | src/ws/server/runtime.rs:449-579 | each step tells the handler exactly the event its input calls for and asks for exactly the frames of the reply |
| `ServerConnection.EveryRunAccounted` | src/ws/server/runtime.rs:408-610 | so the events told and the frames asked for over a whole schedule are those its inputs call for |
| `ServerConnection.OneCloseFrame` | src/ws/server/runtime.rs:556-610 | if no reply carries a Close frame, at most one is handed to the socket and nothing after it |
| `ServerConnection.SentCloseCanBeDoubled` | src/ws/server/runtime.rs:561-573 | the condition is needed: at any point of any run, any reply (Send or batch) that carries a Close frame has a schedule on which another frame is handed to the socket after it |
| `ServerConnectionRuntime.RunConnection` | src/ws/server/runtime.rs:408-444 | handshake, event loop and finish over mutable fields end in the machine's state, on every schedule |
| `ServerConnectionRuntime.Connection.RunConnectionLoop` | src/ws/server/runtime.rs:449-553 | the select loop: where the machine stands when it continues, stops with a cause, or is cut |
| `ServerConnectionRuntime.Connection.SelectOnce` | src/ws/server/runtime.rs:472-551 | one turn: where the machine stands when it continues, stops with a cause, or is cut |
| `ServerConnectionRuntime.Connection.OnFrame` | src/ws/server/runtime.rs:480-513 | one inbound frame: where the machine stands when it continues, stops with a cause, or is cut |
| `ServerConnectionRuntime.Connection.Deliver` | src/ws/server/runtime.rs:497-511 | one handler event and its reply, a failed one stopping with the handler's error: where the machine stands when it continues, stops with a cause, or is cut |
| `ServerConnectionRuntime.Connection.ApplyAction` | src/ws/server/runtime.rs:556-579 | one action: where the machine stands when it continues, stops with a cause, or is cut |
| `ServerConnectionRuntime.Connection.SendFrames` | src/ws/server/runtime.rs:566-573 | a batch, up to the first error: where the machine stands when it continues, stops with a cause, or is cut |
| `ServerConnectionRuntime.Connection.FinishConnection` | src/ws/server/runtime.rs:583-610 | Closed, the farewell frame, the socket: where the machine stands when it continues, stops with a cause, or is cut |
| `FrameBatch.WsServerFrameBatch.Push` | src/ws/server/types.rs:109-116 | appends, or hands the frame back when four are held |
| `FrameBatch.WsServerFrameBatch.Drain` | src/ws/server/types.rs:129-133 | takes all frames out in order and clears their slots |
| `FrameBatch.WsServerFrameBatch.FromIter` | src/ws/server/types.rs:139-147 | holds the first min(4, n) frames in order |
| `ProtocolPing.StaleIffUnanswered` | src/core/ping.rs:88-126 | stale over any chronological history if and only if the latest ping is older than the timeout with no pong at or after it |
| `ProtocolPing.SaysOnTheWire` | src/core/ping.rs:89-107 | the frame made is an empty ping, a ping is answered with a pong of its own payload, and exactly the frames that are neither ping nor pong are passed on |
| `ProtocolPing.RoundTripSinceLatestPing` | src/core/ping.rs:94-107 | a pong reports the time since the latest ping since the reset, and none exactly when there was none |
| `ProtocolPing.LastPingIsLatest` | src/core/ping.rs:89-126 | the stored ping time is that of the latest ping since the reset |
| `ProtocolPing.LastPongIsLatest` | src/core/ping.rs:94-126 | the stored pong time is that of the latest pong since the reset |
| `ProtocolPing.ProtocolPingPong.CreatePing` | src/core/ping.rs:89-92 | records the ping time and returns a ping, as the history says |
| `ProtocolPing.ProtocolPingPong.HandleInbound` | src/core/ping.rs:94-107 | answers pings, records pongs, passes the rest, as the history says |
| `ProtocolPing.ProtocolPingPong.Reset` | src/core/ping.rs:123-126 | forgets both times, as the history says |
| `ApplicationPing.FreshKeysKeepCacheExact` | src/core/ping.rs:174-235 | if no key still pending is reused, the cached time is always the minimum, so stale holds iff some pending ping has outlived the timeout |
| `ApplicationPing.NothingStaleMissed` | src/core/ping.rs:174-235 | with any keys: the cache is a lower bound, no stale ping is missed, and at most max_pending are pending |
| `ApplicationPing.ExactIffHarmless` | src/core/ping.rs:204-216 | after a ping the cache is exact if and only if the key did not replace the only oldest ping with a later time |
| `ApplicationPing.ReusedKeyRaisesFalseAlarm` | src/core/ping.rs:204-230 | a concrete reuse after which nothing is stale and an alarm is raised |
| `ApplicationPing.CleaningKeepsAllWhenNotStale` | src/core/ping.rs:178-183 | cleanup removes nothing at an instant that is not stale |
| `ApplicationPing.OutlivedAreForgotten` | src/core/ping.rs:178-216 | after any calls, creating a ping forgets exactly the pings that have outlived the timeout and keeps the rest at their times |
| `ApplicationPing.MinValue` | src/core/ping.rs:178-183 | the least value of the map, or None |
| `ApplicationPing.WsApplicationPingPong.CleanupStale` | src/core/ping.rs:178-183 | keeps what has not outlived the timeout and recomputes the minimum |
| `ApplicationPing.WsApplicationPingPong.CreatePing` | src/core/ping.rs:204-216 | cleans, refuses when full, otherwise records |
| `ApplicationPing.WsApplicationPingPong.ProcessApplication` | src/core/ping.rs:185-201 | removes the answered ping and reports it |
| `ApplicationPing.WsApplicationPingPong.Reset` | src/core/ping.rs:232-235 | forgets all |
| `CircuitBreaker.CountersMatchHistory` | src/core/connection_policy.rs:34-77 | over any calls the counters agree with the phase read off the history without counters, saturation included |
| `CircuitBreaker.OpensOnFailureRun` | src/core/connection_policy.rs:66-77 | Closed opens exactly on the failure completing failure_threshold failures without a success between |
| `CircuitBreaker.ClosesOnSuccesses` | src/core/connection_policy.rs:50-77 | HalfOpen closes exactly on the success_threshold-th success and reopens exactly on a failure |
| `CircuitBreaker.OpenRefusesUntilItsTime` | src/core/connection_policy.rs:34-48 | an open circuit refuses exactly before its time, whatever is recorded meanwhile |
| `CircuitBreaker.WaitAgreesWithRefusal` | src/core/connection_policy.rs:81-86 | a positive wait is reported exactly when an attempt would be refused, and it is the shortest such wait |
| `CircuitBreaker.WsCircuitBreaker.CanProceed` | src/core/connection_policy.rs:34-48 | the answer of the history; half-opens in time |
| `CircuitBreaker.WsCircuitBreaker.RecordSuccess` | src/core/connection_policy.rs:50-64 | state equals the history's |
| `CircuitBreaker.WsCircuitBreaker.RecordFailure` | src/core/connection_policy.rs:66-79 | state equals the history's |
| `CircularBuffers.PushesKeepLatest` | src/core/circular_buffer.rs:30-40 | after any pushes the contents are the last min(capacity, n) pushed |
| `CircularBuffers.SiftedIsFilter` | src/core/circular_buffer.rs:111-127 | with a stateless predicate retaining is the stable filter |
| `CircularBuffers.SwapRemovedTakesOne` | src/core/circular_buffer.rs:100-109 | removal by swap takes out exactly one element by multiset |
| `CircularBuffers.CircularBuffer.Push` | src/core/circular_buffer.rs:30-40 | drops the oldest when full; length stays within capacity |
| `CircularBuffers.CircularBuffer.PopBack` | src/core/circular_buffer.rs:90-98 | takes the last |
| `CircularBuffers.CircularBuffer.Remove` | src/core/circular_buffer.rs:100-109 | takes out the first occurrence, and only if present |
| `CircularBuffers.CircularBuffer.Retain` | src/core/circular_buffer.rs:111-127 | the in-place swap loop equals asking the predicate once per element in order and keeping what it accepts |
| `CircularBuffers.CircularBuffer.Last` | src/core/circular_buffer.rs:129-143 | the last n elements, or none |
| `Utf8.TruncateString` | src/core/health.rs:30-40 | the longest prefix of at most 1024 bytes that ends on a character boundary and is valid UTF-8; at least 1021 bytes when cut; at most three steps back |
| `Utf8.PrefixValidIffBoundary` | src/core/health.rs:30-40 | a prefix of valid UTF-8 is valid if and only if it ends on a boundary |
| `Utf8.NearbyBoundary` | src/core/health.rs:30-40 | one of any four neighbouring positions is a boundary |
| `Utf8.ValidIffEncoded` | src/core/health.rs:30-40 | the byte grammar of sections 3 and 4 of RFC 3629 accepts exactly the encodings of scalar values |
| `JsonRpcId.ParseJsonRpcId` | src/testing.rs:414-445 | the index loops compute the recursive scan on all bytes |
| `JsonRpcId.ReadsTheFirstId` | src/testing.rs:414-445 | first key, whitespace, colon, whitespace, the decimal form of n, no further digit: yields n for every n below 2^64 and None above |
| `JsonRpcId.FoundIdHasItsKey` | src/testing.rs:414-445 | conversely a result is the value of digits after some key, colon and whitespace |
| `JsonRpcId.ValueOfDecimal` | src/testing.rs:436-444 | reading a decimal form gives the number back |
| `JsonRpcId.PrecheckCoversMatches` | src/testing.rs:359-380 | a match is found if and only if the scan succeeds and the precheck holds, so the fast path drops nothing; its id is the scanned one and it is accepted exactly when no error key occurs |
| `Reconnect.NextIsDelayAt` | src/core/reconnect.rs:47-52 | each draw stores the next term of min(base*factor^k, max) |
| `Reconnect.RisesToMaxIffBaseBelow` | src/core/reconnect.rs:19-56 | the delays never fall and never exceed max if and only if base <= max |
| `Reconnect.ExponentialBackoffReconnect.NextDelay` | src/core/reconnect.rs:47-52 | returns the term stored and advances by one |
| `Reconnect.ExponentialBackoffReconnect.Reset` | src/core/reconnect.rs:54-56 | starts again at the base |
| `HealthMonitor.WsHealthMonitor.RecordMessage` | src/core/health.rs:101-104 | one more message, saturating, and its time |
| `HealthMonitor.WsHealthMonitor.RecordError` | src/core/health.rs:118-120 | one more error, saturating |
| `HealthMonitor.WsHealthMonitor.RecordServerError` | src/core/health.rs:122-129 | one more error; the latest hundred are kept, each text the longest valid prefix of 1024 bytes |
| `HealthMonitor.WsHealthMonitor.RecordInternalError` | src/core/health.rs:131-138 | the same for internal errors, context and text |
| `HealthMonitor.WsHealthMonitor.RecordRtt` | src/core/health.rs:140-156 | a sample is always recorded, clamped to the histogram range, and counted as clamped exactly when it was moved |
| `HealthMonitor.WsHealthMonitor.ResetConnection` | src/core/health.rs:80-91 | clears the connection's times, counts, errors and samples; keeps attempts, successes and reconnects |
| `HealthMonitor.WsHealthMonitor.IncrementReconnect` | src/core/health.rs:158-160 | saturating count |
| `HealthMonitor.WsHealthMonitor.RecordConnectAttempt` | src/core/health.rs:93-95 | saturating count |
| `HealthMonitor.WsHealthMonitor.RecordConnectSuccess` | src/core/health.rs:97-99 | saturating count |
## Left out

- Sockets, TLS, handshake bytes and tungstenite conversions: replaced by arbitrary results.
- Tokio internals: only the contracts named above; timers and wake-ups are schedule inputs.
- The moment between releasing a slot and dropping the broadcast receiver, and between taking a slot and subscribing: each pair is one move.
- Aborting the server task by dropping its handle or by a shutdown timeout: a run cut short is any prefix, and claims about returning runs do not speak of it.
- `select!` priorities: any ready branch may be taken; nothing proved depends on the order.
- Liveness: nothing says that a shutdown, a drain or a reconnect happens within a time.
- Growth of the task set between reaps in the accept loop.
- `consecutive_failures` at 2^32: carried as a natural number; with a limit it is proved never to exceed it.
- `WsServerConfig::validate` and `is_transient_accept_error`: straight-line checks.
- The test-only accept fault is kept only as "the accept loop may fail unrecoverably".
- Which round-trip samples and error texts the loop hands to the health monitor; its counters are covered.
- The last-sent time and the inbound-frame bulk counter of the health monitor, `get_stats` and histogram percentiles.
- One clock reading serves both stale checks of a tick.
- IEEE rounding of the client backoff and `jitter_delay`.
- Fixtures, mock transports, benches, the exchange example, metrics hooks, status codecs, `Debug` text and the matching of expected disconnect texts.
- Delegated-request types: data only.
- CircularBuffers.CircularBuffer.Last: the physical split of the ring is a parameter, since where the deque wraps is the library's choice; a wrapped run is refused as in the code.
- ServerHandle.Dispatch: sequential; the interleaved reads are in `ServerInterleaving`.
- ServerConnection.SentCloseCanBeDoubled: a batch may have more than four frames in the connection machine; `FrameBatch` has the limit.
- ClientTheorems.InOrderIffNoOvertaking: the "only there" half is for distinct commands, since equal commands that overtake each other leave the same order.
