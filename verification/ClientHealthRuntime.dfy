/** `run_health_checked_managed_ws_loop` in the source's form, on top of the
    helpers it shares with the plain loop. */
module ClientHealthRuntime {
  import opened Prelude
  import opened Wire
  import opened ClientTrace
  import opened Ping
  import opened ClientRuntime
  import opened ClientInvariant
  import opened ClientTheorems
  import opened ClientHeartbeat
  import opened ClientConduct
  import opened ClientConsequences
  import opened ClientCounters
  import opened ClientRefinement
  import L = ClientLoop

  /** What one step of the loop keeps; the heartbeat frames written are those made,
      and the counters stay true to the trace. */
  ghost predicate HealthKept(w: L.World, health: L.Health, h: L.Checked, input: L.Input, r: L.Checked) {
    && (Sound(w, h.client) ==> Advances(w, h.client, input, r.client))
    && (Conducted(w, h.client) ==>
          var m := ConductOf(w, h.client.trace);
          Tells(w, r.client, m.heard + HealthEventOf(health, h, input), m.beats + BeatsIn(PingsMade(health, h, input))))
    && (Truthful(h) ==> Truthful(r))
  }

  lemma HealthStepKeeps(w: L.World, health: L.Health, h: L.Checked, input: L.Input)
    ensures HealthKept(w, health, h, input, L.HealthStep(w, health, h, input))
  {
    hide L.HealthStep, Sound, Advances, ConductOf, BeatsIn, PingsMade, HealthEventOf, Truthful;
    if Sound(w, h.client) { HealthStepSound(w, health, h, input); }
    if Conducted(w, h.client) { HealthStepConduct(w, health, h, input); }
    if Truthful(h) { StepCounted(w, health, h, input); }
  }

  class HealthCheckedWsLoop {
    const core: ManagedWsLoop
    const health: L.Health
    var counters: L.Counters
    var pings: PingHistory
    var countReconnect: bool

    ghost function Snapshot(): L.Checked
      reads this, core
    {
      L.Checked(core.Snapshot(), counters, pings, countReconnect)
    }

    constructor (w: L.World, health: L.Health, created: Instant)
      ensures fresh(core) && core.w == w && this.health == health
      ensures Snapshot() == L.HealthInitial(created)
    {
      this.core := new ManagedWsLoop(w);
      this.health := health;
      counters := L.CountAttempt(L.Counters(0, 0, 0, 0, 0, created));
      pings := [];
      countReconnect := false;
    }

    method Leave(cause: Cause, statusFirst: bool, afterSession: bool)
      modifies this, core
      ensures Snapshot() == L.HealthLeave(core.w, old(Snapshot()), cause, statusFirst, afterSession)
    {
      hide L.Leave;
      if afterSession && (cause.PongTimeout? || cause.StaleData?) {
        counters := L.CountError(counters);
      }
      core.Leave(cause, statusFirst);
      if core.phase == L.Dialing {
        if afterSession {
          counters := L.CountReconnect(counters);
        }
        counters := L.CountAttempt(counters);
      } else {
        countReconnect := afterSession;
      }
    }

    method Break(cause: Cause)
      modifies this, core
      ensures Snapshot() == L.HealthBreak(core.w, old(Snapshot()), cause)
    {
      hide L.HealthLeave;
      if cause.InternalError? || cause.ReadFailure? {
        counters := L.CountError(counters);
      }
      Leave(cause, true, true);
    }

    method Open(at: Instant)
      modifies this, core
      ensures Snapshot() == L.HealthOpen(core.w, old(Snapshot()), at)
    {
      hide L.Greet, L.ReplaySubscriptions, L.HealthLeave, Emit, Life, GateOf, LedgerOf, DrawsOf, LifecycleStep, GateStep,
           LedgerStep, DrawsStep;
      counters := L.ResetConnection(L.CountSuccess(counters), at);
      pings := pings + [StrategyCleared];
      var error := core.Greet();
      if error.Some? {
        counters := L.CountError(counters);
        Leave(InternalError(AuthSendContext, error.value), false, false);
        return;
      }
      var mode := core.w.mode(core.trace);
      core.trace := Emit(core.trace, ModeRead(mode));
      core.sessionAuthenticated := mode == Public;
      if core.sessionAuthenticated {
        error := core.ReplaySubscriptions();
        if error.Some? {
          counters := L.CountError(counters);
          Leave(InternalError(ReplayContext, error.value), false, false);
          return;
        }
      }
      core.phase := L.InSession;
    }

    method OnCommand(command: Option<Command>)
      modifies this, core
      ensures Snapshot() == L.HealthOnCommand(core.w, old(Snapshot()), command)
    {
      hide L.AttemptCommand, L.HealthBreak, L.Stop, Emit, Life, GateOf, LedgerOf, DrawsOf;
      if command.None? {
        core.trace := Emit(core.trace, ChannelClosed);
        core.Stop();
        return;
      }
      core.trace := Emit(core.trace, Took(command.value));
      match command.value
      case Shutdown => core.Stop();
      case ForceReconnect(reason) => Break(EndpointRequested(reason));
      case work =>
        if !core.sessionAuthenticated && RequiresAuth(work) {
          core.pendingAuthCommands := core.pendingAuthCommands + [work];
        } else {
          var error := core.AttemptCommand(work);
          if error.Some? {
            Break(InternalError(CommandContext, error.value));
          }
        }
    }

    method OnTick(checkAt: Instant, pingAt: Instant)
      modifies this, core
      ensures Snapshot() == L.HealthOnTick(core.w, health, old(Snapshot()), checkAt, pingAt)
    {
      hide L.SendFrame, L.HealthBreak, Emit, LifecycleStep, GateStep, LedgerStep, DrawsStep;
      if health.strategy.stale(pings, checkAt) {
        core.trace := Emit(core.trace, PongOverdue);
        Break(PongTimeout);
        return;
      }
      if L.MonitorStale(health.staleThreshold, counters, checkAt) {
        core.trace := Emit(core.trace, DataStale);
        Break(StaleData);
        return;
      }
      var made := health.strategy.create(pings, pingAt);
      pings := pings + [PingCreated(pingAt, made)];
      if made.Some? {
        core.trace := Emit(core.trace, HeartbeatMade(made.value));
        var error := core.SendFrame(ForHeartbeat, made.value);
        if error.Some? {
          Break(InternalError(PingSendContext, error.value));
        }
      }
    }

    method Unlock()
      modifies this, core
      ensures Snapshot() == L.HealthUnlock(core.w, old(Snapshot()))
    {
      hide L.ReplaySubscriptions, L.ApplyPending, L.HealthBreak;
      core.sessionAuthenticated := true;
      var error := core.ReplaySubscriptions();
      if error.Some? {
        Break(InternalError(ReplayAfterAuthContext, error.value));
        return;
      }
      error := core.ApplyPendingAuthCommands();
      if error.Some? {
        Break(InternalError(PendingCommandContext, error.value));
      }
    }

    method OnAction(action: MessageAction)
      modifies this, core
      ensures Snapshot() == L.HealthOnAction(core.w, old(Snapshot()), action)
    {
      hide L.HealthUnlock, L.SendFrame, L.HealthBreak, L.Stop, Emit, Life, GateOf, LedgerOf, DrawsOf;
      match action
      case Continue =>
      case SessionAuthenticated => Unlock();
      case Reply(payload) =>
        var error := core.SendFrame(ForReply, IntoFrame(payload));
        if error.Some? {
          Break(InternalError(MessageSendContext, error.value));
        }
      case Process(message) =>
        var error := core.w.handle(core.trace, message);
        core.trace := Emit(core.trace, MessageHandled(message, error));
        if error.Some? {
          Break(InternalError(HandleMessageContext, error.value));
        }
      case RequestReconnect(reason) => Break(EndpointRequested(reason));
      case RequestShutdown => core.Stop();
    }

    method OnOutcome(frame: Frame)
      modifies this, core
      ensures Snapshot() == L.HealthOnOutcome(core.w, old(Snapshot()), frame)
    {
      hide L.HealthOnAction, L.HealthLeave, Emit, Life, GateOf, LedgerOf, DrawsOf;
      var outcome := core.w.parse(core.trace, frame);
      core.trace := Emit(core.trace, FrameParsed(frame, outcome));
      match outcome
      case Parsed(action) => OnAction(action);
      case ServerReported(code, message) =>
        counters := L.CountError(counters);
        var action := core.w.serverError(core.trace, code, message);
        core.trace := Emit(core.trace, ServerErrorHandled(action));
        if action != ContinueAfterError {
          Leave(ServerError(code, message), true, true);
        }
      case Unparsable(_) =>
        counters := L.CountError(counters);
    }

    method OnFrame(frame: Frame, at: Instant)
      modifies this, core
      ensures Snapshot() == L.HealthOnFrame(core.w, health, old(Snapshot()), frame, at)
    {
      hide L.HealthOnOutcome, L.SendFrame, L.HealthBreak, Emit, Life, GateOf, LedgerOf, DrawsOf, LifecycleStep, GateStep,
           LedgerStep, DrawsStep;
      counters := L.CountMessage(counters, at);
      core.trace := Emit(core.trace, InboundHook(frame));
      var result := health.strategy.examine(pings, frame, at);
      pings := pings + [FrameExamined(frame, at, result)];
      match result
      case ReplyWith(reply) =>
        core.trace := Emit(core.trace, PongDue(reply));
        var error := core.SendFrame(ForHeartbeat, reply);
        if error.Some? {
          Break(InternalError(PongReplyContext, error.value));
        }
      case PongReceived(_) => core.trace := Emit(core.trace, PongHeard);
      case InvalidPong =>
        core.trace := Emit(core.trace, PongInvalid);
        counters := L.CountError(counters);
        Break(PongTimeout);
      case NotPong => OnOutcome(frame);
    }

    /** One connection attempt. */
    method ConnectOnce(input: L.Input)
      requires core.phase == L.Dialing
      modifies this, core
      ensures Snapshot() == L.HealthStep(core.w, health, old(Snapshot()), input)
      ensures HealthKept(core.w, health, old(Snapshot()), input, Snapshot())
    {
      hide L.HealthOpen, L.HealthLeave, Emit, Life, GateOf, LedgerOf, DrawsOf, HealthKept;
      HealthStepKeeps(core.w, health, Snapshot(), input);
      match input
      case ConnectOk(at) =>
        core.trace := Emit(core.trace, ConnectTried(None));
        Open(at);
      case ConnectFailed(error) =>
        counters := L.CountError(counters);
        core.trace := Emit(core.trace, ConnectTried(Some(error)));
        Leave(InternalError(ConnectContext, error), true, false);
      case _ =>
    }

    /** One outcome of the session's `select!`. */
    method SelectOnce(input: L.Input)
      requires core.phase == L.InSession
      modifies this, core
      ensures Snapshot() == L.HealthStep(core.w, health, old(Snapshot()), input)
      ensures HealthKept(core.w, health, old(Snapshot()), input, Snapshot())
    {
      hide L.HealthOnCommand, L.HealthOnTick, L.HealthOnFrame, L.HealthBreak, HealthKept;
      HealthStepKeeps(core.w, health, Snapshot(), input);
      match input
      case Received(command) => OnCommand(command);
      case PingTick(checkAt, pingAt) => OnTick(checkAt, pingAt);
      case Inbound(frame, at) => OnFrame(frame, at);
      case ReadError(error) =>
        core.trace := Emit(core.trace, ReadFailed(error));
        Break(ReadFailure(error));
      case EndOfStream =>
        core.trace := Emit(core.trace, StreamEnded);
        Break(RemoteClosed);
      case _ =>
    }

    /** One outcome of the wait. */
    method WaitOnce(input: L.Input)
      requires core.phase == L.Waiting
      modifies this, core
      ensures Snapshot() == L.HealthStep(core.w, health, old(Snapshot()), input)
      ensures HealthKept(core.w, health, old(Snapshot()), input, Snapshot())
    {
      hide L.WaitStep, HealthKept;
      HealthStepKeeps(core.w, health, Snapshot(), input);
      core.WaitOnce(input);
      if core.phase == L.Dialing {
        if countReconnect {
          counters := L.CountReconnect(counters);
        }
        counters := L.CountAttempt(counters);
      }
    }
  }

  lemma RunNext(w: L.World, health: L.Health, created: Instant, script: seq<L.Input>, i: nat)
    requires i < |script|
    ensures L.HealthRun(w, health, created, script[..i + 1]) ==
            L.HealthStep(w, health, L.HealthRun(w, health, created, script[..i]), script[i])
  {
    hide L.HealthStep;
    assert script[..i + 1][..i] == script[..i];
  }

  lemma RunStart(w: L.World, health: L.Health, created: Instant, script: seq<L.Input>)
    ensures L.HealthRun(w, health, created, script[..0]) == L.HealthInitial(created)
  {
  }

  method RunHealthCheckedManagedWsLoop(w: L.World, health: L.Health, created: Instant, script: seq<L.Input>)
    returns (loop: HealthCheckedWsLoop)
    ensures fresh(loop) && loop.Snapshot() == L.HealthRun(w, health, created, script)
    ensures HealthStates(w, health, created, script)[|script|] == loop.core.Snapshot()
    ensures Lawful(w, HealthStates(w, health, created, script), script)
    ensures Tells(w, loop.core.Snapshot(), HealthEventsOf(w, health, created, script), BeatsIn(loop.pings))
    ensures Courteous(w, loop.core.trace)
    ensures loop.counters.reconnects <= loop.counters.successes <= loop.counters.attempts
    ensures Truthful(loop.Snapshot()) && loop.counters.lastReceived == LastContact(w, health, created, script)
  {
    hide L.HealthStep, L.HealthRun, L.HealthInitial, Lawful, HealthStates, Tells, Courteous, HealthKept, BeatsIn, Truthful, LastContact;
    loop := new HealthCheckedWsLoop(w, health, created);
    RunStart(w, health, created, script);
    var i := 0;
    while i < |script| && loop.core.phase != L.Stopped
      invariant fresh(loop) && fresh(loop.core) && loop.core.w == w && loop.health == health && i <= |script|
      invariant loop.Snapshot() == L.HealthRun(w, health, created, script[..i])
    {
      ghost var start := i;
      while i < |script| && loop.core.phase == L.Dialing
        invariant start <= i <= |script| && (i == start ==> loop.core.phase != L.Stopped)
        invariant loop.Snapshot() == L.HealthRun(w, health, created, script[..i])
      {
        loop.ConnectOnce(script[i]);
        RunNext(w, health, created, script, i);
        i := i + 1;
      }
      while i < |script| && loop.core.phase == L.InSession
        invariant start <= i <= |script|
        invariant i == start ==> loop.core.phase != L.Stopped && loop.core.phase != L.Dialing
        invariant loop.Snapshot() == L.HealthRun(w, health, created, script[..i])
      {
        loop.SelectOnce(script[i]);
        RunNext(w, health, created, script, i);
        i := i + 1;
      }
      while i < |script| && loop.core.phase == L.Waiting
        invariant start <= i <= |script| && (i == start ==> loop.core.phase == L.Waiting)
        invariant loop.Snapshot() == L.HealthRun(w, health, created, script[..i])
      {
        loop.WaitOnce(script[i]);
        RunNext(w, health, created, script, i);
        i := i + 1;
      }
    }
    if i < |script| {
      HealthStoppedForGood(w, health, created, script[..i], script[i..]);
      assert script[..i] + script[i..] == script;
    } else {
      assert script[..i] == script;
    }
    EveryHealthRun(w, health, created, script);
    EveryHealthRunConducted(w, health, created, script);
    EveryHealthRunCourteous(w, health, created, script);
    ReconnectsNeverExceedSuccesses(w, health, created, script);
    EveryRunCounted(w, health, created, script);
    LastReceivedIsLastContact(w, health, created, script);
  }
}
