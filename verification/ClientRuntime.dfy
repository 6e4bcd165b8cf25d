/** The client loops in the form the source gives them: variables updated step
    by step inside nested loops. Each method is proved to do what the value
    model of `ClientLoop` says. */
module ClientRuntime {
  import opened Prelude
  import opened Wire
  import opened ClientTrace
  import opened ClientInvariant
  import opened ClientTheorems
  import opened ClientConduct
  import opened ClientConsequences
  import L = ClientLoop

  /** What one step of the loop keeps: the invariant, the command account, and the
      conduct, with the event its input is added to those heard. */
  ghost predicate Kept(w: L.World, c: L.Client, input: L.Input, r: L.Client) {
    && (Sound(w, c) ==> Advances(w, c, input, r))
    && (Conducted(w, c) ==>
          Conducted(w, r) && ConductOf(w, r.trace).heard == ConductOf(w, c.trace).heard + EventOf(c, input))
  }

  lemma StepKeeps(w: L.World, c: L.Client, input: L.Input)
    ensures Kept(w, c, input, L.Step(w, c, input))
  {
    hide L.Step, Sound, Advances, ConductOf;
    if Sound(w, c) { StepSound(w, c, input); }
    if Conducted(w, c) { StepConduct(w, c, input); }
  }

  /** The variables of `run_managed_ws_loop`, and the trace it leaves. */
  class ManagedWsLoop {
    const w: L.World
    var phase: L.Phase
    var status: Status
    var sessionAuthenticated: bool
    var isReconnect: bool
    var pendingAuthCommands: seq<Command>
    var trace: Trace

    ghost function Snapshot(): L.Client
      reads this
    {
      L.Client(phase, status, sessionAuthenticated, isReconnect, pendingAuthCommands, trace)
    }

    constructor (w: L.World)
      ensures this.w == w && Snapshot() == L.Initial()
    {
      this.w := w;
      phase, status := L.Dialing, Connecting;
      sessionAuthenticated, isReconnect := false, false;
      pendingAuthCommands := [];
      trace := Emit(Start, StatusStored(Connecting));
    }

    method StoreStatus(s: Status)
      modifies this`status, this`trace
      ensures Snapshot() == L.StoreStatus(old(Snapshot()), s)
    {
      status := s;
      trace := Emit(trace, StatusStored(s));
    }

    method SendFrame(purpose: Purpose, frame: Frame) returns (error: Option<string>)
      modifies this`trace
      ensures L.Sent(trace, error) == L.SendFrame(w, old(trace), purpose, frame)
    {
      trace := Emit(trace, OutboundHook(frame));
      error := w.write(trace, frame);
      trace := Emit(trace, Wrote(purpose, frame, error));
    }

    /** The loop of `replay_subscriptions` and `send_subscription_updates`. */
    method SendSubscriptions(purpose: Purpose, items: seq<Subscription>) returns (error: Option<string>)
      modifies this`trace
      ensures L.Sent(trace, error) == L.SendAll(w, old(trace), purpose, items)
    {
      error := None;
      for i := 0 to |items|
        invariant L.SendAll(w, old(trace), purpose, items) == L.SendAll(w, trace, purpose, items[i..])
      {
        var payload := w.serialize(trace, items[i]);
        trace := Emit(trace, SubscriptionSerialized(items[i], payload));
        error := SendFrame(purpose, IntoFrame(payload));
        if error.Some? {
          return;
        }
      }
      error := None;
    }

    method ReplaySubscriptions() returns (error: Option<string>)
      modifies this`trace
      ensures L.Sent(trace, error) == L.ReplaySubscriptions(w, old(trace))
    {
      var items := w.initial(trace);
      trace := Emit(trace, SubscriptionsListed(items));
      error := SendSubscriptions(ForReplay, items);
    }

    method AttemptCommand(command: Command) returns (error: Option<string>)
      modifies this`trace
      ensures L.Sent(trace, error) == L.AttemptCommand(w, old(trace), command)
    {
      hide Emit, Life, GateOf, LedgerOf, DrawsOf, L.SendFrame, L.SendAll;
      match command {
        case Send(payload) =>
          error := SendFrame(ForCommand, IntoFrame(payload));
        case UpdateSubscriptions(action) =>
          var result := w.update(trace, action);
          trace := Emit(trace, SubscriptionsUpdated(action, result));
          if result.Refused? {
            error := Some(result.error);
          } else {
            error := SendSubscriptions(ForCommand, result.items);
          }
        case _ =>
          error := None;
      }
      trace := Emit(trace, Attempted(command, error));
    }

    method ApplyPendingAuthCommands() returns (error: Option<string>)
      modifies this`trace, this`pendingAuthCommands
      ensures L.Drained(trace, pendingAuthCommands, error) == L.ApplyPending(w, old(trace), old(pendingAuthCommands))
    {
      error := None;
      while pendingAuthCommands != []
        invariant L.ApplyPending(w, old(trace), old(pendingAuthCommands)) == L.ApplyPending(w, trace, pendingAuthCommands)
        decreases |pendingAuthCommands|
      {
        var command := pendingAuthCommands[0];
        pendingAuthCommands := pendingAuthCommands[1..];
        error := AttemptCommand(command);
        if error.Some? {
          return;
        }
      }
      error := None;
    }

    method ReconnectDelay(action: DisconnectAction) returns (delay: Option<Delay>)
      modifies this`trace
      ensures L.Chosen(trace, delay) == L.ReconnectDelay(w, old(trace), action)
    {
      match action
      case Abort => delay := None;
      case ImmediateReconnect => delay := Some(0.0);
      case BackoffReconnect =>
        var ok := w.shouldRetry(trace);
        trace := Emit(trace, RetryAsked(ok));
        if ok {
          var d := w.nextDelay(trace);
          trace := Emit(trace, DelayDrawn(d));
          delay := Some(d);
        } else {
          delay := None;
        }
    }

    method NotifyDisconnect(cause: Cause, willReconnect: bool)
      modifies this`trace
      ensures trace == L.NotifyDisconnect(w, old(trace), cause, willReconnect)
    {
      var message := w.connectionLost(trace, cause, willReconnect);
      trace := Emit(trace, Disconnection(cause, willReconnect, message));
      if message.Some? {
        trace := Emit(trace, MessageHandled(message.value, w.handle(trace, message.value)));
      }
    }

    method Depart(cause: Cause, statusFirst: bool) returns (delay: Option<Delay>)
      modifies this
      ensures L.Departed(Snapshot(), delay) == L.Depart(w, old(Snapshot()), cause, statusFirst)
    {
      hide Emit, Life, GateOf, LedgerOf, DrawsOf, L.ReconnectDelay, L.NotifyDisconnect;
      if statusFirst {
        StoreStatus(Disconnected);
      }
      var action := w.classify(trace, cause);
      trace := Emit(trace, Classified(cause, action));
      delay := ReconnectDelay(action);
      NotifyDisconnect(cause, delay.Some?);
      if !statusFirst {
        StoreStatus(Disconnected);
      }
    }

    /** The tail every failed or finished connection runs through. */
    method Leave(cause: Cause, statusFirst: bool)
      modifies this
      ensures Snapshot() == L.Leave(w, old(Snapshot()), cause, statusFirst)
    {
      hide Emit, Life, GateOf, LedgerOf, DrawsOf, L.Depart, L.Resume;
      var delay := Depart(cause, statusFirst);
      if delay.None? {
        phase := L.Stopped;
        return;
      }
      trace := Emit(trace, WaitStarted(delay.value));
      if delay.value == 0.0 {
        Redial();
      } else {
        phase := L.Waiting;
      }
    }

    method Redial()
      modifies this
      ensures Snapshot() == L.Resume(old(Snapshot()))
    {
      isReconnect := true;
      StoreStatus(Connecting);
      phase := L.Dialing;
    }

    method Stop()
      modifies this
      ensures Snapshot() == L.Stop(old(Snapshot()))
    {
      StoreStatus(Disconnected);
      phase := L.Stopped;
    }

    method Greet() returns (error: Option<string>)
      modifies this`trace, this`status
      ensures L.Sent(trace, error) == L.Greet(w, old(Snapshot())) && status == Connected
    {
      trace := Emit(trace, StrategyReset);
      StoreStatus(Connected);
      trace := Emit(trace, StateReset);
      trace := Emit(trace, OpenHook);
      var message := w.connectionOpened(trace, isReconnect);
      trace := Emit(trace, Opened(isReconnect, message));
      if message.Some? {
        trace := Emit(trace, MessageHandled(message.value, w.handle(trace, message.value)));
      }
      var auth := w.auth(trace);
      trace := Emit(trace, AuthGenerated(auth));
      error := None;
      if auth.Some? {
        error := SendFrame(ForAuth, IntoFrame(auth.value));
      }
    }

    method Open()
      modifies this
      ensures Snapshot() == L.Open(w, old(Snapshot()))
    {
      hide Emit, Life, GateOf, LedgerOf, DrawsOf, L.Greet, L.ReplaySubscriptions, L.Leave;
      var error := Greet();
      if error.Some? {
        Leave(InternalError(AuthSendContext, error.value), false);
        return;
      }
      var mode := w.mode(trace);
      trace := Emit(trace, ModeRead(mode));
      sessionAuthenticated := mode == Public;
      if sessionAuthenticated {
        error := ReplaySubscriptions();
        if error.Some? {
          Leave(InternalError(ReplayContext, error.value), false);
          return;
        }
      }
      phase := L.InSession;
    }

    method OnCommand(command: Option<Command>)
      modifies this
      ensures Snapshot() == L.OnCommand(w, old(Snapshot()), command)
    {
      hide Emit, Life, GateOf, LedgerOf, DrawsOf, L.AttemptCommand, L.Leave, L.Stop;
      if command.None? {
        trace := Emit(trace, ChannelClosed);
        Stop();
        return;
      }
      trace := Emit(trace, Took(command.value));
      match command.value
      case Shutdown => Stop();
      case ForceReconnect(reason) => Leave(EndpointRequested(reason), true);
      case work =>
        if !sessionAuthenticated && RequiresAuth(work) {
          pendingAuthCommands := pendingAuthCommands + [work];
        } else {
          var error := AttemptCommand(work);
          if error.Some? {
            Leave(InternalError(CommandContext, error.value), true);
          }
        }
    }

    method Unlock()
      modifies this
      ensures Snapshot() == L.Unlock(w, old(Snapshot()))
    {
      hide Emit, Life, GateOf, LedgerOf, DrawsOf, L.ReplaySubscriptions, L.ApplyPending, L.Leave;
      sessionAuthenticated := true;
      var error := ReplaySubscriptions();
      if error.Some? {
        Leave(InternalError(ReplayAfterAuthContext, error.value), true);
        return;
      }
      error := ApplyPendingAuthCommands();
      if error.Some? {
        Leave(InternalError(PendingCommandContext, error.value), true);
      }
    }

    method OnAction(action: MessageAction)
      modifies this
      ensures Snapshot() == L.OnAction(w, old(Snapshot()), action)
    {
      hide Emit, Life, GateOf, LedgerOf, DrawsOf, L.Unlock, L.SendFrame, L.Leave, L.Stop;
      match action
      case Continue =>
      case SessionAuthenticated => Unlock();
      case Reply(payload) =>
        var error := SendFrame(ForReply, IntoFrame(payload));
        if error.Some? {
          Leave(InternalError(MessageSendContext, error.value), true);
        }
      case Process(message) =>
        var error := w.handle(trace, message);
        trace := Emit(trace, MessageHandled(message, error));
        if error.Some? {
          Leave(InternalError(HandleMessageContext, error.value), true);
        }
      case RequestReconnect(reason) => Leave(EndpointRequested(reason), true);
      case RequestShutdown => Stop();
    }

    method OnFrame(frame: Frame)
      modifies this
      ensures Snapshot() == L.OnFrame(w, old(Snapshot()), frame)
    {
      hide Emit, Life, GateOf, LedgerOf, DrawsOf, L.OnAction, L.Leave;
      trace := Emit(trace, InboundHook(frame));
      var outcome := w.parse(trace, frame);
      trace := Emit(trace, FrameParsed(frame, outcome));
      match outcome
      case Parsed(action) => OnAction(action);
      case ServerReported(code, message) =>
        var action := w.serverError(trace, code, message);
        trace := Emit(trace, ServerErrorHandled(action));
        if action != ContinueAfterError {
          Leave(ServerError(code, message), true);
        }
      case Unparsable(_) =>
    }

    /** One outcome of the session's `select!`. */
    method SelectOnce(input: L.Input)
      requires phase == L.InSession
      modifies this
      ensures Snapshot() == L.Step(w, old(Snapshot()), input)
      ensures Kept(w, old(Snapshot()), input, Snapshot())
    {
      hide L.OnCommand, L.OnFrame, L.Leave, Kept;
      StepKeeps(w, Snapshot(), input);
      match input
      case Received(command) => OnCommand(command);
      case Inbound(frame, _) => OnFrame(frame);
      case ReadError(error) =>
        trace := Emit(trace, ReadFailed(error));
        Leave(ReadFailure(error), true);
      case EndOfStream =>
        trace := Emit(trace, StreamEnded);
        Leave(RemoteClosed, true);
      case _ =>
    }

    /** One connection attempt. */
    method ConnectOnce(input: L.Input)
      requires phase == L.Dialing
      modifies this
      ensures Snapshot() == L.Step(w, old(Snapshot()), input)
      ensures Kept(w, old(Snapshot()), input, Snapshot())
    {
      hide Emit, Life, GateOf, LedgerOf, DrawsOf, L.Open, L.Leave, Kept;
      StepKeeps(w, Snapshot(), input);
      match input
      case ConnectOk(_) =>
        trace := Emit(trace, ConnectTried(None));
        Open();
      case ConnectFailed(error) =>
        trace := Emit(trace, ConnectTried(Some(error)));
        Leave(InternalError(ConnectContext, error), true);
      case _ =>
    }

    /** One outcome of the wait; a command received ends it. */
    method WaitOnce(input: L.Input)
      requires phase == L.Waiting
      modifies this
      ensures Snapshot() == L.Step(w, old(Snapshot()), input)
      ensures Kept(w, old(Snapshot()), input, Snapshot())
      ensures phase == WaitLeadsTo(input)
    {
      hide Kept;
      StepKeeps(w, Snapshot(), input);
      match input
      case DelayElapsed =>
        trace := Emit(trace, WaitElapsed);
        Redial();
      case Received(None) =>
        trace := Emit(trace, ChannelClosed);
        phase := L.Stopped;
      case Received(Some(command)) =>
        trace := Emit(trace, Discarded(command));
        if command == Shutdown {
          phase := L.Stopped;
        } else {
          Redial();
        }
      case _ =>
    }
  }

  lemma RunNext(w: L.World, script: seq<L.Input>, i: nat)
    requires i < |script|
    ensures L.Run(w, script[..i + 1]) == L.Step(w, L.Run(w, script[..i]), script[i])
  {
    hide L.Step;
    assert script[..i + 1][..i] == script[..i];
  }

  /** The nested loops: connection attempts outside, the session inside, then the
      wait. On every schedule they end in the last state of a lawful run. */
  method RunManagedWsLoop(w: L.World, script: seq<L.Input>) returns (loop: ManagedWsLoop)
    ensures fresh(loop) && loop.Snapshot() == L.Run(w, script)
    ensures PlainStates(w, script)[|script|] == loop.Snapshot() && Lawful(w, PlainStates(w, script), script)
    ensures Tells(w, loop.Snapshot(), EventsOf(w, script), []) && Courteous(w, loop.trace)
  {
    hide L.Step, L.Run, Lawful, PlainStates, Tells, Courteous, Kept;
    loop := new ManagedWsLoop(w);
    RunStart(w, script);
    var i := 0;
    while i < |script| && loop.phase != L.Stopped
      invariant fresh(loop) && loop.w == w && i <= |script|
      invariant loop.Snapshot() == L.Run(w, script[..i])
    {
      ghost var start := i;
      while i < |script| && loop.phase == L.Dialing
        invariant start <= i <= |script| && (i == start ==> loop.phase != L.Stopped)
        invariant loop.Snapshot() == L.Run(w, script[..i])
      {
        loop.ConnectOnce(script[i]);
        RunNext(w, script, i);
        i := i + 1;
      }
      while i < |script| && loop.phase == L.InSession
        invariant start <= i <= |script| && (i == start ==> loop.phase != L.Stopped && loop.phase != L.Dialing)
        invariant loop.Snapshot() == L.Run(w, script[..i])
      {
        loop.SelectOnce(script[i]);
        RunNext(w, script, i);
        i := i + 1;
      }
      while i < |script| && loop.phase == L.Waiting
        invariant start <= i <= |script| && (i == start ==> loop.phase == L.Waiting)
        invariant loop.Snapshot() == L.Run(w, script[..i])
      {
        loop.WaitOnce(script[i]);
        RunNext(w, script, i);
        i := i + 1;
      }
    }
    if i < |script| {
      StoppedForGood(w, script[..i], script[i..]);
      assert script[..i] + script[i..] == script;
    } else {
      assert script[..i] == script;
    }
    EveryPlainRun(w, script);
    EveryPlainRunConducted(w, script);
    EveryPlainRunCourteous(w, script);
  }

  lemma RunStart(w: L.World, script: seq<L.Input>)
    ensures L.Run(w, script[..0]) == L.Initial()
  {
  }
}
