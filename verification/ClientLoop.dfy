/** The two managed client loops of src/ws/managed.rs as functions over values.

    The environment is quantified over: `World` answers every handler callback,
    every write and every strategy call as an arbitrary function of what
    happened before, and a script of inputs stands for the schedule (connect
    results, commands received, frames, timer ticks). An input the loop is not
    waiting for leaves it unchanged, so "every script" is "every schedule". */
module ClientLoop {
  import opened Prelude
  import opened Wire
  import opened ClientTrace
  import opened Ping

  datatype World = World(
    write: (Trace, Frame) -> Option<string>,
    auth: Trace -> Option<Bytes>,
    mode: Trace -> SessionMode,
    connectionOpened: (Trace, bool) -> Option<Message>,
    connectionLost: (Trace, Cause, bool) -> Option<Message>,
    handle: (Trace, Message) -> Option<string>,
    parse: (Trace, Frame) -> ParseOutcome,
    serverError: (Trace, int, string) -> ErrorAction,
    classify: (Trace, Cause) -> DisconnectAction,
    initial: Trace -> seq<Subscription>,
    update: (Trace, SubscriptionAction) -> UpdateResult,
    serialize: (Trace, Subscription) -> Bytes,
    shouldRetry: Trace -> bool,
    nextDelay: Trace -> Delay)

  datatype Input =
    | ConnectOk(at: Instant)
    | ConnectFailed(error: string)
    | Received(command: Option<Command>)      // None: the command channel is closed
    | Inbound(frame: Frame, at: Instant)
    | ReadError(error: string)
    | EndOfStream
    | PingTick(checkAt: Instant, pingAt: Instant)
    | DelayElapsed

  datatype Phase = Dialing | InSession | Waiting | Stopped

  datatype Client = Client(
    phase: Phase,
    status: Status,
    authenticated: bool,
    isReconnect: bool,
    pending: seq<Command>,
    trace: Trace)

  // ---- Helpers shared by both loops ----

  datatype Sent = Sent(trace: Trace, error: Option<string>)

  /** Nothing but the gate may have noticed what happened between the traces. */
  predicate OnlyGate(t: Trace, r: Trace) {
    Life(r) == Life(t) && LedgerOf(r) == LedgerOf(t) && DrawsOf(r) == DrawsOf(t)
  }

  function SendFrame(w: World, t: Trace, purpose: Purpose, frame: Frame): (r: Sent)
    ensures OnlyGate(t, r.trace)
    ensures GateOf(r.trace) == GateStep(GateOf(t), Wrote(purpose, frame, r.error))
  {
    var t1 := Emit(t, OutboundHook(frame));
    var error := w.write(t1, frame);
    Sent(Emit(t1, Wrote(purpose, frame, error)), error)
  }

  /** Serialize and write each subscription in order, up to the first failure. */
  function SendAll(w: World, t: Trace, purpose: Purpose, items: seq<Subscription>): Sent
    decreases |items|
  {
    if items == [] then Sent(t, None)
    else
      var payload := w.serialize(t, items[0]);
      var t1 := Emit(t, SubscriptionSerialized(items[0], payload));
      var first := SendFrame(w, t1, purpose, IntoFrame(payload));
      if first.error.Some? then first
      else SendAll(w, first.trace, purpose, items[1..])
  }

  function ReplaySubscriptions(w: World, t: Trace): Sent {
    var items := w.initial(t);
    SendAll(w, Emit(t, SubscriptionsListed(items)), ForReplay, items)
  }

  function ApplyCommand(w: World, t: Trace, c: Command): Sent {
    match c
    case Send(payload) => SendFrame(w, t, ForCommand, IntoFrame(payload))
    case UpdateSubscriptions(action) =>
      var result := w.update(t, action);
      var t1 := Emit(t, SubscriptionsUpdated(action, result));
      if result.Refused? then Sent(t1, Some(result.error))
      else SendAll(w, t1, ForCommand, result.items)
    case _ => Sent(t, None)
  }

  function AttemptCommand(w: World, t: Trace, c: Command): Sent {
    var done := ApplyCommand(w, t, c);
    Sent(Emit(done.trace, Attempted(c, done.error)), done.error)
  }

  datatype Drained = Drained(trace: Trace, left: seq<Command>, error: Option<string>)

  /** `apply_pending_auth_commands`: a popped command is gone even if it fails. */
  function ApplyPending(w: World, t: Trace, queue: seq<Command>): Drained
    decreases |queue|
  {
    if queue == [] then Drained(t, [], None)
    else
      var first := AttemptCommand(w, t, queue[0]);
      if first.error.Some? then Drained(first.trace, queue[1..], first.error)
      else ApplyPending(w, first.trace, queue[1..])
  }

  /** Route an optional endpoint message through `handle_message`, result ignored. */
  function Deliver(w: World, t: Trace, message: Option<Message>): (r: Trace)
    ensures OnlyGate(t, r) && GateOf(r) == GateOf(t)
  {
    if message.Some? then Emit(t, MessageHandled(message.value, w.handle(t, message.value))) else t
  }

  datatype Chosen = Chosen(trace: Trace, delay: Option<Delay>)

  function ReconnectDelay(w: World, t: Trace, action: DisconnectAction): (r: Chosen)
    ensures Life(r.trace) == Life(t) && GateOf(r.trace) == GateOf(t) && LedgerOf(r.trace) == LedgerOf(t)
    ensures DrawsOf(r.trace) == DrawsOf(t) ||
            (var t1 := Emit(t, RetryAsked(true)); DrawsOf(r.trace) == DrawsStep(DrawsOf(t1), DelayDrawn(w.nextDelay(t1))))
  {
    match action
    case Abort => Chosen(t, None)
    case ImmediateReconnect => Chosen(t, Some(0.0))
    case BackoffReconnect =>
      var t1 := Emit(t, RetryAsked(w.shouldRetry(t)));
      if w.shouldRetry(t) then
        var delay := w.nextDelay(t1);
        Chosen(Emit(t1, DelayDrawn(delay)), Some(delay))
      else Chosen(t1, None)
  }

  function NotifyDisconnect(w: World, t: Trace, cause: Cause, will: bool): (r: Trace)
    ensures LedgerOf(r) == LedgerOf(t) && DrawsOf(r) == DrawsOf(t)
    ensures Life(r) == LifecycleStep(Life(t), Disconnection(cause, will, None))
    ensures GateOf(r) == GateStep(GateOf(t), Disconnection(cause, will, None))
  {
    var notice := w.connectionLost(t, cause, will);
    Deliver(w, Emit(t, Disconnection(cause, will, notice)), notice)
  }

  function StoreStatus(c: Client, status: Status): Client {
    c.(status := status, trace := Emit(c.trace, StatusStored(status)))
  }

  /** The head of the outer loop. */
  function Dial(c: Client): Client {
    StoreStatus(c, Connecting).(phase := Dialing)
  }

  function Resume(c: Client): Client {
    Dial(c.(isReconnect := true))
  }

  datatype Departed = Departed(client: Client, delay: Option<Delay>)

  /** Classify, choose a delay and notify. The code stores the status before
      classifying except where authentication or the first replay fails; there
      it stores it after notifying. */
  function Depart(w: World, c: Client, cause: Cause, statusFirst: bool): Departed {
    var before := if statusFirst then StoreStatus(c, Disconnected) else c;
    var action := w.classify(before.trace, cause);
    var chosen := ReconnectDelay(w, Emit(before.trace, Classified(cause, action)), action);
    var notified := before.(trace := NotifyDisconnect(w, chosen.trace, cause, chosen.delay.Some?));
    Departed(if statusFirst then notified else StoreStatus(notified, Disconnected), chosen.delay)
  }

  /** Give the connection up, then stop, wait or dial again. */
  function Leave(w: World, c: Client, cause: Cause, statusFirst: bool): Client {
    var gone := Depart(w, c, cause, statusFirst);
    if gone.delay.None? then gone.client.(phase := Stopped)
    else BeginWait(gone.client, gone.delay.value)
  }

  function BeginWait(c: Client, delay: Delay): Client {
    var c1 := c.(trace := Emit(c.trace, WaitStarted(delay)));
    if delay == 0.0 then Resume(c1) else c1.(phase := Waiting)
  }

  function Stop(c: Client): Client {
    StoreStatus(c, Disconnected).(phase := Stopped)
  }

  /** The first inputs `wait_reconnect_delay_or_shutdown` listens for end it. */
  function WaitStep(c: Client, input: Input): Client {
    match input
    case DelayElapsed => Resume(c.(trace := Emit(c.trace, WaitElapsed)))
    case Received(None) => c.(phase := Stopped, trace := Emit(c.trace, ChannelClosed))
    case Received(Some(command)) =>
      var c1 := c.(trace := Emit(c.trace, Discarded(command)));
      if command == Shutdown then c1.(phase := Stopped) else Resume(c1)
    case _ => c
  }

  /** Strategy reset, handler hooks and the authentication frame. */
  function Greet(w: World, c: Client): Sent {
    var t1 := Emit(c.trace, StrategyReset);
    var t2 := Emit(t1, StatusStored(Connected));
    var t3 := Emit(t2, StateReset);
    var t4 := Emit(t3, OpenHook);
    var notice := w.connectionOpened(t4, c.isReconnect);
    var t6 := Deliver(w, Emit(t4, Opened(c.isReconnect, notice)), notice);
    var auth := w.auth(t6);
    var t7 := Emit(t6, AuthGenerated(auth));
    if auth.None? then Sent(t7, None) else SendFrame(w, t7, ForAuth, IntoFrame(auth.value))
  }

  // ---- run_managed_ws_loop ----

  function Open(w: World, c: Client): Client {
    var greeted := Greet(w, c);
    var c1 := c.(status := Connected, trace := greeted.trace);
    if greeted.error.Some? then
      Leave(w, c1, InternalError(AuthSendContext, greeted.error.value), false)
    else
      var mode := w.mode(greeted.trace);
      var t := Emit(greeted.trace, ModeRead(mode));
      if mode == AuthGated then
        c1.(phase := InSession, authenticated := false, trace := t)
      else
        var replayed := ReplaySubscriptions(w, t);
        var c2 := c1.(authenticated := true, trace := replayed.trace);
        if replayed.error.Some? then
          Leave(w, c2, InternalError(ReplayContext, replayed.error.value), false)
        else c2.(phase := InSession)
  }

  function OnCommand(w: World, c: Client, command: Option<Command>): Client {
    if command.None? then Stop(c.(trace := Emit(c.trace, ChannelClosed)))
    else
      var c1 := c.(trace := Emit(c.trace, Took(command.value)));
      match command.value
      case Shutdown => Stop(c1)
      case ForceReconnect(reason) => Leave(w, c1, EndpointRequested(reason), true)
      case work =>
        if !c1.authenticated && RequiresAuth(work) then c1.(pending := c1.pending + [work])
        else
          var done := AttemptCommand(w, c1.trace, work);
          var c2 := c1.(trace := done.trace);
          if done.error.Some? then Leave(w, c2, InternalError(CommandContext, done.error.value), true)
          else c2
  }

  /** `SessionAuthenticated`: replay, then drain the queue. */
  function Unlock(w: World, c: Client): Client {
    var replayed := ReplaySubscriptions(w, c.trace);
    var c1 := c.(authenticated := true, trace := replayed.trace);
    if replayed.error.Some? then
      Leave(w, c1, InternalError(ReplayAfterAuthContext, replayed.error.value), true)
    else
      var drained := ApplyPending(w, c1.trace, c1.pending);
      var c2 := c1.(trace := drained.trace, pending := drained.left);
      if drained.error.Some? then
        Leave(w, c2, InternalError(PendingCommandContext, drained.error.value), true)
      else c2
  }

  function OnAction(w: World, c: Client, action: MessageAction): Client {
    match action
    case Continue => c
    case SessionAuthenticated => Unlock(w, c)
    case Reply(payload) =>
      var sent := SendFrame(w, c.trace, ForReply, IntoFrame(payload));
      var c1 := c.(trace := sent.trace);
      if sent.error.Some? then Leave(w, c1, InternalError(MessageSendContext, sent.error.value), true)
      else c1
    case Process(message) =>
      var error := w.handle(c.trace, message);
      var c1 := c.(trace := Emit(c.trace, MessageHandled(message, error)));
      if error.Some? then Leave(w, c1, InternalError(HandleMessageContext, error.value), true)
      else c1
    case RequestReconnect(reason) => Leave(w, c, EndpointRequested(reason), true)
    case RequestShutdown => Stop(c)
  }

  function OnOutcome(w: World, c: Client, frame: Frame): Client {
    var outcome := w.parse(c.trace, frame);
    var c1 := c.(trace := Emit(c.trace, FrameParsed(frame, outcome)));
    match outcome
    case Parsed(action) => OnAction(w, c1, action)
    case ServerReported(code, message) =>
      var action := w.serverError(c1.trace, code, message);
      var c2 := c1.(trace := Emit(c1.trace, ServerErrorHandled(action)));
      if action == ContinueAfterError then c2 else Leave(w, c2, ServerError(code, message), true)
    case Unparsable(_) => c1
  }

  function OnFrame(w: World, c: Client, frame: Frame): Client {
    OnOutcome(w, c.(trace := Emit(c.trace, InboundHook(frame))), frame)
  }

  function SessionStep(w: World, c: Client, input: Input): Client {
    match input
    case Received(command) => OnCommand(w, c, command)
    case Inbound(frame, _) => OnFrame(w, c, frame)
    case ReadError(error) => Leave(w, c.(trace := Emit(c.trace, ReadFailed(error))), ReadFailure(error), true)
    case EndOfStream => Leave(w, c.(trace := Emit(c.trace, StreamEnded)), RemoteClosed, true)
    case _ => c
  }

  function DialStep(w: World, c: Client, input: Input): Client {
    match input
    case ConnectOk(_) => Open(w, c.(trace := Emit(c.trace, ConnectTried(None))))
    case ConnectFailed(error) =>
      Leave(w, c.(trace := Emit(c.trace, ConnectTried(Some(error)))), InternalError(ConnectContext, error), true)
    case _ => c
  }

  function Step(w: World, c: Client, input: Input): Client {
    match c.phase
    case Dialing => DialStep(w, c, input)
    case InSession => SessionStep(w, c, input)
    case Waiting => WaitStep(c, input)
    case Stopped => c
  }

  function Initial(): Client {
    Dial(Client(Dialing, Disconnected, false, false, [], Start))
  }

  function Run(w: World, script: seq<Input>): Client {
    if script == [] then Initial()
    else Step(w, Run(w, script[..|script| - 1]), script[|script| - 1])
  }

  // ---- run_health_checked_managed_ws_loop ----

  /** The part of `WsHealthMonitor` the loop drives. */
  datatype Counters = Counters(
    attempts: nat,
    successes: nat,
    reconnects: nat,
    messages: nat,
    errors: nat,
    lastReceived: Instant)

  datatype Health = Health(strategy: Strategy, staleThreshold: nat)

  datatype Checked = Checked(
    client: Client,
    counters: Counters,
    pings: PingHistory,
    countReconnect: bool)     // the wait under way follows a session

  function CountAttempt(k: Counters): Counters { k.(attempts := SaturatingInc(k.attempts, U64_MAX)) }
  function CountSuccess(k: Counters): Counters { k.(successes := SaturatingInc(k.successes, U64_MAX)) }
  function CountReconnect(k: Counters): Counters { k.(reconnects := SaturatingInc(k.reconnects, U64_MAX)) }
  function CountError(k: Counters): Counters { k.(errors := SaturatingInc(k.errors, U64_MAX)) }

  function CountMessage(k: Counters, at: Instant): Counters {
    k.(messages := SaturatingInc(k.messages, U64_MAX), lastReceived := at)
  }

  function ResetConnection(k: Counters, at: Instant): Counters {
    k.(messages := 0, errors := 0, lastReceived := at)
  }

  predicate MonitorStale(threshold: nat, k: Counters, now: Instant) {
    now - k.lastReceived > threshold
  }

  /** Bookkeeping after the connection was given up: a new dial counts as an
      attempt, and as a reconnect only when a session came before it. */
  function HealthLeave(w: World, h: Checked, cause: Cause, statusFirst: bool, afterSession: bool): Checked {
    var k := if afterSession && (cause.PongTimeout? || cause.StaleData?) then CountError(h.counters)
             else h.counters;
    var left := Leave(w, h.client, cause, statusFirst);
    if left.phase == Dialing then
      h.(client := left, counters := CountAttempt(if afterSession then CountReconnect(k) else k))
    else
      h.(client := left, counters := k, countReconnect := afterSession)
  }

  function HealthOpen(w: World, h: Checked, at: Instant): Checked {
    var c := h.client;
    var greeted := Greet(w, c);
    var c1 := c.(status := Connected, trace := greeted.trace);
    var h1 := h.(client := c1,
                 counters := ResetConnection(CountSuccess(h.counters), at),
                 pings := h.pings + [StrategyCleared]);
    if greeted.error.Some? then
      HealthLeave(w, h1.(counters := CountError(h1.counters)),
                  InternalError(AuthSendContext, greeted.error.value), false, false)
    else
      var mode := w.mode(greeted.trace);
      var t := Emit(greeted.trace, ModeRead(mode));
      if mode == AuthGated then
        h1.(client := c1.(phase := InSession, authenticated := false, trace := t))
      else
        var replayed := ReplaySubscriptions(w, t);
        var h2 := h1.(client := c1.(authenticated := true, trace := replayed.trace));
        if replayed.error.Some? then
          HealthLeave(w, h2.(counters := CountError(h2.counters)),
                      InternalError(ReplayContext, replayed.error.value), false, false)
        else h2.(client := h2.client.(phase := InSession))
  }

  /** End the session; internal and read errors are recorded first. */
  function HealthBreak(w: World, h: Checked, cause: Cause): Checked {
    var recorded := cause.InternalError? || cause.ReadFailure?;
    HealthLeave(w, if recorded then h.(counters := CountError(h.counters)) else h, cause, true, true)
  }

  /** Record an observation of the client inside. */
  function Note(h: Checked, t: Trace): Checked {
    h.(client := h.client.(trace := t))
  }

  function HealthOnCommand(w: World, h: Checked, command: Option<Command>): Checked {
    if command.None? then h.(client := Stop(h.client.(trace := Emit(h.client.trace, ChannelClosed))))
    else
      var h1 := Note(h, Emit(h.client.trace, Took(command.value)));
      match command.value
      case Shutdown => h1.(client := Stop(h1.client))
      case ForceReconnect(reason) => HealthBreak(w, h1, EndpointRequested(reason))
      case work =>
        if !h1.client.authenticated && RequiresAuth(work) then
          h1.(client := h1.client.(pending := h1.client.pending + [work]))
        else
          var done := AttemptCommand(w, h1.client.trace, work);
          var h2 := Note(h1, done.trace);
          if done.error.Some? then HealthBreak(w, h2, InternalError(CommandContext, done.error.value))
          else h2
  }

  function HealthOnTick(w: World, health: Health, h: Checked, checkAt: Instant, pingAt: Instant): Checked {
    if health.strategy.stale(h.pings, checkAt) then
      HealthBreak(w, Note(h, Emit(h.client.trace, PongOverdue)), PongTimeout)
    else if MonitorStale(health.staleThreshold, h.counters, checkAt) then
      HealthBreak(w, Note(h, Emit(h.client.trace, DataStale)), StaleData)
    else
      var made := health.strategy.create(h.pings, pingAt);
      var h1 := h.(pings := h.pings + [PingCreated(pingAt, made)]);
      if made.None? then h1
      else
        var sent := SendFrame(w, Emit(h.client.trace, HeartbeatMade(made.value)), ForHeartbeat, made.value);
        var h2 := Note(h1, sent.trace);
        if sent.error.Some? then HealthBreak(w, h2, InternalError(PingSendContext, sent.error.value))
        else h2
  }

  function HealthUnlock(w: World, h: Checked): Checked {
    var replayed := ReplaySubscriptions(w, h.client.trace);
    var h1 := h.(client := h.client.(authenticated := true, trace := replayed.trace));
    if replayed.error.Some? then
      HealthBreak(w, h1, InternalError(ReplayAfterAuthContext, replayed.error.value))
    else
      var drained := ApplyPending(w, h1.client.trace, h1.client.pending);
      var h2 := h1.(client := h1.client.(trace := drained.trace, pending := drained.left));
      if drained.error.Some? then
        HealthBreak(w, h2, InternalError(PendingCommandContext, drained.error.value))
      else h2
  }

  function HealthOnAction(w: World, h: Checked, action: MessageAction): Checked {
    match action
    case Continue => h
    case SessionAuthenticated => HealthUnlock(w, h)
    case Reply(payload) =>
      var sent := SendFrame(w, h.client.trace, ForReply, IntoFrame(payload));
      var h1 := Note(h, sent.trace);
      if sent.error.Some? then HealthBreak(w, h1, InternalError(MessageSendContext, sent.error.value))
      else h1
    case Process(message) =>
      var error := w.handle(h.client.trace, message);
      var h1 := Note(h, Emit(h.client.trace, MessageHandled(message, error)));
      if error.Some? then HealthBreak(w, h1, InternalError(HandleMessageContext, error.value))
      else h1
    case RequestReconnect(reason) => HealthBreak(w, h, EndpointRequested(reason))
    case RequestShutdown => h.(client := Stop(h.client))
  }

  function HealthOnOutcome(w: World, h: Checked, frame: Frame): Checked {
    var outcome := w.parse(h.client.trace, frame);
    var h1 := Note(h, Emit(h.client.trace, FrameParsed(frame, outcome)));
    match outcome
    case Parsed(action) => HealthOnAction(w, h1, action)
    case ServerReported(code, message) =>
      var action := w.serverError(h1.client.trace, code, message);
      var h2 := Note(h1, Emit(h1.client.trace, ServerErrorHandled(action))).(counters := CountError(h1.counters));
      if action == ContinueAfterError then h2
      else HealthLeave(w, h2, ServerError(code, message), true, true)
    case Unparsable(_) => h1.(counters := CountError(h1.counters))
  }

  /** The ping strategy sees a frame before the endpoint does and may keep it. */
  function HealthOnFrame(w: World, health: Health, h: Checked, frame: Frame, at: Instant): Checked {
    var result := health.strategy.examine(h.pings, frame, at);
    var h1 := Note(h, Emit(h.client.trace, InboundHook(frame)))
              .(counters := CountMessage(h.counters, at), pings := h.pings + [FrameExamined(frame, at, result)]);
    match result
    case ReplyWith(reply) =>
      var sent := SendFrame(w, Emit(h1.client.trace, PongDue(reply)), ForHeartbeat, reply);
      var h2 := Note(h1, sent.trace);
      if sent.error.Some? then HealthBreak(w, h2, InternalError(PongReplyContext, sent.error.value))
      else h2
    case PongReceived(_) => Note(h1, Emit(h1.client.trace, PongHeard))
    case InvalidPong =>
      HealthBreak(w, Note(h1, Emit(h1.client.trace, PongInvalid)).(counters := CountError(h1.counters)), PongTimeout)
    case NotPong => HealthOnOutcome(w, h1, frame)
  }

  function HealthSessionStep(w: World, health: Health, h: Checked, input: Input): Checked {
    match input
    case Received(command) => HealthOnCommand(w, h, command)
    case PingTick(checkAt, pingAt) => HealthOnTick(w, health, h, checkAt, pingAt)
    case Inbound(frame, at) => HealthOnFrame(w, health, h, frame, at)
    case ReadError(error) => HealthBreak(w, Note(h, Emit(h.client.trace, ReadFailed(error))), ReadFailure(error))
    case EndOfStream => HealthBreak(w, Note(h, Emit(h.client.trace, StreamEnded)), RemoteClosed)
    case _ => h
  }

  function HealthDialStep(w: World, h: Checked, input: Input): Checked {
    match input
    case ConnectOk(at) => HealthOpen(w, Note(h, Emit(h.client.trace, ConnectTried(None))), at)
    case ConnectFailed(error) =>
      HealthLeave(w, Note(h, Emit(h.client.trace, ConnectTried(Some(error)))).(counters := CountError(h.counters)),
                  InternalError(ConnectContext, error), true, false)
    case _ => h
  }

  function HealthWaitStep(h: Checked, input: Input): Checked {
    var c := WaitStep(h.client, input);
    if c.phase != Dialing then h.(client := c)
    else
      h.(client := c,
         counters := CountAttempt(if h.countReconnect then CountReconnect(h.counters) else h.counters))
  }

  function HealthStep(w: World, health: Health, h: Checked, input: Input): Checked {
    match h.client.phase
    case Dialing => HealthDialStep(w, h, input)
    case InSession => HealthSessionStep(w, health, h, input)
    case Waiting => HealthWaitStep(h, input)
    case Stopped => h
  }

  function HealthInitial(created: Instant): Checked {
    Checked(Initial(), CountAttempt(Counters(0, 0, 0, 0, 0, created)), [], false)
  }

  function HealthRun(w: World, health: Health, created: Instant, script: seq<Input>): Checked {
    if script == [] then HealthInitial(created)
    else HealthStep(w, health, HealthRun(w, health, created, script[..|script| - 1]), script[|script| - 1])
  }
}
