/** The connection monitor of the health-checked loop against the trace: its
    counters say what happened, no more and no less. */
module ClientCounters {
  import opened Prelude
  import opened Wire
  import opened ClientTrace
  import opened Ping
  import opened ClientLoop
  import opened ClientHeartbeat
  import opened ClientConduct
  import opened ClientConsequences

  // ---- What the trace says ----

  /** Lost before its session began. */
  predicate Stillborn(cause: Cause) {
    cause.InternalError? &&
    (cause.context == ConnectContext || cause.context == AuthSendContext || cause.context == ReplayContext)
  }

  datatype Tally = Tally(
    attempts: nat,
    successes: nat,
    reconnects: nat,          // attempts that follow the end of a session
    messages: nat,            // since the last successful connect, like `errors`
    errors: nat,
    loss: Option<Cause>,      // the latest one notified
    processing: bool)         // a parsed message is being handed to the endpoint

  /** How many errors an observation is worth. An invalid pong is recorded as an
      error and again as the pong timeout it ends the session with; what became of
      an ordinary notice is ignored; a failed command frame is counted once, with
      its attempt. */
  function ErrorsIn(o: Obs, processing: bool): nat {
    match o
    case ConnectTried(error) => Ones(error)
    case MessageHandled(_, error) => if processing then Ones(error) else 0
    case FrameParsed(_, Unparsable(_)) => 1
    case ServerErrorHandled(_) => 1
    case Wrote(purpose, _, error) => if purpose == ForCommand then 0 else Ones(error)
    case Attempted(_, error) => Ones(error)
    case ReadFailed(_) => 1
    case PongOverdue => 1
    case DataStale => 1
    case PongInvalid => 2
    case _ => 0
  }

  function Ones(error: Option<string>): nat { if error.Some? then 1 else 0 }

  function TallyStep(m: Tally, o: Obs): Tally {
    var n := m.(processing := o.FrameParsed? && o.outcome.Parsed? && o.outcome.action.Process?,
                errors := m.errors + ErrorsIn(o, m.processing));
    match o
    case StatusStored(Connecting) =>
      n.(attempts := m.attempts + 1,
         reconnects := m.reconnects + (if m.loss.Some? && !Stillborn(m.loss.value) then 1 else 0))
    case ConnectTried(None) => n.(successes := m.successes + 1, messages := 0, errors := 0)
    case InboundHook(_) => n.(messages := m.messages + 1)
    case Disconnection(cause, _, _) => n.(loss := Some(cause))
    case _ => n
  }

  function TallyOf(t: Trace): Tally {
    match t
    case Start => Tally(0, 0, 0, 0, 0, None, false)
    case Then(p, o) => TallyStep(TallyOf(p), o)
  }

  function Saturated(n: nat): nat { if n <= U64_MAX then n else U64_MAX }

  predicate Agree(k: Counters, m: Tally) {
    && k.attempts == Saturated(m.attempts)
    && k.successes == Saturated(m.successes)
    && k.reconnects == Saturated(m.reconnects)
    && k.messages == Saturated(m.messages)
    && k.errors == Saturated(m.errors)
  }

  /** The counters say what the trace says, and a wait remembers whether a session
      came before it. */
  predicate Truthful(h: Checked) {
    && Agree(h.counters, TallyOf(h.client.trace))
    && (h.client.phase == Waiting ==>
          var loss := TallyOf(h.client.trace).loss; loss.Some? && h.countReconnect == !Stillborn(loss.value))
  }

  // ---- What each operation adds ----

  lemma Tallied()
    ensures forall t: Trace, o: Obs {:trigger Emit(t, o)} :: TallyOf(Emit(t, o)) == TallyStep(TallyOf(t), o)
  {
    hide LifecycleStep, GateStep, LedgerStep, DrawsStep, TallyStep;
  }

  /** The same tally but for `n` more errors. */
  function Plus(m: Tally, n: nat): Tally { m.(errors := m.errors + n, processing := false) }

  /** An observation that counts for nothing. */
  predicate Quiet(o: Obs) {
    || o.Took? || o.ChannelClosed? || o.Discarded? || o.WaitStarted? || o.WaitElapsed? || o.StreamEnded?
    || o.HeartbeatMade? || o.PongDue? || o.PongHeard?
    || o.StrategyReset? || o.StateReset? || o.OpenHook? || o.Opened? || o.AuthGenerated? || o.ModeRead?
    || o == StatusStored(Connected) || o == StatusStored(Disconnected)
  }

  lemma Overlooked(t: Trace, o: Obs)
    requires Quiet(o)
    ensures TallyOf(Emit(t, o)) == Plus(TallyOf(t), 0)
  {
    hide LifecycleStep, GateStep, LedgerStep, DrawsStep;
  }

  lemma FrameTally(w: World, t: Trace, purpose: Purpose, frame: Frame)
    ensures var r := SendFrame(w, t, purpose, frame);
      TallyOf(r.trace) == Plus(TallyOf(t), if purpose == ForCommand then 0 else Ones(r.error))
  {
    hide Emit, TallyOf, LifecycleStep, GateStep, LedgerStep, DrawsStep;
    Tallied();
  }

  lemma {:induction false} ItemsTally(w: World, t: Trace, purpose: Purpose, items: seq<Subscription>)
    requires !TallyOf(t).processing
    ensures var r := SendAll(w, t, purpose, items);
      TallyOf(r.trace) == Plus(TallyOf(t), if purpose == ForCommand then 0 else Ones(r.error))
    decreases |items|
  {
    hide Emit, TallyOf, SendFrame, LifecycleStep, GateStep, LedgerStep, DrawsStep;
    if items != [] {
      Tallied();
      var payload := w.serialize(t, items[0]);
      var t1 := Emit(t, SubscriptionSerialized(items[0], payload));
      FrameTally(w, t1, purpose, IntoFrame(payload));
      var first := SendFrame(w, t1, purpose, IntoFrame(payload));
      if first.error.None? { ItemsTally(w, first.trace, purpose, items[1..]); }
    }
  }

  lemma ReplayTally(w: World, t: Trace)
    ensures var r := ReplaySubscriptions(w, t); TallyOf(r.trace) == Plus(TallyOf(t), Ones(r.error))
  {
    hide Emit, TallyOf, SendAll, LifecycleStep, GateStep, LedgerStep, DrawsStep;
    Tallied();
    var items := w.initial(t);
    ItemsTally(w, Emit(t, SubscriptionsListed(items)), ForReplay, items);
  }

  lemma ApplyTally(w: World, t: Trace, c: Command)
    ensures var m := TallyOf(ApplyCommand(w, t, c).trace); Plus(m, 0) == Plus(TallyOf(t), 0)
  {
    hide Emit, TallyOf, SendAll, SendFrame, LifecycleStep, GateStep, LedgerStep, DrawsStep;
    match c
    case Send(payload) => FrameTally(w, t, ForCommand, IntoFrame(payload));
    case UpdateSubscriptions(action) =>
      Tallied();
      var result := w.update(t, action);
      if result.Accepted? { ItemsTally(w, Emit(t, SubscriptionsUpdated(action, result)), ForCommand, result.items); }
    case _ =>
  }

  lemma AttemptTally(w: World, t: Trace, c: Command)
    ensures var r := AttemptCommand(w, t, c); TallyOf(r.trace) == Plus(TallyOf(t), Ones(r.error))
  {
    hide Emit, TallyOf, ApplyCommand, LifecycleStep, GateStep, LedgerStep, DrawsStep;
    Tallied();
    ApplyTally(w, t, c);
  }

  lemma {:induction false} DrainTally(w: World, t: Trace, queue: seq<Command>)
    requires !TallyOf(t).processing
    ensures var r := ApplyPending(w, t, queue); TallyOf(r.trace) == Plus(TallyOf(t), Ones(r.error))
    decreases |queue|
  {
    hide TallyOf, AttemptCommand;
    if queue != [] {
      AttemptTally(w, t, queue[0]);
      var first := AttemptCommand(w, t, queue[0]);
      if first.error.None? { DrainTally(w, first.trace, queue[1..]); }
    }
  }

  lemma GreetTally(w: World, c: Client)
    ensures var r := Greet(w, c); TallyOf(r.trace) == Plus(TallyOf(c.trace), Ones(r.error))
  {
    hide Emit, TallyOf, SendFrame, Deliver;
    var t1 := Emit(c.trace, StrategyReset);
    var t2 := Emit(t1, StatusStored(Connected));
    var t3 := Emit(t2, StateReset);
    var t4 := Emit(t3, OpenHook);
    var notice := w.connectionOpened(t4, c.isReconnect);
    var t5 := Emit(t4, Opened(c.isReconnect, notice));
    Overlooked(c.trace, StrategyReset);
    Overlooked(t1, StatusStored(Connected));
    Overlooked(t2, StateReset);
    Overlooked(t3, OpenHook);
    Overlooked(t4, Opened(c.isReconnect, notice));
    NoticeTally(w, t5, notice);
    var t6 := Deliver(w, t5, notice);
    var auth := w.auth(t6);
    Overlooked(t6, AuthGenerated(auth));
    if auth.Some? { FrameTally(w, Emit(t6, AuthGenerated(auth)), ForAuth, IntoFrame(auth.value)); }
  }

  /** What became of a notice is ignored. */
  lemma NoticeTally(w: World, t: Trace, notice: Option<Message>)
    requires !TallyOf(t).processing
    ensures TallyOf(Deliver(w, t, notice)) == TallyOf(t)
  {
    hide Emit, TallyOf, LifecycleStep, GateStep, LedgerStep, DrawsStep;
    Tallied();
  }

  lemma ChooseTally(w: World, t: Trace, action: DisconnectAction)
    requires !TallyOf(t).processing
    ensures TallyOf(ReconnectDelay(w, t, action).trace) == TallyOf(t)
  {
    hide Emit, TallyOf, LifecycleStep, GateStep, LedgerStep, DrawsStep;
    Tallied();
  }

  lemma NotifyTally(w: World, t: Trace, cause: Cause, will: bool)
    ensures TallyOf(NotifyDisconnect(w, t, cause, will)) == Plus(TallyOf(t), 0).(loss := Some(cause))
  {
    hide Emit, TallyOf, LifecycleStep, GateStep, LedgerStep, DrawsStep;
    Tallied();
  }

  lemma DepartTally(w: World, c: Client, cause: Cause, statusFirst: bool)
    ensures TallyOf(Depart(w, c, cause, statusFirst).client.trace) == Plus(TallyOf(c.trace), 0).(loss := Some(cause))
  {
    hide Emit, TallyOf, ReconnectDelay, NotifyDisconnect, LifecycleStep, GateStep, LedgerStep, DrawsStep;
    Tallied();
    var before := if statusFirst then StoreStatus(c, Disconnected) else c;
    var action := w.classify(before.trace, cause);
    var t := Emit(before.trace, Classified(cause, action));
    ChooseTally(w, t, action);
    var chosen := ReconnectDelay(w, t, action);
    NotifyTally(w, chosen.trace, cause, chosen.delay.Some?);
  }

  // ---- Giving a connection up ----

  /** What ending a session adds to the counters by itself. */
  function Charged(k: Counters, cause: Cause): Counters {
    if cause.InternalError? || cause.ReadFailure? || cause.PongTimeout? || cause.StaleData? then CountError(k) else k
  }

  lemma LeaveTally(w: World, h: Checked, cause: Cause, statusFirst: bool)
    ensures var m := TallyOf(h.client.trace); var r := Leave(w, h.client, cause, statusFirst);
      && TallyOf(r.trace) ==
         (var gone := Plus(m, 0).(loss := Some(cause)); if r.phase == Dialing then TallyStep(gone, StatusStored(Connecting)) else gone)
  {
    hide Emit, TallyOf, Depart, LifecycleStep, GateStep, LedgerStep, DrawsStep;
    Tallied();
    DepartTally(w, h.client, cause, statusFirst);
  }

  lemma LeaveCounted(w: World, h: Checked, cause: Cause, statusFirst: bool, afterSession: bool)
    requires Agree(if afterSession && (cause.PongTimeout? || cause.StaleData?) then CountError(h.counters) else h.counters,
                   TallyOf(h.client.trace))
    requires afterSession == !Stillborn(cause)
    ensures Truthful(HealthLeave(w, h, cause, statusFirst, afterSession))
  {
    hide TallyOf, Leave;
    LeaveTally(w, h, cause, statusFirst);
  }

  lemma BreakCounted(w: World, h: Checked, cause: Cause)
    requires Agree(Charged(h.counters, cause), TallyOf(h.client.trace)) && !Stillborn(cause)
    ensures Truthful(HealthBreak(w, h, cause))
  {
    hide TallyOf, HealthLeave, Truthful;
    var recorded := cause.InternalError? || cause.ReadFailure?;
    LeaveCounted(w, if recorded then h.(counters := CountError(h.counters)) else h, cause, true, true);
  }

  // ---- Every step ----

  lemma OpenCounted(w: World, h: Checked, at: Instant)
    requires Agree(ResetConnection(CountSuccess(h.counters), at), TallyOf(h.client.trace))
    ensures Truthful(HealthOpen(w, h, at))
  {
    hide TallyOf, Greet, Emit, ReplaySubscriptions, HealthLeave, LifecycleStep, GateStep, LedgerStep, DrawsStep;
    var c := h.client;
    GreetTally(w, c);
    var greeted := Greet(w, c);
    var c1 := c.(status := Connected, trace := greeted.trace);
    var h1 := h.(client := c1, counters := CountError(ResetConnection(CountSuccess(h.counters), at)),
                 pings := h.pings + [StrategyCleared]);
    if greeted.error.Some? {
      LeaveCounted(w, h1, InternalError(AuthSendContext, greeted.error.value), false, false);
    } else {
      Tallied();
      var t := Emit(greeted.trace, ModeRead(w.mode(greeted.trace)));
      ReplayTally(w, t);
      var replayed := ReplaySubscriptions(w, t);
      if replayed.error.Some? {
        LeaveCounted(w, h1.(client := c1.(authenticated := true, trace := replayed.trace)),
                     InternalError(ReplayContext, replayed.error.value), false, false);
      }
    }
  }

  lemma DialCounted(w: World, h: Checked, input: Input)
    requires Truthful(h) && h.client.phase == Dialing
    ensures Truthful(HealthDialStep(w, h, input))
  {
    hide TallyOf, Emit, HealthOpen, HealthLeave, LifecycleStep, GateStep, LedgerStep, DrawsStep;
    Tallied();
    match input
    case ConnectOk(at) => OpenCounted(w, Note(h, Emit(h.client.trace, ConnectTried(None))), at);
    case ConnectFailed(error) =>
      LeaveCounted(w, Note(h, Emit(h.client.trace, ConnectTried(Some(error)))).(counters := CountError(h.counters)),
                   InternalError(ConnectContext, error), true, false);
    case _ =>
  }

  lemma QuietCounted(h: Checked, o: Obs)
    requires Truthful(h) && h.client.phase == InSession && Quiet(o)
    ensures Truthful(Note(h, Emit(h.client.trace, o)))
  {
    hide TallyOf, Emit, Quiet;
    Overlooked(h.client.trace, o);
  }

  lemma StopCounted(h: Checked)
    requires Truthful(h) && h.client.phase == InSession
    ensures Truthful(h.(client := Stop(h.client)))
  {
    hide TallyOf, Emit;
    QuietCounted(h, StatusStored(Disconnected));
  }

  lemma CommandCounted(w: World, h: Checked, command: Option<Command>)
    requires Truthful(h) && h.client.phase == InSession
    ensures Truthful(HealthOnCommand(w, h, command))
  {
    hide TallyOf, Emit, AttemptCommand, HealthBreak, Stop;
    if command.None? {
      QuietCounted(h, ChannelClosed);
      StopCounted(Note(h, Emit(h.client.trace, ChannelClosed)));
    } else {
      QuietCounted(h, Took(command.value));
      var h1 := Note(h, Emit(h.client.trace, Took(command.value)));
      match command.value
      case Shutdown => StopCounted(h1);
      case ForceReconnect(reason) => BreakCounted(w, h1, EndpointRequested(reason));
      case work => WorkCounted(w, h1, work);
    }
  }

  lemma WorkCounted(w: World, h: Checked, work: Command)
    requires Truthful(h) && h.client.phase == InSession
    ensures var done := AttemptCommand(w, h.client.trace, work);
      Truthful(if done.error.Some? then HealthBreak(w, Note(h, done.trace), InternalError(CommandContext, done.error.value))
              else Note(h, done.trace))
  {
    hide TallyOf, AttemptCommand, HealthBreak;
    AttemptTally(w, h.client.trace, work);
    var done := AttemptCommand(w, h.client.trace, work);
    if done.error.Some? { BreakCounted(w, Note(h, done.trace), InternalError(CommandContext, done.error.value)); }
  }

  /** A heartbeat frame due, written or failed. */
  lemma BeatCounted(w: World, h: Checked, due: Obs, context: Context)
    requires Truthful(h) && h.client.phase == InSession
    requires due.HeartbeatMade? || due.PongDue?
    requires context == PingSendContext || context == PongReplyContext
    ensures var sent := SendFrame(w, Emit(h.client.trace, due), ForHeartbeat, due.beat);
      Truthful(if sent.error.Some? then HealthBreak(w, Note(h, sent.trace), InternalError(context, sent.error.value))
              else Note(h, sent.trace))
  {
    hide TallyOf, Emit, SendFrame, HealthBreak;
    QuietCounted(h, due);
    FrameTally(w, Emit(h.client.trace, due), ForHeartbeat, due.beat);
    var sent := SendFrame(w, Emit(h.client.trace, due), ForHeartbeat, due.beat);
    if sent.error.Some? { BreakCounted(w, Note(h, sent.trace), InternalError(context, sent.error.value)); }
  }

  /** A verdict of the health object ends the session as a loss of its own. */
  lemma VerdictCounted(w: World, h: Checked, verdict: Obs)
    requires Truthful(h) && h.client.phase == InSession
    requires verdict.PongOverdue? || verdict.DataStale? || verdict.PongInvalid?
    ensures var h1 := Note(h, Emit(h.client.trace, verdict));
      Truthful(HealthBreak(w, if verdict.PongInvalid? then h1.(counters := CountError(h.counters)) else h1,
                          if verdict.DataStale? then StaleData else PongTimeout))
  {
    hide TallyOf, Emit, HealthBreak, LifecycleStep, GateStep, LedgerStep, DrawsStep;
    Tallied();
    var h1 := Note(h, Emit(h.client.trace, verdict));
    BreakCounted(w, if verdict.PongInvalid? then h1.(counters := CountError(h.counters)) else h1,
                 if verdict.DataStale? then StaleData else PongTimeout);
  }

  lemma TickCounted(w: World, health: Health, h: Checked, checkAt: Instant, pingAt: Instant)
    requires Truthful(h) && h.client.phase == InSession
    ensures Truthful(HealthOnTick(w, health, h, checkAt, pingAt))
  {
    hide TallyOf, Emit, SendFrame, HealthBreak;
    if health.strategy.stale(h.pings, checkAt) {
      VerdictCounted(w, h, PongOverdue);
    } else if MonitorStale(health.staleThreshold, h.counters, checkAt) {
      VerdictCounted(w, h, DataStale);
    } else {
      var made := health.strategy.create(h.pings, pingAt);
      if made.Some? {
        BeatCounted(w, h.(pings := h.pings + [PingCreated(pingAt, made)]), HeartbeatMade(made.value), PingSendContext);
      }
    }
  }

  lemma UnlockCounted(w: World, h: Checked)
    requires Truthful(h) && h.client.phase == InSession
    ensures Truthful(HealthUnlock(w, h))
  {
    hide TallyOf, ReplaySubscriptions, ApplyPending, HealthBreak;
    ReplayTally(w, h.client.trace);
    var replayed := ReplaySubscriptions(w, h.client.trace);
    var h1 := h.(client := h.client.(authenticated := true, trace := replayed.trace));
    if replayed.error.Some? {
      BreakCounted(w, h1, InternalError(ReplayAfterAuthContext, replayed.error.value));
    } else {
      DrainTally(w, h1.client.trace, h1.client.pending);
      var drained := ApplyPending(w, h1.client.trace, h1.client.pending);
      if drained.error.Some? {
        BreakCounted(w, h1.(client := h1.client.(trace := drained.trace, pending := drained.left)),
                     InternalError(PendingCommandContext, drained.error.value));
      }
    }
  }

  lemma ActionCounted(w: World, h: Checked, action: MessageAction)
    requires Truthful(h) && h.client.phase == InSession
    requires action.Process? ==> TallyOf(h.client.trace).processing
    ensures Truthful(HealthOnAction(w, h, action))
  {
    hide TallyOf, Emit, SendFrame, HealthUnlock, HealthBreak, LifecycleStep, GateStep, LedgerStep, DrawsStep;
    match action
    case Continue =>
    case SessionAuthenticated => UnlockCounted(w, h);
    case Reply(payload) =>
      FrameTally(w, h.client.trace, ForReply, IntoFrame(payload));
      var sent := SendFrame(w, h.client.trace, ForReply, IntoFrame(payload));
      if sent.error.Some? { BreakCounted(w, Note(h, sent.trace), InternalError(MessageSendContext, sent.error.value)); }
    case Process(message) =>
      Tallied();
      var error := w.handle(h.client.trace, message);
      if error.Some? {
        BreakCounted(w, Note(h, Emit(h.client.trace, MessageHandled(message, error))), InternalError(HandleMessageContext, error.value));
      }
    case RequestReconnect(reason) => BreakCounted(w, h, EndpointRequested(reason));
    case RequestShutdown => Tallied();
  }

  lemma OutcomeCounted(w: World, h: Checked, frame: Frame)
    requires Truthful(h) && h.client.phase == InSession
    ensures Truthful(HealthOnOutcome(w, h, frame))
  {
    hide TallyOf, Emit, HealthOnAction, HealthLeave, LifecycleStep, GateStep, LedgerStep, DrawsStep;
    Tallied();
    var outcome := w.parse(h.client.trace, frame);
    var h1 := Note(h, Emit(h.client.trace, FrameParsed(frame, outcome)));
    match outcome
    case Parsed(action) => ActionCounted(w, h1, action);
    case ServerReported(code, message) =>
      var action := w.serverError(h1.client.trace, code, message);
      var h2 := Note(h1, Emit(h1.client.trace, ServerErrorHandled(action))).(counters := CountError(h1.counters));
      if action != ContinueAfterError { LeaveCounted(w, h2, ServerError(code, message), true, true); }
    case Unparsable(_) =>
  }

  lemma HeardCounted(h: Checked, frame: Frame, at: Instant, pings: PingHistory)
    requires Truthful(h) && h.client.phase == InSession
    ensures Truthful(Note(h, Emit(h.client.trace, InboundHook(frame))).(counters := CountMessage(h.counters, at), pings := pings))
  {
    hide TallyOf, Emit, LifecycleStep, GateStep, LedgerStep, DrawsStep;
    Tallied();
  }

  lemma FrameCounted(w: World, health: Health, h: Checked, frame: Frame, at: Instant)
    requires Truthful(h) && h.client.phase == InSession
    ensures Truthful(HealthOnFrame(w, health, h, frame, at))
  {
    hide Truthful, Emit, SendFrame, HealthOnOutcome, HealthBreak;
    var result := health.strategy.examine(h.pings, frame, at);
    var h1 := Note(h, Emit(h.client.trace, InboundHook(frame)))
              .(counters := CountMessage(h.counters, at), pings := h.pings + [FrameExamined(frame, at, result)]);
    HeardCounted(h, frame, at, h1.pings);
    match result
    case ReplyWith(reply) => BeatCounted(w, h1, PongDue(reply), PongReplyContext);
    case PongReceived(_) => QuietCounted(h1, PongHeard);
    case InvalidPong => VerdictCounted(w, h1, PongInvalid);
    case NotPong => OutcomeCounted(w, h1, frame);
  }

  lemma ReadCounted(w: World, h: Checked, error: string)
    requires Truthful(h) && h.client.phase == InSession
    ensures Truthful(HealthBreak(w, Note(h, Emit(h.client.trace, ReadFailed(error))), ReadFailure(error)))
  {
    hide TallyOf, Emit, HealthBreak, LifecycleStep, GateStep, LedgerStep, DrawsStep;
    Tallied();
    BreakCounted(w, Note(h, Emit(h.client.trace, ReadFailed(error))), ReadFailure(error));
  }

  lemma CloseCounted(w: World, h: Checked)
    requires Truthful(h) && h.client.phase == InSession
    ensures Truthful(HealthBreak(w, Note(h, Emit(h.client.trace, StreamEnded)), RemoteClosed))
  {
    hide TallyOf, Emit, HealthBreak;
    QuietCounted(h, StreamEnded);
    BreakCounted(w, Note(h, Emit(h.client.trace, StreamEnded)), RemoteClosed);
  }

  lemma SessionCounted(w: World, health: Health, h: Checked, input: Input)
    requires Truthful(h) && h.client.phase == InSession
    ensures Truthful(HealthSessionStep(w, health, h, input))
  {
    hide Truthful, Emit, HealthOnCommand, HealthOnTick, HealthOnFrame, HealthBreak;
    match input
    case Received(command) => CommandCounted(w, h, command);
    case PingTick(checkAt, pingAt) => TickCounted(w, health, h, checkAt, pingAt);
    case Inbound(frame, at) => FrameCounted(w, health, h, frame, at);
    case ReadError(error) => ReadCounted(w, h, error);
    case EndOfStream => CloseCounted(w, h);
    case _ =>
  }

  lemma WaitTally(c: Client, input: Input)
    requires c.phase == Waiting
    ensures var m, r := TallyOf(c.trace), WaitStep(c, input);
      Plus(TallyOf(r.trace), 0) ==
      (if r.phase == Dialing then TallyStep(Plus(m, 0), StatusStored(Connecting)) else Plus(m, 0))
  {
    hide TallyOf, Emit, Resume;
    match input
    case DelayElapsed =>
      RedialTally(c, WaitElapsed);
    case Received(None) =>
      Overlooked(c.trace, ChannelClosed);
    case Received(Some(command)) =>
      Overlooked(c.trace, Discarded(command));
      RedialTally(c, Discarded(command));
    case _ =>
  }

  lemma RedialTally(c: Client, o: Obs)
    requires Quiet(o)
    ensures var r := Resume(c.(trace := Emit(c.trace, o)));
      && TallyOf(r.trace) == TallyStep(Plus(TallyOf(c.trace), 0), StatusStored(Connecting)) && r.phase == Dialing
  {
    hide TallyOf, Emit, Quiet, TallyStep;
    Overlooked(c.trace, o);
    Tallied();
  }

  lemma WaitCounted(h: Checked, input: Input)
    requires Truthful(h) && h.client.phase == Waiting
    ensures Truthful(HealthWaitStep(h, input))
  {
    hide TallyOf, WaitStep;
    WaitTally(h.client, input);
  }

  /** Every step keeps the counters true to the trace. */
  lemma StepCounted(w: World, health: Health, h: Checked, input: Input)
    requires Truthful(h)
    ensures Truthful(HealthStep(w, health, h, input))
  {
    hide Truthful, HealthDialStep, HealthSessionStep, HealthWaitStep;
    match h.client.phase
    case Dialing => DialCounted(w, h, input);
    case InSession => SessionCounted(w, health, h, input);
    case Waiting => WaitCounted(h, input);
    case Stopped =>
  }

  lemma InitialCounted(created: Instant)
    ensures Truthful(HealthInitial(created))
  {
    hide TallyOf, Emit, LifecycleStep, GateStep, LedgerStep, DrawsStep;
    Tallied();
    NothingTallied();
  }

  lemma NothingTallied()
    ensures TallyOf(Start) == Tally(0, 0, 0, 0, 0, None, false)
  {
  }

  /** After every run the counters say what the trace says, saturation included. */
  lemma {:induction false} EveryRunCounted(w: World, health: Health, created: Instant, script: seq<Input>)
    ensures Truthful(HealthRun(w, health, created, script))
  {
    hide Truthful, HealthStep;
    if script == [] {
      InitialCounted(created);
    } else {
      var n := |script| - 1;
      EveryRunCounted(w, health, created, script[..n]);
      StepCounted(w, health, HealthRun(w, health, created, script[..n]), script[n]);
    }
  }

  // ---- The last contact ----

  /** When the peer was last heard: the latest frame or connect the loop saw. */
  function LastContact(w: World, health: Health, created: Instant, script: seq<Input>): Instant {
    if script == [] then created
    else
      var n := |script| - 1;
      var phase, input := HealthRun(w, health, created, script[..n]).client.phase, script[n];
      if phase == Dialing && input.ConnectOk? then input.at
      else if phase == InSession && input.Inbound? then input.at
      else LastContact(w, health, created, script[..n])
  }

  lemma LeavingHearsNothing()
    ensures forall w: World, h: Checked, cause: Cause, statusFirst: bool, afterSession: bool
              {:trigger HealthLeave(w, h, cause, statusFirst, afterSession)} ::
              HealthLeave(w, h, cause, statusFirst, afterSession).counters.lastReceived == h.counters.lastReceived
    ensures forall w: World, h: Checked, cause: Cause {:trigger HealthBreak(w, h, cause)} ::
              HealthBreak(w, h, cause).counters.lastReceived == h.counters.lastReceived
  {
    hide Leave;
  }

  lemma CommandContact(w: World, h: Checked, command: Option<Command>)
    ensures HealthOnCommand(w, h, command).counters.lastReceived == h.counters.lastReceived
  {
    hide Emit, HealthBreak, AttemptCommand, Stop;
    LeavingHearsNothing();
  }

  lemma TickContact(w: World, health: Health, h: Checked, checkAt: Instant, pingAt: Instant)
    ensures HealthOnTick(w, health, h, checkAt, pingAt).counters.lastReceived == h.counters.lastReceived
  {
    hide Emit, HealthBreak, SendFrame;
    LeavingHearsNothing();
  }

  lemma OutcomeContact(w: World, h: Checked, frame: Frame)
    ensures HealthOnOutcome(w, h, frame).counters.lastReceived == h.counters.lastReceived
  {
    hide Emit, HealthLeave, HealthOnAction;
    LeavingHearsNothing();
    var outcome := w.parse(h.client.trace, frame);
    if outcome.Parsed? {
      ActionContact(w, Note(h, Emit(h.client.trace, FrameParsed(frame, outcome))), outcome.action);
    }
  }

  lemma FrameContact(w: World, health: Health, h: Checked, frame: Frame, at: Instant)
    ensures HealthOnFrame(w, health, h, frame, at).counters.lastReceived == at
  {
    hide Emit, HealthBreak, HealthOnOutcome, SendFrame;
    LeavingHearsNothing();
    var result := health.strategy.examine(h.pings, frame, at);
    OutcomeContact(w, Note(h, Emit(h.client.trace, InboundHook(frame)))
                      .(counters := CountMessage(h.counters, at), pings := h.pings + [FrameExamined(frame, at, result)]),
                   frame);
  }

  lemma SessionContact(w: World, health: Health, h: Checked, input: Input)
    ensures HealthSessionStep(w, health, h, input).counters.lastReceived ==
            if input.Inbound? then input.at else h.counters.lastReceived
  {
    hide Emit, HealthBreak, HealthOnCommand, HealthOnTick, HealthOnFrame;
    match input
    case Received(command) => CommandContact(w, h, command);
    case PingTick(checkAt, pingAt) => TickContact(w, health, h, checkAt, pingAt);
    case Inbound(frame, at) => FrameContact(w, health, h, frame, at);
    case _ => LeavingHearsNothing();
  }

  lemma ActionContact(w: World, h: Checked, action: MessageAction)
    ensures HealthOnAction(w, h, action).counters.lastReceived == h.counters.lastReceived
  {
    hide Emit, HealthBreak, SendFrame, ReplaySubscriptions, ApplyPending, Stop;
    LeavingHearsNothing();
  }

  lemma DialContact(w: World, h: Checked, input: Input)
    ensures HealthDialStep(w, h, input).counters.lastReceived ==
            if input.ConnectOk? then input.at else h.counters.lastReceived
  {
    hide Emit, HealthLeave, ReplaySubscriptions, Greet;
    LeavingHearsNothing();
  }

  lemma StepContact(w: World, health: Health, h: Checked, input: Input)
    ensures HealthStep(w, health, h, input).counters.lastReceived ==
            if h.client.phase == Dialing && input.ConnectOk? then input.at
            else if h.client.phase == InSession && input.Inbound? then input.at
            else h.counters.lastReceived
  {
    hide HealthDialStep, HealthSessionStep, WaitStep;
    DialContact(w, h, input);
    SessionContact(w, health, h, input);
  }

  lemma {:induction false} LastReceivedIsLastContact(w: World, health: Health, created: Instant, script: seq<Input>)
    ensures HealthRun(w, health, created, script).counters.lastReceived == LastContact(w, health, created, script)
  {
    hide HealthStep;
    if script != [] {
      var n := |script| - 1;
      LastReceivedIsLastContact(w, health, created, script[..n]);
      StepContact(w, health, HealthRun(w, health, created, script[..n]), script[n]);
    }
  }

  // ---- When data goes stale ----

  /** A tick that finds no ping overdue finds the data stale, and ends the session
      for it, if and only if the last contact is older than the threshold. */
  lemma TickFindsDataStaleIff(w: World, health: Health, created: Instant, script: seq<Input>, checkAt: Instant, pingAt: Instant)
    requires HealthRun(w, health, created, script).client.phase == InSession
    ensures var h := HealthRun(w, health, created, script);
      var r := HealthRun(w, health, created, script + [PingTick(checkAt, pingAt)]);
      var stale := !health.strategy.stale(h.pings, checkAt) && checkAt - LastContact(w, health, created, script) > health.staleThreshold;
      && (ConductOf(w, r.client.trace).heard == ConductOf(w, h.client.trace).heard + [DataStale] <==> stale)
      && (stale ==> r.client.phase != InSession)
  {
    hide HealthRun, HealthStep, ConductOf, LastContact;
    LastReceivedIsLastContact(w, health, created, script);
    var h, tick := HealthRun(w, health, created, script), PingTick(checkAt, pingAt);
    EveryHealthRunConducted(w, health, created, script);
    HealthStepConduct(w, health, h, tick);
    HealthRunThen(w, health, created, script, tick);
    var heard, event := ConductOf(w, h.client.trace).heard, TickEvent(health, h, checkAt);
    assert event != [] ==> (heard + event)[|heard|] == event[0];
    if HealthStep(w, health, h, tick).client.phase == InSession {
      SessionContinues(w, health, h, tick);
    }
  }
}
