/** The complete conduct of the client: after every observation, what must come
    next. A trace that keeps to it answers every event as the loops promise,
    records the world's own answers, and owes nothing when a step is over. */
module ClientConduct {
  import opened Prelude
  import opened Wire
  import opened ClientTrace
  import opened Ping
  import opened ClientLoop
  import opened ClientInvariant
  import opened ClientHeartbeat

  /** What a frame is written for, and what is left to write for it. */
  datatype Job =
    | Introducing                                          // authentication
    | Replying
    | Beating(context: Context)
    | Restoring(left: seq<Subscription>, context: Context)
    | Sending(payload: Bytes, context: Context)
    | Updating(action: SubscriptionAction, left: seq<Subscription>, context: Context)

  /** What a handled message belongs to. */
  datatype Matter = InSessionMatter | OpeningMatter | PartingMatter(cause: Cause, promised: Option<Delay>)

  datatype Duty =
    | ToRedial                                    // store Connecting
    | AtConnect                                   // a connection attempt
    | Greeting(done: nat)                         // the steps that open a connection
    | ToHandle(message: Message, matter: Matter)
    | ToShow(frame: Frame, job: Job)              // to the outbound hook
    | ToWrite(frame: Frame, job: Job)
    | ToList(context: Context)                    // list the subscriptions to replay
    | ToSerialize(job: Job)
    | ToUpdate(action: SubscriptionAction, context: Context)
    | ToReport(command: Command, error: Option<string>, context: Context)
    | ToDrain                                     // carry out the queue
    | AtSession                                   // the session's select
    | ToExamine(inbound: Frame)                   // a frame was shown to the inbound hook
    | ToJudge(code: int, text: string)            // the server reported an error
    | ToLose(cause: Cause)
    | ToClassify(cause: Cause)
    | ToAskRetry(cause: Cause)
    | ToDraw(cause: Cause)
    | ToNotify(cause: Cause, promised: Option<Delay>)
    | ToStore(promised: Option<Delay>)            // store Disconnected after notifying
    | ToWait(delay: Delay)
    | AtRest                                      // a wait is under way
    | ToStop                                      // store Disconnected and end
    | AtEnd
    | Broken

  datatype Conduct = Conduct(
    duty: Duty,
    authenticated: bool,
    queue: seq<Command>,
    heard: seq<Obs>,        // the events that reached the loop
    beats: seq<Frame>)      // the heartbeat frames written

  // ---- The pieces ----

  /** Authentication and the first replay fail before the status is stored. */
  predicate Late(cause: Cause) {
    cause.InternalError? && (cause.context == AuthSendContext || cause.context == ReplayContext)
  }

  predicate Listing(job: Job) { job.Restoring? || job.Updating? }

  function PurposeOf(job: Job): Purpose {
    match job
    case Introducing => ForAuth
    case Replying => ForReply
    case Beating(_) => ForHeartbeat
    case Restoring(_, _) => ForReplay
    case Sending(_, _) => ForCommand
    case Updating(_, _, _) => ForCommand
  }

  /** A failed write loses the connection, or is the command's result. */
  function Failed(job: Job, error: string): Duty {
    match job
    case Introducing => ToLose(InternalError(AuthSendContext, error))
    case Replying => ToLose(InternalError(MessageSendContext, error))
    case Beating(context) => ToLose(InternalError(context, error))
    case Restoring(_, context) => ToLose(InternalError(context, error))
    case Sending(payload, context) => ToReport(Send(payload), Some(error), context)
    case Updating(action, _, context) => ToReport(UpdateSubscriptions(action), Some(error), context)
  }

  function Finished(job: Job): Duty {
    match job
    case Introducing => Greeting(6)
    case Replying => AtSession
    case Beating(_) => AtSession
    case Restoring(_, context) => Replayed(context)
    case Sending(payload, context) => ToReport(Send(payload), None, context)
    case Updating(action, _, context) => ToReport(UpdateSubscriptions(action), None, context)
  }

  /** Go on with what is left to write. */
  function Pursue(job: Job): Duty {
    if Listing(job) && job.left != [] then ToSerialize(job) else Finished(job)
  }

  /** Carrying out a command: exactly its own frames, then its report. */
  function Carry(command: Command, context: Context): Duty {
    match command
    case Send(payload) => ToShow(IntoFrame(payload), Sending(payload, context))
    case UpdateSubscriptions(action) => ToUpdate(action, context)
    case _ => ToReport(command, None, context)
  }

  function Resolved(matter: Matter): Duty {
    match matter
    case InSessionMatter => AtSession
    case OpeningMatter => Greeting(5)
    case PartingMatter(cause, promised) => Parted(cause, promised)
  }

  function Reported(context: Context, error: Option<string>): Duty {
    if error.Some? then ToLose(InternalError(context, error.value))
    else if context == PendingCommandContext then ToDrain else AtSession
  }

  function Replayed(context: Context): Duty {
    if context == ReplayAfterAuthContext then ToDrain else AtSession
  }

  function Promise(promised: Option<Delay>): Duty {
    if promised.Some? then ToWait(promised.value) else AtEnd
  }

  function Parted(cause: Cause, promised: Option<Delay>): Duty {
    if Late(cause) then ToStore(promised) else Promise(promised)
  }

  /** Take up a duty; draining takes the first queued command, if there is one. */
  function Go(m: Conduct, duty: Duty): Conduct {
    if duty != ToDrain then m.(duty := duty)
    else if m.queue == [] then m.(duty := AtSession)
    else m.(duty := Carry(m.queue[0], PendingCommandContext), queue := m.queue[1..])
  }

  function Break(m: Conduct): Conduct { m.(duty := Broken) }

  // ---- What each duty accepts ----

  function GreetingStep(m: Conduct, done: nat, o: Obs): Conduct {
    match o
    case StrategyReset => if done == 0 then m.(duty := Greeting(1)) else Break(m)
    case StatusStored(Connected) => if done == 1 then m.(duty := Greeting(2)) else Break(m)
    case StateReset => if done == 2 then m.(duty := Greeting(3)) else Break(m)
    case OpenHook => if done == 3 then m.(duty := Greeting(4)) else Break(m)
    case Opened(_, notice) =>
      if done != 4 then Break(m)
      else m.(duty := if notice.Some? then ToHandle(notice.value, OpeningMatter) else Greeting(5))
    case AuthGenerated(auth) =>
      if done != 5 then Break(m)
      else m.(duty := if auth.Some? then ToShow(IntoFrame(auth.value), Introducing)
                      else Greeting(6))
    case ModeRead(mode) =>
      if done != 6 then Break(m)
      else if mode == Public then m.(duty := ToList(ReplayContext), authenticated := true)
      else m.(duty := AtSession, authenticated := false)
    case _ => Break(m)
  }

  function TookStep(m: Conduct, command: Command): Conduct {
    match command
    case Shutdown => m.(duty := ToStop)
    case ForceReconnect(reason) => m.(duty := ToLose(EndpointRequested(reason)))
    case _ =>
      if m.authenticated then m.(duty := Carry(command, CommandContext))
      else m.(duty := AtSession, queue := m.queue + [command])
  }

  function SessionObs(m: Conduct, o: Obs): Conduct {
    match o
    case Took(command) => TookStep(m, command)
    case ChannelClosed => m.(duty := ToStop)
    case InboundHook(frame) => m.(duty := ToExamine(frame))
    case ReadFailed(failure) => m.(duty := ToLose(ReadFailure(failure)))
    case StreamEnded => m.(duty := ToLose(RemoteClosed))
    case PongOverdue => m.(duty := ToLose(PongTimeout))
    case DataStale => m.(duty := ToLose(StaleData))
    case HeartbeatMade(frame) => m.(duty := ToShow(frame, Beating(PingSendContext)))
    case _ => Break(m)
  }

  function ParsedStep(m: Conduct, outcome: ParseOutcome): Conduct {
    match outcome
    case Parsed(Continue) => m.(duty := AtSession)
    case Parsed(SessionAuthenticated) => m.(duty := ToList(ReplayAfterAuthContext), authenticated := true)
    case Parsed(Reply(payload)) =>
      m.(duty := ToShow(IntoFrame(payload), Replying))
    case Parsed(Process(message)) => m.(duty := ToHandle(message, InSessionMatter))
    case Parsed(RequestReconnect(reason)) => m.(duty := ToLose(EndpointRequested(reason)))
    case Parsed(RequestShutdown) => m.(duty := ToStop)
    case ServerReported(code, text) => m.(duty := ToJudge(code, text))
    case Unparsable(_) => m.(duty := AtSession)
  }

  function ExamineStep(m: Conduct, frame: Frame, o: Obs): Conduct {
    match o
    case FrameParsed(parsed, outcome) => if parsed == frame then ParsedStep(m, outcome) else Break(m)
    case PongDue(beat) => m.(duty := ToShow(beat, Beating(PongReplyContext)))
    case PongHeard => m.(duty := AtSession)
    case PongInvalid => m.(duty := ToLose(PongTimeout))
    case _ => Break(m)
  }

  function WriteStep(m: Conduct, frame: Frame, job: Job, o: Obs): Conduct {
    if o.Wrote? && o.purpose == PurposeOf(job) && o.outbound == frame
    then Go(m, if o.error.None? then Pursue(job) else Failed(job, o.error.value))
    else Break(m)
  }

  function SerializeStep(m: Conduct, job: Job, o: Obs): Conduct {
    if Listing(job) && job.left != [] && o.SubscriptionSerialized? && o.item == job.left[0]
    then m.(duty := ToShow(IntoFrame(o.payload), job.(left := job.left[1..])))
    else Break(m)
  }

  function UpdateStep(m: Conduct, action: SubscriptionAction, context: Context, o: Obs): Conduct {
    if !o.SubscriptionsUpdated? || o.update != action then Break(m)
    else if o.result.Refused? then m.(duty := ToReport(UpdateSubscriptions(action), Some(o.result.error), context))
    else m.(duty := Pursue(Updating(action, o.result.items, context)))
  }

  function ClassifyStep(m: Conduct, cause: Cause, o: Obs): Conduct {
    if !o.Classified? || o.cause != cause then Break(m)
    else match o.decision
      case Abort => m.(duty := ToNotify(cause, None))
      case ImmediateReconnect => m.(duty := ToNotify(cause, Some(0.0)))
      case BackoffReconnect => m.(duty := ToAskRetry(cause))
  }

  function NotifyStep(m: Conduct, cause: Cause, promised: Option<Delay>, o: Obs): Conduct {
    if !o.Disconnection? || o.cause != cause || o.willReconnect != promised.Some? then Break(m)
    else m.(duty := if o.notice.Some? then ToHandle(o.notice.value, PartingMatter(cause, promised)) else Parted(cause, promised))
  }

  function RestStep(m: Conduct, o: Obs): Conduct {
    match o
    case WaitElapsed => m.(duty := ToRedial)
    case ChannelClosed => m.(duty := AtEnd)
    case Discarded(command) => m.(duty := if command == Shutdown then AtEnd else ToRedial)
    case _ => Break(m)
  }

  function Expect(m: Conduct, met: bool, duty: Duty): Conduct {
    if met then m.(duty := duty) else Break(m)
  }

  function Respond(w: World, p: Trace, m: Conduct, o: Obs): Conduct {
    match m.duty
    case ToRedial => Expect(m, o == StatusStored(Connecting), AtConnect)
    case AtConnect =>
      if !o.ConnectTried? then Break(m)
      else m.(duty := if o.error.None? then Greeting(0) else ToLose(InternalError(ConnectContext, o.error.value)))
    case Greeting(done) => GreetingStep(m, done, o)
    case ToHandle(message, matter) =>
      if !o.MessageHandled? || o.message != message then Break(m)
      else m.(duty := if matter == InSessionMatter && o.error.Some? then ToLose(InternalError(HandleMessageContext, o.error.value))
                      else Resolved(matter))
    case ToShow(frame, job) => Expect(m, o == OutboundHook(frame), ToWrite(frame, job))
    case ToWrite(frame, job) => WriteStep(m, frame, job, o)
    case ToList(context) => if o.SubscriptionsListed? then Go(m, Pursue(Restoring(o.items, context))) else Break(m)
    case ToSerialize(job) => SerializeStep(m, job, o)
    case ToUpdate(action, context) => UpdateStep(m, action, context, o)
    case ToReport(command, error, context) =>
      if o == Attempted(command, error) then Go(m, Reported(context, error)) else Break(m)
    case AtSession => SessionObs(m, o)
    case ToExamine(frame) => ExamineStep(m, frame, o)
    case ToJudge(code, text) =>
      if !o.ServerErrorHandled? || o.action != w.serverError(p, code, text) then Break(m)
      else m.(duty := if o.action == ContinueAfterError then AtSession else ToLose(ServerError(code, text)))
    case ToLose(cause) =>
      if Late(cause) then ClassifyStep(m, cause, o) else Expect(m, o == StatusStored(Disconnected), ToClassify(cause))
    case ToClassify(cause) => ClassifyStep(m, cause, o)
    case ToAskRetry(cause) =>
      if o.RetryAsked? then m.(duty := if o.ok then ToDraw(cause) else ToNotify(cause, None)) else Break(m)
    case ToDraw(cause) => if o.DelayDrawn? then m.(duty := ToNotify(cause, Some(o.delay))) else Break(m)
    case ToNotify(cause, promised) => NotifyStep(m, cause, promised, o)
    case ToStore(promised) => Expect(m, o == StatusStored(Disconnected), Promise(promised))
    case ToWait(delay) => Expect(m, o == WaitStarted(delay), if delay > 0.0 then AtRest else ToRedial)
    case AtRest => RestStep(m, o)
    case ToStop => Expect(m, o == StatusStored(Disconnected), AtEnd)
    case _ => Break(m)
  }

  /** The observation records what the world answered at that point. */
  predicate Answered(w: World, p: Trace, o: Obs) {
    match o
    case Wrote(_, frame, error) => error == w.write(p, frame)
    case AuthGenerated(auth) => auth == w.auth(p)
    case ModeRead(mode) => mode == w.mode(p)
    case Opened(again, notice) => notice == w.connectionOpened(p, again)
    case Disconnection(cause, will, notice) => notice == w.connectionLost(p, cause, will)
    case MessageHandled(message, error) => error == w.handle(p, message)
    case FrameParsed(frame, outcome) => outcome == w.parse(p, frame)
    case Classified(cause, decision) => decision == w.classify(p, cause)
    case SubscriptionsListed(items) => items == w.initial(p)
    case SubscriptionsUpdated(action, result) => result == w.update(p, action)
    case SubscriptionSerialized(item, payload) => payload == w.serialize(p, item)
    case RetryAsked(ok) => ok == w.shouldRetry(p)
    case DelayDrawn(delay) => delay == w.nextDelay(p)
    case _ => true
  }

  /** Events that reach the loop from outside. */
  predicate IsEvent(o: Obs) {
    || o.ConnectTried? || o.Took? || o.ChannelClosed? || o.Discarded? || o.WaitElapsed?
    || o.InboundHook? || o.ReadFailed? || o.StreamEnded? || o.PongOverdue? || o.DataStale?
  }

  function Logged(m: Conduct, o: Obs): Conduct {
    m.(heard := if IsEvent(o) then m.heard + [o] else m.heard,
       beats := if o.Wrote? && o.purpose == ForHeartbeat then m.beats + [o.outbound] else m.beats)
  }

  function ConductStep(w: World, p: Trace, m: Conduct, o: Obs): Conduct {
    if Answered(w, p, o) then Respond(w, p, Logged(m, o), o) else Break(m)
  }

  function ConductOf(w: World, t: Trace): Conduct {
    match t
    case Start => Conduct(ToRedial, false, [], [], [])
    case Then(p, o) => ConductStep(w, p, ConductOf(w, p), o)
  }

  /** What each phase of the loop amounts to. */
  function DutyOf(phase: Phase): Duty {
    match phase
    case Dialing => AtConnect
    case InSession => AtSession
    case Waiting => AtRest
    case Stopped => AtEnd
  }

  /** The loop is where the conduct says it must be, with the queue it must have. */
  predicate Conducted(w: World, c: Client) {
    var m := ConductOf(w, c.trace);
    && m.duty == DutyOf(c.phase) && m.queue == c.pending
    && (c.phase == InSession ==> m.authenticated == c.authenticated)
  }

  /** Conducted, with these logs. */
  predicate Tells(w: World, c: Client, heard: seq<Obs>, beats: seq<Frame>) {
    Conducted(w, c) && ConductOf(w, c.trace).heard == heard && ConductOf(w, c.trace).beats == beats
  }

  lemma Said(w: World, t: Trace, o: Obs)
    ensures ConductOf(w, Emit(t, o)) == ConductStep(w, t, ConductOf(w, t), o)
  {
  }

  // ---- One observation at a time ----

  function Written(m: Conduct, purpose: Purpose, frame: Frame): Conduct {
    m.(beats := if purpose == ForHeartbeat then m.beats + [frame] else m.beats)
  }

  /** The duty left behind does not matter. */
  lemma GoForgets(m: Conduct, left: Duty, duty: Duty)
    ensures Go(m.(duty := left), duty) == Go(m, duty)
  {
    hide Carry;
  }

  lemma GoSimply(m: Conduct, duty: Duty)
    requires duty != ToDrain
    ensures Go(m, duty) == m.(duty := duty)
  {
  }

  lemma Shown(w: World, p: Trace, m: Conduct)
    requires m.duty.ToShow?
    ensures ConductStep(w, p, m, OutboundHook(m.duty.frame)) == m.(duty := ToWrite(m.duty.frame, m.duty.job))
  {
  }

  lemma WrittenOut(w: World, p: Trace, m: Conduct)
    requires m.duty.ToWrite?
    ensures var frame, job, error := m.duty.frame, m.duty.job, w.write(p, m.duty.frame);
      ConductStep(w, p, m, Wrote(PurposeOf(job), frame, error)) ==
        Go(Written(m, PurposeOf(job), frame), if error.None? then Pursue(job) else Failed(job, error.value))
  {
    hide Go, PurposeOf, Pursue, Failed;
  }

  lemma Listed(w: World, p: Trace, m: Conduct)
    requires m.duty.ToList?
    ensures ConductStep(w, p, m, SubscriptionsListed(w.initial(p))) ==
      Go(m, Pursue(Restoring(w.initial(p), m.duty.context)))
  {
    hide Go;
  }

  lemma SerializedNext(w: World, p: Trace, m: Conduct)
    requires m.duty.ToSerialize? && Listing(m.duty.job) && m.duty.job.left != []
    ensures var job, payload := m.duty.job, w.serialize(p, m.duty.job.left[0]);
      ConductStep(w, p, m, SubscriptionSerialized(job.left[0], payload)) ==
        m.(duty := ToShow(IntoFrame(payload), job.(left := job.left[1..])))
  {
    hide IntoFrame;
  }

  lemma Updated(w: World, p: Trace, m: Conduct)
    requires m.duty.ToUpdate?
    ensures var action, context := m.duty.action, m.duty.context;
      var result := w.update(p, action);
      ConductStep(w, p, m, SubscriptionsUpdated(action, result)) ==
        m.(duty := if result.Refused? then ToReport(UpdateSubscriptions(action), Some(result.error), context)
                   else Pursue(Updating(action, result.items, context)))
  {
    hide Pursue;
  }

  lemma AttemptReported(w: World, p: Trace, m: Conduct)
    requires m.duty.ToReport?
    ensures ConductStep(w, p, m, Attempted(m.duty.command, m.duty.error)) == Go(m, Reported(m.duty.context, m.duty.error))
  {
    hide Go;
  }

  // ---- Writing ----

  function Outcome(job: Job, error: Option<string>): Duty {
    if error.None? then Pursue(job) else Failed(job, error.value)
  }

  lemma FrameConduct(w: World, t: Trace, frame: Frame, job: Job)
    requires ConductOf(w, t).duty == ToShow(frame, job)
    ensures var r := SendFrame(w, t, PurposeOf(job), frame);
      ConductOf(w, r.trace) == Go(Written(ConductOf(w, t), PurposeOf(job), frame), Outcome(job, r.error))
  {
    hide Emit, LifecycleStep, GateStep, LedgerStep, DrawsStep, ConductOf, ConductStep, IntoFrame, Go, PurposeOf, Pursue, Failed;
    var m := ConductOf(w, t);
    var t1 := Emit(t, OutboundHook(frame));
    Said(w, t, OutboundHook(frame));
    Shown(w, t, m);
    var error := w.write(t1, frame);
    Said(w, t1, Wrote(PurposeOf(job), frame, error));
    WrittenOut(w, t1, m.(duty := ToWrite(frame, job)));
    GoForgets(Written(m, PurposeOf(job), frame), ToWrite(frame, job), Outcome(job, error));
  }

  /** Listed subscriptions are serialized and written in order, up to a failure. */
  lemma {:induction false} ItemsConduct(w: World, t: Trace, job: Job, m: Conduct)
    requires Listing(job) && ConductOf(w, t) == Go(m, Pursue(job))
    ensures var r := SendAll(w, t, PurposeOf(job), job.left);
      ConductOf(w, r.trace) == Go(m, if r.error.None? then Finished(job) else Failed(job, r.error.value))
    decreases |job.left|
  {
    hide Emit, LifecycleStep, GateStep, LedgerStep, DrawsStep, ConductOf, ConductStep, SendFrame, IntoFrame, Go;
    if job.left != [] {
      var items, rest := job.left, job.(left := job.left[1..]);
      var payload := w.serialize(t, items[0]);
      var t1 := Emit(t, SubscriptionSerialized(items[0], payload));
      GoSimply(m, ToSerialize(job));
      Said(w, t, SubscriptionSerialized(items[0], payload));
      SerializedNext(w, t, ConductOf(w, t));
      FrameConduct(w, t1, IntoFrame(payload), rest);
      var first := SendFrame(w, t1, PurposeOf(job), IntoFrame(payload));
      GoForgets(m, ToShow(IntoFrame(payload), rest), Outcome(rest, first.error));
      if first.error.None? {
        ItemsConduct(w, first.trace, rest, m);
      }
    }
  }

  lemma ReplayConduct(w: World, t: Trace, context: Context)
    requires ConductOf(w, t).duty == ToList(context)
    ensures var r := ReplaySubscriptions(w, t);
      ConductOf(w, r.trace) ==
        Go(ConductOf(w, t), if r.error.None? then Replayed(context) else ToLose(InternalError(context, r.error.value)))
  {
    hide Emit, LifecycleStep, GateStep, LedgerStep, DrawsStep, ConductOf, ConductStep, SendAll, Go;
    var items := w.initial(t);
    Said(w, t, SubscriptionsListed(items));
    Listed(w, t, ConductOf(w, t));
    ItemsConduct(w, Emit(t, SubscriptionsListed(items)), Restoring(items, context), ConductOf(w, t));
  }

  /** A command's writes are over: its report, and what follows from it. */
  lemma ReportConduct(w: World, t: Trace, m: Conduct, command: Command, error: Option<string>, context: Context)
    requires ConductOf(w, t) == m.(duty := ToReport(command, error, context))
    ensures ConductOf(w, Emit(t, Attempted(command, error))) == Go(m, Reported(context, error))
  {
    hide Emit, LifecycleStep, GateStep, LedgerStep, DrawsStep, ConductOf, ConductStep, Go;
    Said(w, t, Attempted(command, error));
    AttemptReported(w, t, ConductOf(w, t));
    GoForgets(m, ToReport(command, error, context), Reported(context, error));
  }

  lemma SendConduct(w: World, t: Trace, payload: Bytes, context: Context)
    requires ConductOf(w, t).duty == Carry(Send(payload), context)
    ensures var r := AttemptCommand(w, t, Send(payload));
      ConductOf(w, r.trace) == Go(ConductOf(w, t), Reported(context, r.error))
  {
    hide Emit, LifecycleStep, GateStep, LedgerStep, DrawsStep, ConductOf, SendFrame, IntoFrame, Go;
    FrameConduct(w, t, IntoFrame(payload), Sending(payload, context));
    var sent := SendFrame(w, t, ForCommand, IntoFrame(payload));
    GoSimply(ConductOf(w, t), ToReport(Send(payload), sent.error, context));
    ReportConduct(w, sent.trace, ConductOf(w, t), Send(payload), sent.error, context);
  }

  lemma UpdateConduct(w: World, t: Trace, action: SubscriptionAction, context: Context)
    requires ConductOf(w, t).duty == Carry(UpdateSubscriptions(action), context)
    ensures var r := AttemptCommand(w, t, UpdateSubscriptions(action));
      ConductOf(w, r.trace) == Go(ConductOf(w, t), Reported(context, r.error))
  {
    hide Emit, LifecycleStep, GateStep, LedgerStep, DrawsStep, ConductOf, ConductStep, SendAll, Go;
    var command, m := UpdateSubscriptions(action), ConductOf(w, t);
    var result := w.update(t, action);
    Said(w, t, SubscriptionsUpdated(action, result));
    Updated(w, t, m);
    if result.Accepted? {
      var job := Updating(action, result.items, context);
      GoSimply(m, Pursue(job));
      ItemsConduct(w, Emit(t, SubscriptionsUpdated(action, result)), job, m);
    }
    var done := ApplyCommand(w, t, command);
    GoSimply(m, ToReport(command, done.error, context));
    ReportConduct(w, done.trace, m, command, done.error, context);
  }

  /** One command: exactly its own frames, its own result, and what follows from it. */
  lemma AttemptConduct(w: World, t: Trace, c: Command, context: Context)
    requires ConductOf(w, t).duty == Carry(c, context)
    ensures var r := AttemptCommand(w, t, c);
      ConductOf(w, r.trace) == Go(ConductOf(w, t), Reported(context, r.error))
  {
    hide Emit, LifecycleStep, GateStep, LedgerStep, DrawsStep, ConductOf, SendFrame, SendAll, Go;
    match c
    case Send(payload) =>
      SendConduct(w, t, payload, context);
    case UpdateSubscriptions(action) =>
      UpdateConduct(w, t, action, context);
    case _ =>
      ReportConduct(w, t, ConductOf(w, t), c, None, context);
  }

  lemma {:induction false} DrainConduct(w: World, t: Trace, queue: seq<Command>, m: Conduct)
    requires ConductOf(w, t) == Go(m.(queue := queue), ToDrain)
    ensures var r := ApplyPending(w, t, queue);
      ConductOf(w, r.trace) ==
        m.(queue := r.left, duty := if r.error.None? then AtSession else ToLose(InternalError(PendingCommandContext, r.error.value)))
    decreases |queue|
  {
    hide ConductOf, AttemptCommand, Carry;
    if queue != [] {
      CarryIsNoDrain(queue[0], PendingCommandContext);
      AttemptConduct(w, t, queue[0], PendingCommandContext);
      var first := AttemptCommand(w, t, queue[0]);
      if first.error.None? {
        DrainConduct(w, first.trace, queue[1..], m);
      }
    }
  }

  lemma CarryIsNoDrain(c: Command, context: Context)
    ensures Carry(c, context) != ToDrain
  {
  }

  // ---- Losing a connection ----

  function Decided(cause: Cause, action: DisconnectAction): Duty {
    match action
    case Abort => ToNotify(cause, None)
    case ImmediateReconnect => ToNotify(cause, Some(0.0))
    case BackoffReconnect => ToAskRetry(cause)
  }

  lemma LossStored(w: World, p: Trace, m: Conduct, cause: Cause)
    requires m.duty == ToLose(cause) && !Late(cause)
    ensures ConductStep(w, p, m, StatusStored(Disconnected)) == m.(duty := ToClassify(cause))
  {
  }

  lemma LossClassified(w: World, p: Trace, m: Conduct, cause: Cause)
    requires m.duty == ToClassify(cause) || (m.duty == ToLose(cause) && Late(cause))
    ensures ConductStep(w, p, m, Classified(cause, w.classify(p, cause))) == m.(duty := Decided(cause, w.classify(p, cause)))
  {
    hide SessionObs, WriteStep, SerializeStep, UpdateStep, NotifyStep, RestStep;
  }

  lemma RetryAnswered(w: World, p: Trace, m: Conduct, cause: Cause)
    requires m.duty == ToAskRetry(cause)
    ensures ConductStep(w, p, m, RetryAsked(w.shouldRetry(p))) ==
      m.(duty := if w.shouldRetry(p) then ToDraw(cause) else ToNotify(cause, None))
  {
  }

  lemma DelayTaken(w: World, p: Trace, m: Conduct, cause: Cause)
    requires m.duty == ToDraw(cause)
    ensures ConductStep(w, p, m, DelayDrawn(w.nextDelay(p))) == m.(duty := ToNotify(cause, Some(w.nextDelay(p))))
  {
  }

  lemma LossNotified(w: World, p: Trace, m: Conduct, cause: Cause, promised: Option<Delay>)
    requires m.duty == ToNotify(cause, promised)
    ensures var notice := w.connectionLost(p, cause, promised.Some?);
      ConductStep(w, p, m, Disconnection(cause, promised.Some?, notice)) ==
        m.(duty := if notice.Some? then ToHandle(notice.value, PartingMatter(cause, promised)) else Parted(cause, promised))
  {
    hide SessionObs, WriteStep, SerializeStep, UpdateStep, ClassifyStep, RestStep;
  }

  lemma Handled(w: World, p: Trace, m: Conduct)
    requires m.duty.ToHandle?
    ensures var d, error := m.duty, w.handle(p, m.duty.message);
      ConductStep(w, p, m, MessageHandled(d.message, error)) ==
        m.(duty := if d.matter == InSessionMatter && error.Some? then ToLose(InternalError(HandleMessageContext, error.value))
                   else Resolved(d.matter))
  {
  }

  lemma LossStoredLate(w: World, p: Trace, m: Conduct, promised: Option<Delay>)
    requires m.duty == ToStore(promised)
    ensures ConductStep(w, p, m, StatusStored(Disconnected)) == m.(duty := Promise(promised))
  {
  }

  lemma WaitBegun(w: World, p: Trace, m: Conduct, delay: Delay)
    requires m.duty == ToWait(delay)
    ensures ConductStep(w, p, m, WaitStarted(delay)) == m.(duty := if delay > 0.0 then AtRest else ToRedial)
  {
  }

  lemma Redialled(w: World, p: Trace, m: Conduct)
    requires m.duty == ToRedial
    ensures ConductStep(w, p, m, StatusStored(Connecting)) == m.(duty := AtConnect)
  {
  }

  /** Abort promises nothing, an immediate reconnect a wait of zero, a backoff the
      delay drawn if the strategy would retry and nothing otherwise. */
  lemma ChooseConduct(w: World, t: Trace, cause: Cause, action: DisconnectAction)
    requires ConductOf(w, t).duty == Decided(cause, action)
    ensures var chosen := ReconnectDelay(w, t, action);
      ConductOf(w, chosen.trace) == ConductOf(w, t).(duty := ToNotify(cause, chosen.delay))
  {
    hide Emit, LifecycleStep, GateStep, LedgerStep, DrawsStep, ConductOf, ConductStep;
    if action == BackoffReconnect {
      var ok := w.shouldRetry(t);
      var t1 := Emit(t, RetryAsked(ok));
      Said(w, t, RetryAsked(ok));
      RetryAnswered(w, t, ConductOf(w, t), cause);
      if ok {
        Said(w, t1, DelayDrawn(w.nextDelay(t1)));
        DelayTaken(w, t1, ConductOf(w, t1), cause);
      }
    }
  }

  lemma NotifyConduct(w: World, t: Trace, cause: Cause, promised: Option<Delay>)
    requires ConductOf(w, t).duty == ToNotify(cause, promised)
    ensures ConductOf(w, NotifyDisconnect(w, t, cause, promised.Some?)) == ConductOf(w, t).(duty := Parted(cause, promised))
  {
    hide Emit, LifecycleStep, GateStep, LedgerStep, DrawsStep, ConductOf, ConductStep;
    var notice := w.connectionLost(t, cause, promised.Some?);
    var t1 := Emit(t, Disconnection(cause, promised.Some?, notice));
    Said(w, t, Disconnection(cause, promised.Some?, notice));
    LossNotified(w, t, ConductOf(w, t), cause, promised);
    if notice.Some? {
      Said(w, t1, MessageHandled(notice.value, w.handle(t1, notice.value)));
      Handled(w, t1, ConductOf(w, t1));
    }
  }

  lemma DepartConduct(w: World, c: Client, cause: Cause, statusFirst: bool)
    requires ConductOf(w, c.trace).duty == ToLose(cause) && statusFirst == !Late(cause)
    ensures var gone := Depart(w, c, cause, statusFirst);
      ConductOf(w, gone.client.trace) == ConductOf(w, c.trace).(duty := Promise(gone.delay))
  {
    hide Emit, LifecycleStep, GateStep, LedgerStep, DrawsStep, ConductOf, ConductStep, ReconnectDelay, NotifyDisconnect;
    var before := if statusFirst then StoreStatus(c, Disconnected) else c;
    if statusFirst {
      Said(w, c.trace, StatusStored(Disconnected));
      LossStored(w, c.trace, ConductOf(w, c.trace), cause);
    }
    var t := before.trace;
    var action := w.classify(t, cause);
    Said(w, t, Classified(cause, action));
    LossClassified(w, t, ConductOf(w, t), cause);
    ChooseConduct(w, Emit(t, Classified(cause, action)), cause, action);
    var chosen := ReconnectDelay(w, Emit(t, Classified(cause, action)), action);
    NotifyConduct(w, chosen.trace, cause, chosen.delay);
    if !statusFirst {
      var t2 := NotifyDisconnect(w, chosen.trace, cause, chosen.delay.Some?);
      Said(w, t2, StatusStored(Disconnected));
      LossStoredLate(w, t2, ConductOf(w, t2), chosen.delay);
    }
  }

  /** A connection is given up as its cause calls for, and the loop ends, waits or
      dials as was promised. */
  lemma LeaveConduct(w: World, c: Client, cause: Cause, statusFirst: bool)
    requires ConductOf(w, c.trace).duty == ToLose(cause) && statusFirst == !Late(cause)
    ensures var r := Leave(w, c, cause, statusFirst);
      ConductOf(w, r.trace) == ConductOf(w, c.trace).(duty := DutyOf(r.phase)) && r.phase != InSession && r.pending == c.pending
  {
    hide Emit, LifecycleStep, GateStep, LedgerStep, DrawsStep, ConductOf, ConductStep, Depart;
    DepartConduct(w, c, cause, statusFirst);
    DepartKeeps(w, c, cause, statusFirst);
    var gone := Depart(w, c, cause, statusFirst);
    if gone.delay.Some? {
      var t := gone.client.trace;
      Said(w, t, WaitStarted(gone.delay.value));
      WaitBegun(w, t, ConductOf(w, t), gone.delay.value);
      var t1 := Emit(t, WaitStarted(gone.delay.value));
      if gone.delay.value == 0.0 {
        Said(w, t1, StatusStored(Connecting));
        Redialled(w, t1, ConductOf(w, t1));
      }
    }
  }

  lemma DepartKeeps(w: World, c: Client, cause: Cause, statusFirst: bool)
    ensures Depart(w, c, cause, statusFirst).client.pending == c.pending
  {
    hide Emit, ReconnectDelay, NotifyDisconnect;
  }

  // ---- Opening a connection ----

  lemma Greeted(w: World, p: Trace, m: Conduct)
    ensures m.duty == Greeting(0) ==> ConductStep(w, p, m, StrategyReset) == m.(duty := Greeting(1))
    ensures m.duty == Greeting(1) ==> ConductStep(w, p, m, StatusStored(Connected)) == m.(duty := Greeting(2))
    ensures m.duty == Greeting(2) ==> ConductStep(w, p, m, StateReset) == m.(duty := Greeting(3))
    ensures m.duty == Greeting(3) ==> ConductStep(w, p, m, OpenHook) == m.(duty := Greeting(4))
  {
    hide SessionObs, ExamineStep, WriteStep, SerializeStep, UpdateStep, ClassifyStep, NotifyStep, RestStep;
  }

  lemma Welcomed(w: World, p: Trace, m: Conduct, again: bool)
    requires m.duty == Greeting(4)
    ensures var notice := w.connectionOpened(p, again);
      ConductStep(w, p, m, Opened(again, notice)) ==
        m.(duty := if notice.Some? then ToHandle(notice.value, OpeningMatter) else Greeting(5))
  {
  }

  lemma Introduced(w: World, p: Trace, m: Conduct)
    requires m.duty == Greeting(5)
    ensures var auth := w.auth(p);
      ConductStep(w, p, m, AuthGenerated(auth)) ==
        m.(duty := if auth.Some? then ToShow(IntoFrame(auth.value), Introducing) else Greeting(6))
  {
    hide IntoFrame;
  }

  lemma Admitted(w: World, p: Trace, m: Conduct)
    requires m.duty == Greeting(6)
    ensures ConductStep(w, p, m, ModeRead(w.mode(p))) ==
      if w.mode(p) == Public then m.(duty := ToList(ReplayContext), authenticated := true)
      else m.(duty := AtSession, authenticated := false)
  {
  }

  /** The four steps before the endpoint is told. */
  lemma PrepareConduct(w: World, t: Trace)
    requires ConductOf(w, t).duty == Greeting(0)
    ensures var t4 := Emit(Emit(Emit(Emit(t, StrategyReset), StatusStored(Connected)), StateReset), OpenHook);
      ConductOf(w, t4) == ConductOf(w, t).(duty := Greeting(4))
  {
    hide Emit, LifecycleStep, GateStep, LedgerStep, DrawsStep, ConductOf, ConductStep;
    var t1 := Emit(t, StrategyReset);
    var t2 := Emit(t1, StatusStored(Connected));
    var t3 := Emit(t2, StateReset);
    Said(w, t, StrategyReset);
    Greeted(w, t, ConductOf(w, t));
    Said(w, t1, StatusStored(Connected));
    Greeted(w, t1, ConductOf(w, t1));
    Said(w, t2, StateReset);
    Greeted(w, t2, ConductOf(w, t2));
    Said(w, t3, OpenHook);
    Greeted(w, t3, ConductOf(w, t3));
  }

  lemma WelcomeConduct(w: World, t: Trace, again: bool)
    requires ConductOf(w, t).duty == Greeting(4)
    ensures var notice := w.connectionOpened(t, again);
      ConductOf(w, Deliver(w, Emit(t, Opened(again, notice)), notice)) == ConductOf(w, t).(duty := Greeting(5))
  {
    hide Emit, LifecycleStep, GateStep, LedgerStep, DrawsStep, ConductOf, ConductStep;
    var notice := w.connectionOpened(t, again);
    var t1 := Emit(t, Opened(again, notice));
    Said(w, t, Opened(again, notice));
    Welcomed(w, t, ConductOf(w, t), again);
    if notice.Some? {
      Said(w, t1, MessageHandled(notice.value, w.handle(t1, notice.value)));
      Handled(w, t1, ConductOf(w, t1));
    }
  }

  lemma IntroduceConduct(w: World, t: Trace)
    requires ConductOf(w, t).duty == Greeting(5)
    ensures var auth := w.auth(t);
      var t1 := Emit(t, AuthGenerated(auth));
      var r := if auth.None? then Sent(t1, None) else SendFrame(w, t1, ForAuth, IntoFrame(auth.value));
      ConductOf(w, r.trace) == ConductOf(w, t).(duty := Outcome(Introducing, r.error))
  {
    hide Emit, LifecycleStep, GateStep, LedgerStep, DrawsStep, ConductOf, ConductStep, SendFrame, IntoFrame;
    var auth := w.auth(t);
    Said(w, t, AuthGenerated(auth));
    Introduced(w, t, ConductOf(w, t));
    if auth.Some? {
      FrameConduct(w, Emit(t, AuthGenerated(auth)), IntoFrame(auth.value), Introducing);
    }
  }

  lemma GreetConduct(w: World, c: Client)
    requires ConductOf(w, c.trace).duty == Greeting(0)
    ensures var r := Greet(w, c);
      ConductOf(w, r.trace) == ConductOf(w, c.trace).(duty := Outcome(Introducing, r.error))
  {
    hide Emit, LifecycleStep, GateStep, LedgerStep, DrawsStep, ConductOf, ConductStep, SendFrame, IntoFrame, Deliver, Outcome;
    PrepareConduct(w, c.trace);
    var t4 := Emit(Emit(Emit(Emit(c.trace, StrategyReset), StatusStored(Connected)), StateReset), OpenHook);
    WelcomeConduct(w, t4, c.isReconnect);
    var notice := w.connectionOpened(t4, c.isReconnect);
    IntroduceConduct(w, Deliver(w, Emit(t4, Opened(c.isReconnect, notice)), notice));
  }

  /** A finished piece of work: the loop is where the conduct says, with the logs of `m`. */
  predicate Agrees(w: World, c: Client, m: Conduct) {
    Tells(w, c, m.heard, m.beats)
  }

  lemma OpenConduct(w: World, c: Client)
    requires var m := ConductOf(w, c.trace); m.duty == Greeting(0) && m.queue == c.pending
    ensures Agrees(w, ClientLoop.Open(w, c), ConductOf(w, c.trace))
  {
    hide Emit, LifecycleStep, GateStep, LedgerStep, DrawsStep, ConductOf, ConductStep, Greet, ReplaySubscriptions, Leave;
    GreetConduct(w, c);
    var greeted := Greet(w, c);
    var c1 := c.(status := Connected, trace := greeted.trace);
    if greeted.error.Some? {
      LeaveConduct(w, c1, InternalError(AuthSendContext, greeted.error.value), false);
    } else {
      var mode := w.mode(greeted.trace);
      var t := Emit(greeted.trace, ModeRead(mode));
      Said(w, greeted.trace, ModeRead(mode));
      Admitted(w, greeted.trace, ConductOf(w, greeted.trace));
      if mode == Public {
        ReplayConduct(w, t, ReplayContext);
        var replayed := ReplaySubscriptions(w, t);
        if replayed.error.Some? {
          LeaveConduct(w, c1.(authenticated := true, trace := replayed.trace), InternalError(ReplayContext, replayed.error.value), false);
        }
      }
    }
  }

  // ---- A session ----

  function Hears(m: Conduct, o: Obs): Conduct {
    m.(heard := m.heard + [o])
  }

  lemma TakenUp(w: World, p: Trace, m: Conduct, command: Command)
    requires m.duty == AtSession
    ensures ConductStep(w, p, m, Took(command)) == TookStep(Hears(m, Took(command)), command)
  {
    hide Carry;
  }

  lemma Closed(w: World, p: Trace, m: Conduct)
    ensures m.duty == AtSession ==> ConductStep(w, p, m, ChannelClosed) == Hears(m, ChannelClosed).(duty := ToStop)
    ensures m.duty == AtRest ==> ConductStep(w, p, m, ChannelClosed) == Hears(m, ChannelClosed).(duty := AtEnd)
    ensures m.duty == ToStop ==> ConductStep(w, p, m, StatusStored(Disconnected)) == m.(duty := AtEnd)
  {
    hide WriteStep, SerializeStep, UpdateStep, ClassifyStep, NotifyStep;
  }

  /** The events that end a session by themselves. */
  function Fatal(o: Obs): Option<Cause> {
    match o
    case ReadFailed(failure) => Some(ReadFailure(failure))
    case StreamEnded => Some(RemoteClosed)
    case PongOverdue => Some(PongTimeout)
    case DataStale => Some(StaleData)
    case _ => None
  }

  lemma SessionBroken(w: World, p: Trace, m: Conduct, o: Obs)
    requires m.duty == AtSession && Fatal(o).Some?
    ensures ConductStep(w, p, m, o) == Hears(m, o).(duty := ToLose(Fatal(o).value))
  {
  }

  lemma FrameHeard(w: World, p: Trace, m: Conduct, frame: Frame)
    requires m.duty == AtSession
    ensures ConductStep(w, p, m, InboundHook(frame)) == Hears(m, InboundHook(frame)).(duty := ToExamine(frame))
  {
  }

  lemma FrameRead(w: World, p: Trace, m: Conduct, frame: Frame)
    requires m.duty == ToExamine(frame)
    ensures ConductStep(w, p, m, FrameParsed(frame, w.parse(p, frame))) == ParsedStep(m, w.parse(p, frame))
  {
    hide ParsedStep;
  }

  lemma Judged(w: World, p: Trace, m: Conduct, code: int, text: string)
    requires m.duty == ToJudge(code, text)
    ensures var action := w.serverError(p, code, text);
      ConductStep(w, p, m, ServerErrorHandled(action)) ==
        m.(duty := if action == ContinueAfterError then AtSession else ToLose(ServerError(code, text)))
  {
  }

  lemma StopConduct(w: World, c: Client)
    requires ConductOf(w, c.trace).duty == ToStop
    ensures ConductOf(w, Stop(c).trace) == ConductOf(w, c.trace).(duty := AtEnd)
  {
    hide Emit, LifecycleStep, GateStep, LedgerStep, DrawsStep, ConductOf, ConductStep;
    Said(w, c.trace, StatusStored(Disconnected));
    Closed(w, c.trace, ConductOf(w, c.trace));
  }

  lemma ClosingConduct(w: World, c: Client)
    requires Conducted(w, c) && c.phase == InSession
    ensures Agrees(w, OnCommand(w, c, None), Hears(ConductOf(w, c.trace), ChannelClosed))
  {
    hide Emit, LifecycleStep, GateStep, LedgerStep, DrawsStep, ConductOf, ConductStep, Stop;
    Said(w, c.trace, ChannelClosed);
    Closed(w, c.trace, ConductOf(w, c.trace));
    var c1 := c.(trace := Emit(c.trace, ChannelClosed));
    StopConduct(w, c1);
    StopKeeps(c1);
  }

  lemma StopKeeps(c: Client)
    ensures Stop(c).pending == c.pending && Stop(c).phase == Stopped
  {
  }

  lemma ControlConduct(w: World, c: Client, command: Command)
    requires Conducted(w, c) && c.phase == InSession && !RequiresAuth(command)
    ensures Agrees(w, OnCommand(w, c, Some(command)), Hears(ConductOf(w, c.trace), Took(command)))
  {
    hide Emit, LifecycleStep, GateStep, LedgerStep, DrawsStep, ConductOf, ConductStep, Stop, Leave;
    var c1 := c.(trace := Emit(c.trace, Took(command)));
    Said(w, c.trace, Took(command));
    TakenUp(w, c.trace, ConductOf(w, c.trace), command);
    if command == Shutdown {
      StopConduct(w, c1);
      StopKeeps(c1);
    } else {
      LeaveConduct(w, c1, EndpointRequested(command.reason), true);
    }
  }

  lemma WorkConduct(w: World, c: Client, command: Command)
    requires Conducted(w, c) && c.phase == InSession && RequiresAuth(command)
    ensures Agrees(w, OnCommand(w, c, Some(command)), Hears(ConductOf(w, c.trace), Took(command)))
  {
    hide Emit, LifecycleStep, GateStep, LedgerStep, DrawsStep, ConductOf, ConductStep, Leave, AttemptCommand, Carry;
    var c1 := c.(trace := Emit(c.trace, Took(command)));
    Said(w, c.trace, Took(command));
    TakenUp(w, c.trace, ConductOf(w, c.trace), command);
    if c.authenticated {
      AttemptConduct(w, c1.trace, command, CommandContext);
      var done := AttemptCommand(w, c1.trace, command);
      if done.error.Some? {
        LeaveConduct(w, c1.(trace := done.trace), InternalError(CommandContext, done.error.value), true);
      }
    }
  }

  function CommandEvent(command: Option<Command>): Obs {
    if command.Some? then Took(command.value) else ChannelClosed
  }

  lemma CommandConduct(w: World, c: Client, command: Option<Command>)
    requires Conducted(w, c) && c.phase == InSession
    ensures Agrees(w, OnCommand(w, c, command), Hears(ConductOf(w, c.trace), CommandEvent(command)))
  {
    hide OnCommand, Conducted, Agrees;
    if command.None? {
      ClosingConduct(w, c);
    } else if RequiresAuth(command.value) {
      WorkConduct(w, c, command.value);
    } else {
      ControlConduct(w, c, command.value);
    }
  }

  lemma UnlockConduct(w: World, c: Client)
    requires var m := ConductOf(w, c.trace);
      m.duty == ToList(ReplayAfterAuthContext) && m.authenticated && m.queue == c.pending && c.phase == InSession
    ensures Agrees(w, Unlock(w, c), ConductOf(w, c.trace))
  {
    hide Emit, LifecycleStep, GateStep, LedgerStep, DrawsStep, ConductOf, ConductStep, ReplaySubscriptions, ApplyPending, Leave, Carry;
    var m := ConductOf(w, c.trace);
    ReplayConduct(w, c.trace, ReplayAfterAuthContext);
    var replayed := ReplaySubscriptions(w, c.trace);
    var c1 := c.(authenticated := true, trace := replayed.trace);
    if replayed.error.Some? {
      LeaveConduct(w, c1, InternalError(ReplayAfterAuthContext, replayed.error.value), true);
    } else {
      DrainConduct(w, c1.trace, c.pending, m);
      var drained := ApplyPending(w, c1.trace, c1.pending);
      if drained.error.Some? {
        LeaveConduct(w, c1.(trace := drained.trace, pending := drained.left),
                     InternalError(PendingCommandContext, drained.error.value), true);
      }
    }
  }

  /** The session the conduct `m` describes is this client's. */
  predicate Serves(c: Client, m: Conduct) {
    c.phase == InSession && m.queue == c.pending && m.authenticated == c.authenticated
  }

  lemma ReplyConduct(w: World, c: Client, payload: Bytes, m: Conduct)
    requires Serves(c, m) && ConductOf(w, c.trace) == ParsedStep(m, Parsed(Reply(payload)))
    ensures Agrees(w, OnAction(w, c, Reply(payload)), m)
  {
    hide Emit, LifecycleStep, GateStep, LedgerStep, DrawsStep, ConductOf, ConductStep, SendFrame, Leave, IntoFrame;
    FrameConduct(w, c.trace, IntoFrame(payload), Replying);
    var sent := SendFrame(w, c.trace, ForReply, IntoFrame(payload));
    if sent.error.Some? {
      LeaveConduct(w, c.(trace := sent.trace), InternalError(MessageSendContext, sent.error.value), true);
    }
  }

  lemma ProcessConduct(w: World, c: Client, message: Message, m: Conduct)
    requires Serves(c, m) && ConductOf(w, c.trace) == ParsedStep(m, Parsed(Process(message)))
    ensures Agrees(w, OnAction(w, c, Process(message)), m)
  {
    hide Emit, LifecycleStep, GateStep, LedgerStep, DrawsStep, ConductOf, ConductStep, Leave;
    var error := w.handle(c.trace, message);
    Said(w, c.trace, MessageHandled(message, error));
    Handled(w, c.trace, ConductOf(w, c.trace));
    if error.Some? {
      LeaveConduct(w, c.(trace := Emit(c.trace, MessageHandled(message, error))), InternalError(HandleMessageContext, error.value), true);
    }
  }

  lemma ActionConduct(w: World, c: Client, action: MessageAction, m: Conduct)
    requires Serves(c, m) && ConductOf(w, c.trace) == ParsedStep(m, Parsed(action))
    ensures Agrees(w, OnAction(w, c, action), m)
  {
    hide Emit, LifecycleStep, GateStep, LedgerStep, DrawsStep, ConductOf, ConductStep, Leave, Stop, Unlock, SendFrame, IntoFrame;
    match action {
      case Continue =>
      case SessionAuthenticated => UnlockConduct(w, c);
      case Reply(payload) => ReplyConduct(w, c, payload, m);
      case Process(message) => ProcessConduct(w, c, message, m);
      case RequestReconnect(reason) => LeaveConduct(w, c, EndpointRequested(reason), true);
      case RequestShutdown =>
        StopConduct(w, c);
        StopKeeps(c);
    }
  }

  lemma OutcomeConduct(w: World, c: Client, frame: Frame)
    requires ConductOf(w, c.trace).duty == ToExamine(frame) && Serves(c, ConductOf(w, c.trace))
    ensures Agrees(w, OnOutcome(w, c, frame), ConductOf(w, c.trace))
  {
    hide Emit, LifecycleStep, GateStep, LedgerStep, DrawsStep, ConductOf, ConductStep, Leave, OnAction;
    var m := ConductOf(w, c.trace);
    var outcome := w.parse(c.trace, frame);
    var c1 := c.(trace := Emit(c.trace, FrameParsed(frame, outcome)));
    Said(w, c.trace, FrameParsed(frame, outcome));
    FrameRead(w, c.trace, m, frame);
    if outcome.Parsed? {
      ActionConduct(w, c1, outcome.action, m);
    } else if outcome.ServerReported? {
      var action := w.serverError(c1.trace, outcome.code, outcome.message);
      Said(w, c1.trace, ServerErrorHandled(action));
      Judged(w, c1.trace, ConductOf(w, c1.trace), outcome.code, outcome.message);
      if action != ContinueAfterError {
        LeaveConduct(w, c1.(trace := Emit(c1.trace, ServerErrorHandled(action))), ServerError(outcome.code, outcome.message), true);
      }
    }
  }

  lemma HearConduct(w: World, c: Client, frame: Frame)
    requires Conducted(w, c) && c.phase == InSession
    ensures var c1 := c.(trace := Emit(c.trace, InboundHook(frame)));
      && ConductOf(w, c1.trace) == Hears(ConductOf(w, c.trace), InboundHook(frame)).(duty := ToExamine(frame))
      && Serves(c1, ConductOf(w, c1.trace))
  {
    hide Emit, LifecycleStep, GateStep, LedgerStep, DrawsStep, ConductOf, ConductStep;
    Said(w, c.trace, InboundHook(frame));
    FrameHeard(w, c.trace, ConductOf(w, c.trace), frame);
  }

  lemma BreakConduct(w: World, c: Client, o: Obs)
    requires Conducted(w, c) && c.phase == InSession && Fatal(o).Some?
    ensures Agrees(w, Leave(w, c.(trace := Emit(c.trace, o)), Fatal(o).value, true), Hears(ConductOf(w, c.trace), o))
  {
    hide Emit, LifecycleStep, GateStep, LedgerStep, DrawsStep, ConductOf, ConductStep, Leave;
    Said(w, c.trace, o);
    SessionBroken(w, c.trace, ConductOf(w, c.trace), o);
    LeaveConduct(w, c.(trace := Emit(c.trace, o)), Fatal(o).value, true);
  }

  // ---- One step ----

  /** The event an input is to the loop in its phase; None if it does not listen. */
  function EventOf(c: Client, input: Input): seq<Obs> {
    match c.phase
    case Dialing =>
      if input.ConnectOk? then [ConnectTried(None)] else if input.ConnectFailed? then [ConnectTried(Some(input.error))] else []
    case InSession =>
      (match input
       case Received(command) => [CommandEvent(command)]
       case Inbound(frame, _) => [InboundHook(frame)]
       case ReadError(error) => [ReadFailed(error)]
       case EndOfStream => [StreamEnded]
       case _ => [])
    case Waiting =>
      if input.DelayElapsed? then [WaitElapsed]
      else if input.Received? then [if input.command.Some? then Discarded(input.command.value) else ChannelClosed]
      else []
    case Stopped => []
  }

  lemma Tried(w: World, p: Trace, m: Conduct, error: Option<string>)
    requires m.duty == AtConnect
    ensures ConductStep(w, p, m, ConnectTried(error)) ==
      Hears(m, ConnectTried(error)).(duty := if error.None? then Greeting(0) else ToLose(InternalError(ConnectContext, error.value)))
  {
  }

  lemma DialConduct(w: World, c: Client, input: Input)
    requires Conducted(w, c) && c.phase == Dialing && EventOf(c, input) != []
    ensures Agrees(w, DialStep(w, c, input), Hears(ConductOf(w, c.trace), EventOf(c, input)[0]))
  {
    hide Emit, LifecycleStep, GateStep, LedgerStep, DrawsStep, ConductOf, ConductStep, ClientLoop.Open, Leave;
    var error := if input.ConnectOk? then None else Some(input.error);
    Said(w, c.trace, ConnectTried(error));
    Tried(w, c.trace, ConductOf(w, c.trace), error);
    var c1 := c.(trace := Emit(c.trace, ConnectTried(error)));
    if input.ConnectOk? {
      OpenConduct(w, c1);
    } else {
      LeaveConduct(w, c1, InternalError(ConnectContext, input.error), true);
    }
  }

  lemma SessionConduct(w: World, c: Client, input: Input)
    requires Conducted(w, c) && c.phase == InSession && EventOf(c, input) != []
    ensures Agrees(w, SessionStep(w, c, input), Hears(ConductOf(w, c.trace), EventOf(c, input)[0]))
  {
    hide Emit, LifecycleStep, GateStep, LedgerStep, DrawsStep, ConductOf, ConductStep, OnCommand, OnOutcome, Leave;
    match input {
      case Received(command) => CommandConduct(w, c, command);
      case Inbound(frame, _) =>
        HearConduct(w, c, frame);
        OutcomeConduct(w, c.(trace := Emit(c.trace, InboundHook(frame))), frame);
      case ReadError(error) => BreakConduct(w, c, ReadFailed(error));
      case EndOfStream => BreakConduct(w, c, StreamEnded);
    }
  }

  lemma Rested(w: World, p: Trace, m: Conduct, o: Obs)
    requires m.duty == AtRest && (o.WaitElapsed? || o.Discarded?)
    ensures ConductStep(w, p, m, o) == Hears(m, o).(duty := if o == Discarded(Shutdown) then AtEnd else ToRedial)
  {
    hide SessionObs, WriteStep, SerializeStep, UpdateStep, ClassifyStep, NotifyStep;
  }

  lemma WaitConduct(w: World, c: Client, input: Input)
    requires Conducted(w, c) && c.phase == Waiting && EventOf(c, input) != []
    ensures Agrees(w, WaitStep(c, input), Hears(ConductOf(w, c.trace), EventOf(c, input)[0]))
  {
    hide Emit, LifecycleStep, GateStep, LedgerStep, DrawsStep, ConductOf, ConductStep;
    var m, o := ConductOf(w, c.trace), EventOf(c, input)[0];
    var t1 := Emit(c.trace, o);
    Said(w, c.trace, o);
    if o == ChannelClosed {
      Closed(w, c.trace, m);
    } else {
      Rested(w, c.trace, m, o);
      if o != Discarded(Shutdown) {
        Said(w, t1, StatusStored(Connecting));
        Redialled(w, t1, ConductOf(w, t1));
      }
    }
  }

  /** A step answers the event its input is, and does nothing without one. */
  lemma StepConduct(w: World, c: Client, input: Input)
    requires Conducted(w, c)
    ensures var m := ConductOf(w, c.trace); Tells(w, Step(w, c, input), m.heard + EventOf(c, input), m.beats)
  {
    hide DialStep, SessionStep, WaitStep, ConductOf;
    if EventOf(c, input) == [] {
      NoEventNoStep(w, c, input);
    } else {
      OneEvent(c, input);
      match c.phase {
        case Dialing => DialConduct(w, c, input);
        case InSession => SessionConduct(w, c, input);
        case Waiting => WaitConduct(w, c, input);
      }
    }
  }

  lemma OneEvent(c: Client, input: Input)
    requires EventOf(c, input) != []
    ensures EventOf(c, input) == [EventOf(c, input)[0]]
  {
  }

  lemma NoEventNoStep(w: World, c: Client, input: Input)
    requires EventOf(c, input) == []
    ensures Step(w, c, input) == c
  {
    hide ClientLoop.Open, OnCommand, OnFrame, Leave, Resume, Emit;
  }

  // ---- Every run ----

  function EventsOf(w: World, script: seq<Input>): seq<Obs> {
    if script == [] then []
    else EventsOf(w, script[..|script| - 1]) + EventOf(Run(w, script[..|script| - 1]), script[|script| - 1])
  }

  /** After every run of the plain loop: every event that reached it, and no
      other, is in its trace in order; each was answered as the conduct demands
      with the world's own answers; and the loop is where that leaves it. */
  lemma {:induction false} EveryPlainRunConducted(w: World, script: seq<Input>)
    ensures Tells(w, Run(w, script), EventsOf(w, script), [])
  {
    hide Step, ConductOf, EventOf, Conducted;
    if script == [] {
      InitialConduct(w);
    } else {
      var n := |script| - 1;
      EveryPlainRunConducted(w, script[..n]);
      StepConduct(w, Run(w, script[..n]), script[n]);
    }
  }

  lemma InitialConduct(w: World)
    ensures Tells(w, Initial(), [], [])
  {
  }

  // ---- The health-checked loop ----

  lemma BeatDue(w: World, p: Trace, m: Conduct, frame: Frame)
    ensures m.duty == AtSession ==>
      ConductStep(w, p, m, HeartbeatMade(frame)) == m.(duty := ToShow(frame, Beating(PingSendContext)))
    ensures m.duty.ToExamine? ==>
      ConductStep(w, p, m, PongDue(frame)) == m.(duty := ToShow(frame, Beating(PongReplyContext)))
  {
    hide WriteStep, SerializeStep, UpdateStep, ClassifyStep, NotifyStep, RestStep;
  }

  lemma PongJudged(w: World, p: Trace, m: Conduct)
    requires m.duty.ToExamine?
    ensures ConductStep(w, p, m, PongHeard) == m.(duty := AtSession)
    ensures ConductStep(w, p, m, PongInvalid) == m.(duty := ToLose(PongTimeout))
  {
    hide SessionObs, WriteStep, SerializeStep, UpdateStep, ClassifyStep, NotifyStep, RestStep;
  }

  lemma HealthLeaveProjects(w: World, h: Checked, cause: Cause)
    ensures HealthBreak(w, h, cause).client == Leave(w, h.client, cause, true)
  {
    hide Leave;
  }

  /** A heartbeat frame that is due is written; if that fails the session ends in
      the context it was due in. */
  lemma BeatConduct(w: World, h: Checked, frame: Frame, context: Context, m: Conduct)
    requires Serves(h.client, m) && (context == PingSendContext || context == PongReplyContext)
    requires ConductOf(w, h.client.trace) == m.(duty := ToShow(frame, Beating(context)))
    ensures var sent := SendFrame(w, h.client.trace, ForHeartbeat, frame);
      var r := if sent.error.Some? then HealthBreak(w, Note(h, sent.trace), InternalError(context, sent.error.value))
               else Note(h, sent.trace);
      Tells(w, r.client, m.heard, m.beats + [frame])
  {
    hide Emit, LifecycleStep, GateStep, LedgerStep, DrawsStep, ConductOf, ConductStep, SendFrame, Leave, HealthBreak;
    FrameConduct(w, h.client.trace, frame, Beating(context));
    var sent := SendFrame(w, h.client.trace, ForHeartbeat, frame);
    if sent.error.Some? {
      HealthLeaveProjects(w, Note(h, sent.trace), InternalError(context, sent.error.value));
      LeaveConduct(w, Note(h, sent.trace).client, InternalError(context, sent.error.value), true);
    }
  }

  function TickEvent(health: Health, h: Checked, checkAt: Instant): seq<Obs> {
    if health.strategy.stale(h.pings, checkAt) then [PongOverdue]
    else if MonitorStale(health.staleThreshold, h.counters, checkAt) then [DataStale]
    else []
  }

  function HealthEventOf(health: Health, h: Checked, input: Input): seq<Obs> {
    if h.client.phase == InSession && input.PingTick? then TickEvent(health, h, input.checkAt) else EventOf(h.client, input)
  }

  /** The heartbeat frames the strategy made in some calls. */
  function BeatsIn(pings: PingHistory): seq<Frame> {
    if pings == [] then []
    else
      BeatsIn(pings[..|pings| - 1]) +
      match pings[|pings| - 1]
      case PingCreated(_, Some(frame)) => [frame]
      case FrameExamined(_, _, ReplyWith(frame)) => [frame]
      case _ => []
  }

  lemma OneCall(call: PingCall)
    ensures BeatsIn([call]) == match call
                               case PingCreated(_, Some(frame)) => [frame]
                               case FrameExamined(_, _, ReplyWith(frame)) => [frame]
                               case _ => []
  {
    assert [call][..0] == [];
    assert BeatsIn([call][..0]) == [];
  }

  lemma TickConduct(w: World, health: Health, h: Checked, checkAt: Instant, pingAt: Instant)
    requires Conducted(w, h.client) && h.client.phase == InSession
    ensures var m := ConductOf(w, h.client.trace);
      Tells(w, HealthOnTick(w, health, h, checkAt, pingAt).client, m.heard + TickEvent(health, h, checkAt),
            m.beats + BeatsIn(PingsMade(health, h, PingTick(checkAt, pingAt))))
  {
    hide Emit, LifecycleStep, GateStep, LedgerStep, DrawsStep, ConductOf, ConductStep, SendFrame, Leave, HealthBreak, BeatsIn;
    var m, t := ConductOf(w, h.client.trace), h.client.trace;
    if TickEvent(health, h, checkAt) != [] {
      var o := TickEvent(health, h, checkAt)[0];
      BreakConduct(w, h.client, o);
      HealthLeaveProjects(w, Note(h, Emit(t, o)), Fatal(o).value);
      NoCalls();
    } else {
      var made := health.strategy.create(h.pings, pingAt);
      OneCall(PingCreated(pingAt, made));
      if made.Some? {
        Said(w, t, HeartbeatMade(made.value));
        BeatDue(w, t, m, made.value);
        BeatConduct(w, Note(h.(pings := h.pings + [PingCreated(pingAt, made)]), Emit(t, HeartbeatMade(made.value))),
                    made.value, PingSendContext, m);
      }
    }
  }

  lemma NoCalls()
    ensures BeatsIn([]) == []
  {
  }

  lemma ExamineConduct(w: World, health: Health, h: Checked, frame: Frame, at: Instant)
    requires Conducted(w, h.client) && h.client.phase == InSession
    ensures var m := ConductOf(w, h.client.trace);
      Tells(w, HealthOnFrame(w, health, h, frame, at).client, m.heard + [InboundHook(frame)],
            m.beats + BeatsIn(PingsMade(health, h, Inbound(frame, at))))
  {
    hide Emit, LifecycleStep, GateStep, LedgerStep, DrawsStep, ConductOf, ConductStep, SendFrame, Leave, HealthBreak, BeatsIn, HealthOnOutcome, OnOutcome;
    var result := health.strategy.examine(h.pings, frame, at);
    var h1 := Note(h, Emit(h.client.trace, InboundHook(frame)))
              .(counters := CountMessage(h.counters, at), pings := h.pings + [FrameExamined(frame, at, result)]);
    var t := h1.client.trace;
    HearConduct(w, h.client, frame);
    OneCall(FrameExamined(frame, at, result));
    var m := ConductOf(w, t);
    match result {
      case ReplyWith(reply) =>
        Said(w, t, PongDue(reply));
        BeatDue(w, t, m, reply);
        BeatConduct(w, Note(h1, Emit(t, PongDue(reply))), reply, PongReplyContext, m);
      case PongReceived(_) =>
        Said(w, t, PongHeard);
        PongJudged(w, t, m);
      case InvalidPong =>
        Said(w, t, PongInvalid);
        PongJudged(w, t, m);
        var h2 := Note(h1, Emit(t, PongInvalid)).(counters := CountError(h1.counters));
        HealthLeaveProjects(w, h2, PongTimeout);
        LeaveConduct(w, h2.client, PongTimeout, true);
      case NotPong =>
        OnOutcomeProjects(w, h1, frame);
        OutcomeConduct(w, h1.client, frame);
    }
  }

  lemma HealthStepConduct(w: World, health: Health, h: Checked, input: Input)
    requires Conducted(w, h.client)
    ensures var m := ConductOf(w, h.client.trace);
      Tells(w, HealthStep(w, health, h, input).client, m.heard + HealthEventOf(health, h, input),
            m.beats + BeatsIn(PingsMade(health, h, input)))
  {
    hide HealthDialStep, HealthOnTick, HealthOnFrame, HealthWaitStep, HealthOnCommand, HealthBreak, Step, BeatsIn, ConductOf;
    if h.client.phase == InSession && input.PingTick? {
      TickConduct(w, health, h, input.checkAt, input.pingAt);
    } else if h.client.phase == InSession && input.Inbound? {
      ExamineConduct(w, health, h, input.frame, input.at);
    } else {
      StepProjects(w, health, h, input);
      StepConduct(w, h.client, input);
      NoCalls();
      OneCall(StrategyCleared);
    }
  }

  function HealthEventsOf(w: World, health: Health, created: Instant, script: seq<Input>): seq<Obs> {
    if script == [] then []
    else
      var n := |script| - 1;
      HealthEventsOf(w, health, created, script[..n]) +
      HealthEventOf(health, HealthRun(w, health, created, script[..n]), script[n])
  }

  /** After every run of the health-checked loop: the same, and the heartbeat
      frames written are exactly those its strategy made, in order. */
  lemma {:induction false} EveryHealthRunConducted(w: World, health: Health, created: Instant, script: seq<Input>)
    ensures var h := HealthRun(w, health, created, script);
      Tells(w, h.client, HealthEventsOf(w, health, created, script), BeatsIn(h.pings))
  {
    hide HealthStep, ConductOf;
    if script == [] {
      InitialConduct(w);
    } else {
      var n := |script| - 1;
      var h := HealthRun(w, health, created, script[..n]);
      EveryHealthRunConducted(w, health, created, script[..n]);
      HealthStepConduct(w, health, h, script[n]);
      StepPings(w, health, h, script[n]);
      BeatsAppend(h.pings, PingsMade(health, h, script[n]));
    }
  }

  lemma BeatsAppend(a: PingHistory, b: PingHistory)
    requires |b| <= 1
    ensures BeatsIn(a + b) == BeatsIn(a) + BeatsIn(b)
  {
    if b == [] {
      assert a + b == a;
    } else {
      assert (a + b)[..|a|] == a && b == [b[0]];
      OneCall(b[0]);
    }
  }
}
