/** The conduct of the client in plain terms: what each event leads to, read off
    the trace alone, and how the loops end. */
module ClientConsequences {
  import opened Prelude
  import opened Wire
  import opened ClientTrace
  import opened Ping
  import opened ClientLoop
  import opened ClientInvariant
  import opened ClientConduct

  // ---- What calls for the loss of a connection ----

  /** Which replay or command a frame belongs to: the latest of these. */
  datatype Occasion = NoOccasion | AtOpening | AtUnlock | AtCommand

  function OccasionOf(t: Trace): Occasion {
    match t
    case Start => NoOccasion
    case Then(_, ModeRead(_)) => AtOpening
    case Then(_, FrameParsed(_, Parsed(SessionAuthenticated))) => AtUnlock
    case Then(_, Took(_)) => AtCommand
    case Then(p, _) => OccasionOf(p)
  }

  /** The heartbeat frame last due was a ping of our own or an answer. */
  function BeatContext(t: Trace): Context {
    match t
    case Start => PingSendContext
    case Then(_, HeartbeatMade(_)) => PingSendContext
    case Then(_, PongDue(_)) => PongReplyContext
    case Then(p, _) => BeatContext(p)
  }

  function WriteContext(p: Trace, purpose: Purpose): Context {
    match purpose
    case ForAuth => AuthSendContext
    case ForReply => MessageSendContext
    case ForReplay => if OccasionOf(p) == AtOpening then ReplayContext else ReplayAfterAuthContext
    case ForHeartbeat => BeatContext(p)
    case ForCommand => CommandContext
  }

  function AttemptContext(p: Trace): Context {
    if OccasionOf(p) == AtCommand then CommandContext else PendingCommandContext
  }

  predicate Follows(t: Trace, o: Obs) { t.Then? && t.last == o }

  /** The observation that ends `t` calls for this loss. */
  function CalledFor(t: Trace): Option<Cause> {
    match t
    case Then(_, ConnectTried(Some(e))) => Some(InternalError(ConnectContext, e))
    case Then(_, Took(ForceReconnect(reason))) => Some(EndpointRequested(reason))
    case Then(_, FrameParsed(_, Parsed(RequestReconnect(reason)))) => Some(EndpointRequested(reason))
    case Then(_, ReadFailed(failure)) => Some(ReadFailure(failure))
    case Then(_, StreamEnded) => Some(RemoteClosed)
    case Then(_, PongOverdue) => Some(PongTimeout)
    case Then(_, PongInvalid) => Some(PongTimeout)
    case Then(_, DataStale) => Some(StaleData)
    case Then(Then(_, FrameParsed(_, ServerReported(code, text))), ServerErrorHandled(action)) =>
      if action == ContinueAfterError then None else Some(ServerError(code, text))
    case Then(Then(_, FrameParsed(_, Parsed(Process(_)))), MessageHandled(_, Some(e))) =>
      Some(InternalError(HandleMessageContext, e))
    case Then(p, Wrote(purpose, _, Some(e))) =>
      if purpose == ForCommand then None else Some(InternalError(WriteContext(p, purpose), e))
    case Then(p, Attempted(_, Some(e))) => Some(InternalError(AttemptContext(p), e))
    case _ => None
  }

  // ---- The duties carry the right contexts ----

  predicate ReplayFits(context: Context, occasion: Occasion) {
    || (occasion == AtOpening && context == ReplayContext)
    || (occasion == AtUnlock && context == ReplayAfterAuthContext)
  }

  predicate CommandFits(context: Context, occasion: Occasion) {
    || (occasion == AtCommand && context == CommandContext)
    || (occasion == AtUnlock && context == PendingCommandContext)
  }

  predicate JobFits(job: Job, occasion: Occasion, beat: Context) {
    match job
    case Introducing => true
    case Replying => true
    case Beating(context) => context == beat
    case Restoring(_, context) => ReplayFits(context, occasion)
    case Sending(_, context) => CommandFits(context, occasion)
    case Updating(_, _, context) => CommandFits(context, occasion)
  }

  predicate Fits(d: Duty, occasion: Occasion, beat: Context) {
    match d
    case ToShow(_, job) => JobFits(job, occasion, beat)
    case ToWrite(_, job) => JobFits(job, occasion, beat)
    case ToSerialize(job) => JobFits(job, occasion, beat)
    case ToList(context) => ReplayFits(context, occasion)
    case ToUpdate(_, context) => CommandFits(context, occasion)
    case ToReport(_, _, context) => CommandFits(context, occasion)
    case ToDrain => occasion == AtUnlock
    case _ => true
  }

  lemma StillKept(w: World, t: Trace)
    requires t.Then? && ConductOf(w, t).duty != Broken
    ensures ConductOf(w, t.prior).duty != Broken && Answered(w, t.prior, t.last)
    ensures ConductOf(w, t) == Respond(w, t.prior, Logged(ConductOf(w, t.prior), t.last), t.last)
  {
    hide GreetingStep, SessionObs, ExamineStep, WriteStep, SerializeStep, UpdateStep, ClassifyStep, NotifyStep, RestStep;
  }

  function NextOccasion(occasion: Occasion, o: Obs): Occasion {
    match o
    case ModeRead(_) => AtOpening
    case FrameParsed(_, Parsed(SessionAuthenticated)) => AtUnlock
    case Took(_) => AtCommand
    case _ => occasion
  }

  function NextBeat(beat: Context, o: Obs): Context {
    match o
    case HeartbeatMade(_) => PingSendContext
    case PongDue(_) => PongReplyContext
    case _ => beat
  }

  lemma TraceStep(t: Trace)
    requires t.Then?
    ensures OccasionOf(t) == NextOccasion(OccasionOf(t.prior), t.last)
    ensures BeatContext(t) == NextBeat(BeatContext(t.prior), t.last)
  {
  }

  predicate Working(d: Duty) {
    d.ToShow? || d.ToWrite? || d.ToSerialize? || d.ToList? || d.ToUpdate? || d.ToReport?
  }

  lemma RespondToFrame(w: World, p: Trace, m: Conduct, o: Obs)
    ensures m.duty.ToShow? ==> Respond(w, p, m, o) == Expect(m, o == OutboundHook(m.duty.frame), ToWrite(m.duty.frame, m.duty.job))
    ensures m.duty.ToWrite? ==> Respond(w, p, m, o) == WriteStep(m, m.duty.frame, m.duty.job, o)
    ensures m.duty.ToSerialize? ==> Respond(w, p, m, o) == SerializeStep(m, m.duty.job, o)
  {
    hide WriteStep, SerializeStep, UpdateStep, Go, Pursue, Reported, Expect, GreetingStep, SessionObs, ExamineStep, ClassifyStep,
         NotifyStep, RestStep, Resolved, Promise;
  }

  lemma RespondToTask(w: World, p: Trace, m: Conduct, o: Obs)
    ensures m.duty.ToList? ==>
      Respond(w, p, m, o) == if o.SubscriptionsListed? then Go(m, Pursue(Restoring(o.items, m.duty.context))) else Break(m)
    ensures m.duty.ToUpdate? ==> Respond(w, p, m, o) == UpdateStep(m, m.duty.action, m.duty.context, o)
    ensures m.duty.ToReport? ==>
      Respond(w, p, m, o) ==
        if o == Attempted(m.duty.command, m.duty.error) then Go(m, Reported(m.duty.context, m.duty.error)) else Break(m)
  {
    hide WriteStep, SerializeStep, UpdateStep, Go, Pursue, Reported, Expect, GreetingStep, SessionObs, ExamineStep, ClassifyStep,
         NotifyStep, RestStep, Resolved, Promise;
  }

  lemma GoFits(m: Conduct, d: Duty, occasion: Occasion, beat: Context)
    requires Fits(d, occasion, beat)
    ensures Fits(Go(m, d).duty, occasion, beat)
  {
    hide IntoFrame;
  }

  lemma OutcomeFits(job: Job, occasion: Occasion, beat: Context)
    requires JobFits(job, occasion, beat)
    ensures Fits(Pursue(job), occasion, beat) && forall e :: Fits(Failed(job, e), occasion, beat)
  {
  }

  lemma WorkingFits(w: World, p: Trace, m: Conduct, o: Obs, occasion: Occasion, beat: Context)
    requires Working(m.duty) && Fits(m.duty, occasion, beat) && Respond(w, p, m, o).duty != Broken
    ensures Fits(Respond(w, p, m, o).duty, occasion, beat)
    ensures NextOccasion(occasion, o) == occasion && NextBeat(beat, o) == beat
  {
    hide IntoFrame, Go, Pursue, Failed, JobFits, Respond;
    RespondToFrame(w, p, m, o);
    RespondToTask(w, p, m, o);
    match m.duty {
      case ToShow(_, _) =>
      case ToWrite(_, job) =>
        OutcomeFits(job, occasion, beat);
        GoFits(m, if o.error.None? then Pursue(job) else Failed(job, o.error.value), occasion, beat);
      case ToSerialize(job) => RestFits(job, occasion, beat);
      case ToList(context) =>
        ListFits(o.items, context, occasion, beat);
        GoFits(m, Pursue(Restoring(o.items, context)), occasion, beat);
      case ToUpdate(action, context) =>
        if o.result.Accepted? { UpdateFits(action, o.result.items, context, occasion, beat); }
      case ToReport(_, error, context) => GoFits(m, Reported(context, error), occasion, beat);
    }
  }

  lemma RestFits(job: Job, occasion: Occasion, beat: Context)
    requires JobFits(job, occasion, beat)
    ensures Listing(job) && job.left != [] ==> JobFits(job.(left := job.left[1..]), occasion, beat)
  {
  }

  lemma ListFits(items: seq<Subscription>, context: Context, occasion: Occasion, beat: Context)
    requires ReplayFits(context, occasion)
    ensures Fits(Pursue(Restoring(items, context)), occasion, beat)
  {
    OutcomeFits(Restoring(items, context), occasion, beat);
  }

  lemma UpdateFits(action: SubscriptionAction, items: seq<Subscription>, context: Context, occasion: Occasion, beat: Context)
    requires CommandFits(context, occasion)
    ensures Fits(Pursue(Updating(action, items, context)), occasion, beat)
  {
    OutcomeFits(Updating(action, items, context), occasion, beat);
  }

  lemma SessionFits(m: Conduct, o: Obs, occasion: Occasion, beat: Context)
    requires SessionObs(m, o).duty != Broken
    ensures Fits(SessionObs(m, o).duty, NextOccasion(occasion, o), NextBeat(beat, o))
  {
    hide IntoFrame;
  }

  lemma ExamineFits(m: Conduct, frame: Frame, o: Obs, occasion: Occasion, beat: Context)
    requires ExamineStep(m, frame, o).duty != Broken
    ensures Fits(ExamineStep(m, frame, o).duty, NextOccasion(occasion, o), NextBeat(beat, o))
  {
    hide IntoFrame;
  }

  lemma GreetingFits(m: Conduct, done: nat, o: Obs, occasion: Occasion, beat: Context)
    requires GreetingStep(m, done, o).duty != Broken
    ensures Fits(GreetingStep(m, done, o).duty, NextOccasion(occasion, o), NextBeat(beat, o))
  {
    hide IntoFrame;
  }

  /** Duties that carry no context of their own. */
  predicate Bare(d: Duty) { !Working(d) && d != ToDrain }

  lemma LosingIsBare(w: World, p: Trace, m: Conduct, o: Obs)
    requires m.duty.ToLose? || m.duty.ToClassify? || m.duty.ToAskRetry? || m.duty.ToDraw? || m.duty.ToNotify?
    ensures Bare(Respond(w, p, m, o).duty)
  {
    hide GreetingStep, SessionObs, ExamineStep, WriteStep, SerializeStep, UpdateStep, RestStep;
  }

  lemma WaitingIsBare(w: World, p: Trace, m: Conduct, o: Obs)
    requires m.duty.ToStore? || m.duty.ToWait? || m.duty == AtRest || m.duty == ToStop || m.duty == ToRedial || m.duty == AtConnect
    ensures Bare(Respond(w, p, m, o).duty)
  {
    hide GreetingStep, SessionObs, ExamineStep, WriteStep, SerializeStep, UpdateStep, ClassifyStep, NotifyStep;
  }

  lemma JudgingIsBare(w: World, p: Trace, m: Conduct, o: Obs)
    requires m.duty.ToHandle? || m.duty.ToJudge? || m.duty == ToDrain || m.duty == AtEnd || m.duty == Broken
    ensures Bare(Respond(w, p, m, o).duty)
  {
    hide GreetingStep, SessionObs, ExamineStep, WriteStep, SerializeStep, UpdateStep, ClassifyStep, NotifyStep;
  }

  lemma BareFits(d: Duty, occasion: Occasion, beat: Context)
    requires Bare(d)
    ensures Fits(d, occasion, beat)
  {
  }

  lemma RespondTo(w: World, p: Trace, m: Conduct, o: Obs)
    ensures m.duty == AtSession ==> Respond(w, p, m, o) == SessionObs(m, o)
    ensures m.duty.ToExamine? ==> Respond(w, p, m, o) == ExamineStep(m, m.duty.inbound, o)
    ensures m.duty.Greeting? ==> Respond(w, p, m, o) == GreetingStep(m, m.duty.done, o)
  {
    hide SessionObs, ExamineStep, GreetingStep;
  }

  lemma StepFits(w: World, p: Trace, m: Conduct, o: Obs, occasion: Occasion, beat: Context)
    requires Fits(m.duty, occasion, beat) && Respond(w, p, m, o).duty != Broken
    ensures Fits(Respond(w, p, m, o).duty, NextOccasion(occasion, o), NextBeat(beat, o))
  {
    hide Respond, NextOccasion, NextBeat, Fits;
    RespondTo(w, p, m, o);
    if Working(m.duty) {
      WorkingFits(w, p, m, o, occasion, beat);
    } else if m.duty == AtSession {
      SessionFits(m, o, occasion, beat);
    } else if m.duty.ToExamine? {
      ExamineFits(m, m.duty.inbound, o, occasion, beat);
    } else if m.duty.Greeting? {
      GreetingFits(m, m.duty.done, o, occasion, beat);
    } else {
      OthersAreBare(w, p, m, o);
      BareFits(Respond(w, p, m, o).duty, NextOccasion(occasion, o), NextBeat(beat, o));
    }
  }

  lemma OthersAreBare(w: World, p: Trace, m: Conduct, o: Obs)
    requires !Working(m.duty) && m.duty != AtSession && !m.duty.ToExamine? && !m.duty.Greeting?
    ensures Bare(Respond(w, p, m, o).duty)
  {
    hide Respond, Bare;
    match m.duty {
      case ToHandle(_, _) => JudgingIsBare(w, p, m, o);
      case ToJudge(_, _) => JudgingIsBare(w, p, m, o);
      case ToDrain => JudgingIsBare(w, p, m, o);
      case AtEnd => JudgingIsBare(w, p, m, o);
      case Broken => JudgingIsBare(w, p, m, o);
      case ToLose(_) => LosingIsBare(w, p, m, o);
      case ToClassify(_) => LosingIsBare(w, p, m, o);
      case ToAskRetry(_) => LosingIsBare(w, p, m, o);
      case ToDraw(_) => LosingIsBare(w, p, m, o);
      case ToNotify(_, _) => LosingIsBare(w, p, m, o);
      case _ => WaitingIsBare(w, p, m, o);
    }
  }

  lemma {:induction false} DutiesFit(w: World, t: Trace)
    requires ConductOf(w, t).duty != Broken
    ensures Fits(ConductOf(w, t).duty, OccasionOf(t), BeatContext(t))
  {
    hide ConductOf, Respond, OccasionOf, BeatContext;
    if t == Start {
      StartDuty(w);
    } else {
      StillKept(w, t);
      DutiesFit(w, t.prior);
      TraceStep(t);
      StepFits(w, t.prior, Logged(ConductOf(w, t.prior), t.last), t.last, OccasionOf(t.prior), BeatContext(t.prior));
    }
  }

  lemma StartDuty(w: World)
    ensures ConductOf(w, Start).duty == ToRedial
  {
  }

  // ---- A connection is lost exactly when that is called for ----

  function Due(d: Duty): Option<Cause> {
    if d.ToLose? then Some(d.cause) else None
  }

  /** What brought about an error to judge or a message to handle. */
  predicate Origin(d: Duty, o: Obs) {
    && (d.ToJudge? ==> o.FrameParsed? && o.outcome == ServerReported(d.code, d.text))
    && (d.ToHandle? ==>
          && (d.matter == InSessionMatter <==> o.FrameParsed?)
          && (o.FrameParsed? ==> o.outcome == Parsed(Process(d.message))))
  }

  /** Neither an error to judge nor a message to handle. */
  predicate Settling(d: Duty) { !d.ToJudge? && !d.ToHandle? }

  lemma GoSettles(m: Conduct, d: Duty)
    requires Settling(d)
    ensures Settling(Go(m, d).duty)
  {
    hide IntoFrame;
  }

  lemma JobSettles(job: Job)
    ensures Settling(Pursue(job)) && forall e :: Settling(Failed(job, e))
  {
  }

  lemma WorkingSettles(w: World, p: Trace, m: Conduct, o: Obs)
    requires Working(m.duty)
    ensures Settling(Respond(w, p, m, o).duty)
  {
    hide IntoFrame, Go, Pursue, Failed, Respond;
    RespondToFrame(w, p, m, o);
    RespondToTask(w, p, m, o);
    match m.duty {
      case ToWrite(_, job) =>
        JobSettles(job);
        if o.Wrote? { GoSettles(m, if o.error.None? then Pursue(job) else Failed(job, o.error.value)); }
      case ToList(context) =>
        if o.SubscriptionsListed? {
          JobSettles(Restoring(o.items, context));
          GoSettles(m, Pursue(Restoring(o.items, context)));
        }
      case ToUpdate(action, context) =>
        if o.SubscriptionsUpdated? && o.result.Accepted? { JobSettles(Updating(action, o.result.items, context)); }
      case ToReport(_, error, context) => GoSettles(m, Reported(context, error));
      case _ =>
    }
  }

  lemma SessionOrigin(m: Conduct, o: Obs)
    ensures Origin(SessionObs(m, o).duty, o)
  {
    hide IntoFrame;
  }

  lemma ExamineOrigin(m: Conduct, frame: Frame, o: Obs)
    ensures Origin(ExamineStep(m, frame, o).duty, o)
  {
    hide IntoFrame;
  }

  lemma GreetingOrigin(m: Conduct, done: nat, o: Obs)
    ensures Origin(GreetingStep(m, done, o).duty, o)
  {
    hide IntoFrame;
  }

  lemma HearingOrigin(w: World, p: Trace, m: Conduct, o: Obs)
    requires m.duty == AtSession || m.duty.ToExamine? || m.duty.Greeting?
    ensures Origin(Respond(w, p, m, o).duty, o)
  {
    hide Respond, Origin, SessionObs, ExamineStep, GreetingStep;
    RespondTo(w, p, m, o);
    match m.duty
    case AtSession => SessionOrigin(m, o);
    case ToExamine(frame) => ExamineOrigin(m, frame, o);
    case Greeting(done) => GreetingOrigin(m, done, o);
  }

  lemma LosingOrigin(w: World, p: Trace, m: Conduct, o: Obs)
    requires m.duty.ToLose? || m.duty.ToClassify? || m.duty.ToAskRetry? || m.duty.ToDraw? || m.duty.ToNotify?
    ensures Origin(Respond(w, p, m, o).duty, o)
  {
    hide GreetingStep, SessionObs, ExamineStep, WriteStep, SerializeStep, UpdateStep, RestStep;
  }

  lemma OtherOrigin(w: World, p: Trace, m: Conduct, o: Obs)
    requires m.duty.ToStore? || m.duty.ToWait? || m.duty == AtRest || m.duty == ToStop || m.duty == ToRedial || m.duty == AtConnect
      || m.duty.ToHandle? || m.duty.ToJudge? || m.duty == ToDrain || m.duty == AtEnd || m.duty == Broken
    ensures Settling(Respond(w, p, m, o).duty)
  {
    hide GreetingStep, SessionObs, ExamineStep, WriteStep, SerializeStep, UpdateStep, ClassifyStep, NotifyStep;
  }

  lemma StepOrigin(w: World, p: Trace, m: Conduct, o: Obs)
    ensures Origin(Respond(w, p, m, o).duty, o)
  {
    hide Respond;
    if Working(m.duty) {
      WorkingSettles(w, p, m, o);
    } else if m.duty == AtSession || m.duty.ToExamine? || m.duty.Greeting? {
      HearingOrigin(w, p, m, o);
    } else if m.duty.ToLose? || m.duty.ToClassify? || m.duty.ToAskRetry? || m.duty.ToDraw? || m.duty.ToNotify? {
      LosingOrigin(w, p, m, o);
    } else {
      OtherOrigin(w, p, m, o);
    }
  }

  lemma DutyOrigin(w: World, t: Trace)
    requires ConductOf(w, t).duty != Broken && !Settling(ConductOf(w, t).duty)
    ensures t.Then? && Origin(ConductOf(w, t).duty, t.last)
  {
    hide ConductOf, Respond;
    if t == Start {
      StartDuty(w);
    } else {
      StillKept(w, t);
      StepOrigin(w, t.prior, Logged(ConductOf(w, t.prior), t.last), t.last);
    }
  }

  lemma WriteDue(m: Conduct, p: Trace, frame: Frame, job: Job, o: Obs)
    requires JobFits(job, OccasionOf(p), BeatContext(p)) && WriteStep(m, frame, job, o).duty != Broken
    ensures Due(WriteStep(m, frame, job, o).duty) == CalledFor(Then(p, o))
  {
    hide IntoFrame, OccasionOf, BeatContext;
  }

  lemma ReportDue(m: Conduct, p: Trace, command: Command, error: Option<string>, context: Context)
    requires CommandFits(context, OccasionOf(p))
    ensures Due(Go(m, Reported(context, error)).duty) == CalledFor(Then(p, Attempted(command, error)))
  {
    hide IntoFrame, OccasionOf;
  }

  lemma PursueDue(m: Conduct, job: Job)
    ensures Due(Go(m, Pursue(job)).duty) == None
  {
    hide IntoFrame;
  }

  lemma WorkingDue(w: World, p: Trace, m: Conduct, o: Obs)
    requires Working(m.duty) && Fits(m.duty, OccasionOf(p), BeatContext(p)) && Respond(w, p, m, o).duty != Broken
    ensures Due(Respond(w, p, m, o).duty) == CalledFor(Then(p, o))
  {
    hide IntoFrame, Go, Pursue, Failed, JobFits, OccasionOf, BeatContext, WriteStep, CommandFits, Reported, Respond;
    RespondToFrame(w, p, m, o);
    RespondToTask(w, p, m, o);
    match m.duty {
      case ToWrite(frame, job) => WriteDue(m, p, frame, job, o);
      case ToList(context) => PursueDue(m, Restoring(o.items, context));
      case ToUpdate(action, context) =>
        if o.result.Accepted? { PursueDue(m, Updating(action, o.result.items, context)); GoIs(m, action, o.result.items, context); }
      case ToReport(command, error, context) => ReportDue(m, p, command, error, context);
      case _ =>
    }
  }

  lemma GoIs(m: Conduct, action: SubscriptionAction, items: seq<Subscription>, context: Context)
    ensures Go(m, Pursue(Updating(action, items, context))).duty == Pursue(Updating(action, items, context))
  {
  }

  lemma SessionDue(m: Conduct, p: Trace, o: Obs)
    requires SessionObs(m, o).duty != Broken
    ensures Due(SessionObs(m, o).duty) == CalledFor(Then(p, o))
  {
    hide IntoFrame;
  }

  lemma ExamineDue(m: Conduct, p: Trace, frame: Frame, o: Obs)
    requires ExamineStep(m, frame, o).duty != Broken
    ensures Due(ExamineStep(m, frame, o).duty) == CalledFor(Then(p, o))
  {
    hide IntoFrame;
  }

  lemma GreetingDue(m: Conduct, p: Trace, done: nat, o: Obs)
    requires GreetingStep(m, done, o).duty != Broken
    ensures Due(GreetingStep(m, done, o).duty) == CalledFor(Then(p, o))
  {
    hide IntoFrame;
  }

  lemma LosingDue(w: World, p: Trace, m: Conduct, o: Obs)
    requires m.duty.ToLose? || m.duty.ToClassify? || m.duty.ToAskRetry? || m.duty.ToDraw? || m.duty.ToNotify?
    requires Respond(w, p, m, o).duty != Broken
    ensures Due(Respond(w, p, m, o).duty) == CalledFor(Then(p, o)) == None
  {
    hide GreetingStep, SessionObs, ExamineStep, WriteStep, SerializeStep, UpdateStep, RestStep;
  }

  lemma WaitingDue(w: World, p: Trace, m: Conduct, o: Obs)
    requires m.duty.ToStore? || m.duty.ToWait? || m.duty == AtRest || m.duty == ToStop || m.duty == ToRedial || m.duty == AtConnect
    requires Respond(w, p, m, o).duty != Broken
    ensures Due(Respond(w, p, m, o).duty) == CalledFor(Then(p, o))
  {
    hide GreetingStep, SessionObs, ExamineStep, WriteStep, SerializeStep, UpdateStep, ClassifyStep, NotifyStep;
  }

  lemma JudgingDue(w: World, p: Trace, m: Conduct, o: Obs)
    requires Respond(w, p, m, o).duty != Broken && (m.duty.ToHandle? || m.duty.ToJudge?) && m.duty == ConductOf(w, p).duty
    ensures Due(Respond(w, p, m, o).duty) == CalledFor(Then(p, o))
  {
    hide ConductOf;
    DutyOrigin(w, p);
  }

  lemma StepDue(w: World, p: Trace, m: Conduct, o: Obs)
    requires Fits(m.duty, OccasionOf(p), BeatContext(p)) && m.duty == ConductOf(w, p).duty
    requires Respond(w, p, m, o).duty != Broken
    ensures Due(Respond(w, p, m, o).duty) == CalledFor(Then(p, o))
  {
    hide Respond, Fits, ConductOf, CalledFor, Due, OccasionOf, BeatContext;
    RespondTo(w, p, m, o);
    if Working(m.duty) {
      WorkingDue(w, p, m, o);
    } else {
      match m.duty {
        case AtSession => SessionDue(m, p, o);
        case ToExamine(frame) => ExamineDue(m, p, frame, o);
        case Greeting(done) => GreetingDue(m, p, done, o);
        case ToHandle(_, _) => JudgingDue(w, p, m, o);
        case ToJudge(_, _) => JudgingDue(w, p, m, o);
        case ToLose(_) => LosingDue(w, p, m, o);
        case ToClassify(_) => LosingDue(w, p, m, o);
        case ToAskRetry(_) => LosingDue(w, p, m, o);
        case ToDraw(_) => LosingDue(w, p, m, o);
        case ToNotify(_, _) => LosingDue(w, p, m, o);
        case ToDrain => EndsHere(w, p, m, o);
        case AtEnd => EndsHere(w, p, m, o);
        case Broken => EndsHere(w, p, m, o);
        case _ => WaitingDue(w, p, m, o);
      }
    }
  }

  lemma EndsHere(w: World, p: Trace, m: Conduct, o: Obs)
    requires m.duty == ToDrain || m.duty == AtEnd || m.duty == Broken
    ensures Respond(w, p, m, o).duty == Broken
  {
  }

  /** Along a kept trace the connection is due to be lost, with this cause, exactly
      when the last observation calls for that. */
  lemma {:induction false} LostIffCalledFor(w: World, t: Trace)
    requires ConductOf(w, t).duty != Broken
    ensures Due(ConductOf(w, t).duty) == CalledFor(t)
  {
    hide ConductOf, Respond, Fits, OccasionOf, BeatContext;
    if t == Start {
      StartDuty(w);
    } else {
      StillKept(w, t);
      DutiesFit(w, t.prior);
      StepDue(w, t.prior, Logged(ConductOf(w, t.prior), t.last), t.last);
      assert t == Then(t.prior, t.last);
    }
  }

  // ---- What came just before ----

  /** How far the update under way has come. */
  datatype Update = NoUpdate | Under(action: SubscriptionAction, items: seq<Subscription>, written: nat)

  function UpdateProgress(t: Trace): Update {
    match t
    case Start => NoUpdate
    case Then(_, SubscriptionsUpdated(action, Accepted(items))) => Under(action, items, 0)
    case Then(_, SubscriptionsUpdated(action, Refused(_))) => NoUpdate
    case Then(_, Attempted(_, _)) => NoUpdate
    case Then(p, Wrote(ForCommand, _, None)) =>
      var u := UpdateProgress(p);
      if u.Under? then u.(written := u.written + 1) else u
    case Then(p, _) => UpdateProgress(p)
  }

  /** All but `left` of the items accepted for the update have been written. */
  predicate UpdateLeft(t: Trace, action: SubscriptionAction, left: nat) {
    var u := UpdateProgress(t);
    u.Under? && u.action == action && u.written + left == |u.items|
  }

  predicate JobMeans(job: Job, frame: Frame, inFlight: nat, t: Trace) {
    match job
    case Sending(payload, _) => frame == IntoFrame(payload)
    case Updating(action, left, _) => UpdateLeft(t, action, |left| + inFlight)
    case _ => true
  }

  /** Classified with this cause just before, and retried as the strategy said. */
  predicate DecidedBefore(t: Trace, cause: Cause, promised: Option<Delay>) {
    match promised
    case None =>
      || Follows(t, Classified(cause, Abort))
      || (Follows(t, RetryAsked(false)) && Follows(t.prior, Classified(cause, BackoffReconnect)))
    case Some(delay) =>
      || (Follows(t, Classified(cause, ImmediateReconnect)) && delay == 0.0)
      || (&& Follows(t, DelayDrawn(delay)) && Follows(t.prior, RetryAsked(true))
          && Follows(t.prior.prior, Classified(cause, BackoffReconnect)))
  }

  predicate Means(d: Duty, t: Trace) {
    match d
    case ToShow(frame, job) => JobMeans(job, frame, 1, t)
    case ToWrite(frame, job) => JobMeans(job, frame, 1, t) && Follows(t, OutboundHook(frame))
    case ToSerialize(job) => job.Updating? ==> UpdateLeft(t, job.action, |job.left|)
    case ToReport(Send(payload), error, _) => Follows(t, Wrote(ForCommand, IntoFrame(payload), error))
    case ToReport(UpdateSubscriptions(action), None, _) => UpdateLeft(t, action, 0)
    case ToClassify(cause) => Follows(t, StatusStored(Disconnected)) && CalledFor(t.prior) == Some(cause) && !Late(cause)
    case ToAskRetry(cause) => Follows(t, Classified(cause, BackoffReconnect))
    case ToDraw(cause) => Follows(t, RetryAsked(true)) && Follows(t.prior, Classified(cause, BackoffReconnect))
    case ToNotify(cause, promised) => DecidedBefore(t, cause, promised)
    case _ => true
  }

  lemma CarryMeans(command: Command, context: Context, t: Trace)
    ensures Means(Carry(command, context), t)
  {
    hide IntoFrame;
  }

  lemma GoMeans(m: Conduct, d: Duty, t: Trace)
    requires Means(d, t)
    ensures Means(Go(m, d).duty, t)
  {
    hide Carry, Means;
    if d == ToDrain {
      RestMeans(t);
      if m.queue != [] { CarryMeans(m.queue[0], PendingCommandContext, t); }
    }
  }

  lemma RestMeans(t: Trace)
    ensures Means(AtSession, t) && Means(ToDrain, t) && forall cause :: Means(ToLose(cause), t)
  {
  }

  lemma WriteMeans(p: Trace, frame: Frame, job: Job, error: Option<string>)
    requires JobMeans(job, frame, 1, p)
    ensures Means(Outcome(job, error), Then(p, Wrote(PurposeOf(job), frame, error)))
  {
    hide IntoFrame;
  }

  lemma WorkingMeans(w: World, p: Trace, m: Conduct, o: Obs)
    requires Working(m.duty) && Means(m.duty, p) && Respond(w, p, m, o).duty != Broken
    ensures Means(Respond(w, p, m, o).duty, Then(p, o))
  {
    hide IntoFrame, Go, Pursue, Failed, PurposeOf, Reported, Respond;
    RespondToFrame(w, p, m, o);
    RespondToTask(w, p, m, o);
    var t := Then(p, o);
    match m.duty {
      case ToShow(_, _) =>
      case ToWrite(frame, job) =>
        WriteMeans(p, frame, job, o.error);
        GoMeans(m, Outcome(job, o.error), t);
      case ToSerialize(_) =>
      case ToList(context) =>
        ListMeans(o.items, context, t);
        GoMeans(m, Pursue(Restoring(o.items, context)), t);
      case ToUpdate(action, context) =>
        if o.result.Accepted? { UpdateMeans(p, action, o.result.items, context); }
      case ToReport(_, error, context) =>
        ReportMeans(context, error, t);
        GoMeans(m, Reported(context, error), t);
    }
  }

  lemma ListMeans(items: seq<Subscription>, context: Context, t: Trace)
    ensures Means(Pursue(Restoring(items, context)), t)
  {
  }

  lemma ReportMeans(context: Context, error: Option<string>, t: Trace)
    ensures Means(Reported(context, error), t)
  {
  }

  lemma UpdateMeans(p: Trace, action: SubscriptionAction, items: seq<Subscription>, context: Context)
    ensures Means(Pursue(Updating(action, items, context)), Then(p, SubscriptionsUpdated(action, Accepted(items))))
  {
  }

  lemma SessionMeans(m: Conduct, p: Trace, o: Obs)
    ensures Means(SessionObs(m, o).duty, Then(p, o))
  {
    hide IntoFrame, UpdateProgress, CalledFor, Carry;
    if o.Took? { CarryMeans(o.command, CommandContext, Then(p, o)); }
  }

  lemma ExamineMeans(m: Conduct, p: Trace, frame: Frame, o: Obs)
    ensures Means(ExamineStep(m, frame, o).duty, Then(p, o))
  {
    hide IntoFrame, UpdateProgress, CalledFor;
  }

  lemma GreetingMeans(m: Conduct, p: Trace, done: nat, o: Obs)
    ensures Means(GreetingStep(m, done, o).duty, Then(p, o))
  {
    hide IntoFrame, UpdateProgress, CalledFor;
  }

  lemma HearingMeans(w: World, p: Trace, m: Conduct, o: Obs)
    requires m.duty == AtSession || m.duty.ToExamine? || m.duty.Greeting?
    ensures Means(Respond(w, p, m, o).duty, Then(p, o))
  {
    hide Respond, Means, SessionObs, ExamineStep, GreetingStep;
    RespondTo(w, p, m, o);
    match m.duty
    case AtSession => SessionMeans(m, p, o);
    case ToExamine(frame) => ExamineMeans(m, p, frame, o);
    case Greeting(done) => GreetingMeans(m, p, done, o);
  }

  lemma LosingMeans(w: World, p: Trace, m: Conduct, o: Obs)
    requires m.duty.ToLose? || m.duty.ToClassify? || m.duty.ToAskRetry? || m.duty.ToDraw? || m.duty.ToNotify?
    requires Means(m.duty, p) && (m.duty.ToLose? ==> CalledFor(p) == Some(m.duty.cause)) && Respond(w, p, m, o).duty != Broken
    ensures Means(Respond(w, p, m, o).duty, Then(p, o))
  {
    hide IntoFrame, UpdateProgress, CalledFor, Parted, GreetingStep, SessionObs, ExamineStep, WriteStep, SerializeStep, UpdateStep, RestStep;
    PartedMeans(p, o);
  }

  lemma PartedMeans(p: Trace, o: Obs)
    ensures forall cause, promised :: Means(Parted(cause, promised), Then(p, o))
  {
  }

  lemma PausedMeans(w: World, p: Trace, m: Conduct, o: Obs)
    requires m.duty.ToStore? || m.duty.ToWait? || m.duty == AtRest || m.duty == ToStop || m.duty == ToRedial || m.duty == AtConnect
    ensures Means(Respond(w, p, m, o).duty, Then(p, o))
  {
    hide UpdateProgress, CalledFor, GreetingStep, SessionObs, ExamineStep, WriteStep, SerializeStep, UpdateStep, ClassifyStep, NotifyStep;
  }

  lemma JudgingMeans(w: World, p: Trace, m: Conduct, o: Obs)
    requires m.duty.ToHandle? || m.duty.ToJudge? || m.duty == ToDrain || m.duty == AtEnd || m.duty == Broken
    ensures Means(Respond(w, p, m, o).duty, Then(p, o))
  {
    hide UpdateProgress, CalledFor, GreetingStep, SessionObs, ExamineStep, WriteStep, SerializeStep, UpdateStep, ClassifyStep, NotifyStep,
         Parted;
    PartedMeans(p, o);
  }

  lemma StepMeans(w: World, p: Trace, m: Conduct, o: Obs)
    requires Means(m.duty, p) && (m.duty.ToLose? ==> CalledFor(p) == Some(m.duty.cause)) && Respond(w, p, m, o).duty != Broken
    ensures Means(Respond(w, p, m, o).duty, Then(p, o))
  {
    hide Respond, Means, CalledFor;
    if Working(m.duty) {
      WorkingMeans(w, p, m, o);
    } else if m.duty == AtSession || m.duty.ToExamine? || m.duty.Greeting? {
      HearingMeans(w, p, m, o);
    } else if m.duty.ToLose? || m.duty.ToClassify? || m.duty.ToAskRetry? || m.duty.ToDraw? || m.duty.ToNotify? {
      LosingMeans(w, p, m, o);
    } else if m.duty.ToHandle? || m.duty.ToJudge? || m.duty == ToDrain || m.duty == AtEnd || m.duty == Broken {
      JudgingMeans(w, p, m, o);
    } else {
      PausedMeans(w, p, m, o);
    }
  }

  lemma {:induction false} DutyMeans(w: World, t: Trace)
    requires ConductOf(w, t).duty != Broken
    ensures Means(ConductOf(w, t).duty, t)
  {
    hide ConductOf, Respond, Means, CalledFor;
    if t == Start {
      StartDuty(w);
      RedialMeans(t);
    } else {
      StillKept(w, t);
      DutyMeans(w, t.prior);
      LostIffCalledFor(w, t.prior);
      StepMeans(w, t.prior, Logged(ConductOf(w, t.prior), t.last), t.last);
      assert t == Then(t.prior, t.last);
    }
  }

  lemma RedialMeans(t: Trace)
    ensures Means(ToRedial, t)
  {
  }

  // ---- The law of the trace ----

  /** A loss begins at once: the status is stored and then the cause classified;
      where opening the connection failed, it is classified first. */
  predicate LossBegins(p: Trace, o: Obs) {
    && (CalledFor(p).Some? ==>
          if Late(CalledFor(p).value) then o.Classified? && o.cause == CalledFor(p).value
          else o == StatusStored(Disconnected))
    && (o.Classified? ==>
          || (CalledFor(p) == Some(o.cause) && Late(o.cause))
          || (Follows(p, StatusStored(Disconnected)) && CalledFor(p.prior) == Some(o.cause) && !Late(o.cause)))
    && (Follows(p, StatusStored(Disconnected)) && CalledFor(p.prior).Some? && !Late(CalledFor(p.prior).value) ==>
          o.Classified? && o.cause == CalledFor(p.prior).value)
  }

  /** The strategy is asked after a backoff decision and drawn from if it would retry. */
  ghost predicate RetriedAsDecided(p: Trace, o: Obs) {
    && (p.Then? && p.last.Classified? && p.last.decision == BackoffReconnect ==> o.RetryAsked?)
    && (Follows(p, RetryAsked(true)) ==> o.DelayDrawn?)
    && (Follows(p, RetryAsked(false)) ==> o.Disconnection? && !o.willReconnect)
    && (o.DelayDrawn? ==> Follows(p, RetryAsked(true)))
    && (o.Disconnection? ==> exists promised: Option<Delay> :: o.willReconnect == promised.Some? && DecidedBefore(p, o.cause, promised))
  }

  /** A frame shown to the outbound hook is written next, and none is written unseen. */
  predicate WrittenAsShown(p: Trace, o: Obs) {
    && (o.Wrote? ==> Follows(p, OutboundHook(o.outbound)))
    && (p.Then? && p.last.OutboundHook? ==> o.Wrote? && o.outbound == p.last.outbound)
    && (o.Attempted? && o.command.Send? ==> Follows(p, Wrote(ForCommand, IntoFrame(o.command.payload), o.error)))
    && (o.Attempted? && o.command.UpdateSubscriptions? && o.error.None? ==> UpdateLeft(p, o.command.action, 0))
  }

  ghost predicate Courteous(w: World, t: Trace) {
    match t
    case Start => true
    case Then(p, o) =>
      Courteous(w, p) && Answered(w, p, o) && LossBegins(p, o) && RetriedAsDecided(p, o) && WrittenAsShown(p, o)
  }

  /** Observations that only one duty accepts. */
  predicate Singular(o: Obs) {
    o.Classified? || o.RetryAsked? || o.DelayDrawn? || o.Disconnection? || o.Wrote? || o.Attempted? || o.OutboundHook?
  }

  predicate Accepts(d: Duty, o: Obs) {
    match o
    case Classified(cause, _) => d == ToClassify(cause) || (d == ToLose(cause) && Late(cause))
    case RetryAsked(_) => d.ToAskRetry?
    case DelayDrawn(_) => d.ToDraw?
    case Disconnection(cause, will, _) => d.ToNotify? && d.cause == cause && will == d.promised.Some?
    case Wrote(_, frame, _) => d.ToWrite? && d.frame == frame
    case Attempted(command, error) => d.ToReport? && d.command == command && d.error == error
    case OutboundHook(frame) => d.ToShow? && d.frame == frame
    case _ => true
  }

  lemma WorkingAccepts(w: World, p: Trace, m: Conduct, o: Obs)
    requires Working(m.duty) && Respond(w, p, m, o).duty != Broken
    ensures Accepts(m.duty, o)
  {
    hide Go, Pursue, Failed, IntoFrame, Respond;
    RespondToFrame(w, p, m, o);
    RespondToTask(w, p, m, o);
  }

  lemma LosingAccepts(w: World, p: Trace, m: Conduct, o: Obs)
    requires m.duty.ToLose? || m.duty.ToClassify? || m.duty.ToAskRetry? || m.duty.ToDraw? || m.duty.ToNotify?
    requires Respond(w, p, m, o).duty != Broken
    ensures Accepts(m.duty, o)
  {
    hide GreetingStep, SessionObs, ExamineStep, WriteStep, SerializeStep, UpdateStep, RestStep;
  }

  lemma HearingAccepts(w: World, p: Trace, m: Conduct, o: Obs)
    requires (m.duty == AtSession || m.duty.ToExamine? || m.duty.Greeting?) && Respond(w, p, m, o).duty != Broken
    ensures !Singular(o)
  {
    hide IntoFrame, WriteStep, SerializeStep, UpdateStep, ClassifyStep, NotifyStep, RestStep, Go, Pursue;
  }

  lemma OtherAccepts(w: World, p: Trace, m: Conduct, o: Obs)
    requires m.duty.ToStore? || m.duty.ToWait? || m.duty == AtRest || m.duty == ToStop || m.duty == ToRedial || m.duty == AtConnect
      || m.duty.ToHandle? || m.duty.ToJudge? || m.duty == ToDrain || m.duty == AtEnd || m.duty == Broken
    requires Respond(w, p, m, o).duty != Broken
    ensures !Singular(o)
  {
    hide GreetingStep, SessionObs, ExamineStep, WriteStep, SerializeStep, UpdateStep, ClassifyStep, NotifyStep;
  }

  lemma StepAccepts(w: World, p: Trace, m: Conduct, o: Obs)
    requires Respond(w, p, m, o).duty != Broken
    ensures Accepts(m.duty, o)
  {
    hide Respond;
    if Working(m.duty) {
      WorkingAccepts(w, p, m, o);
    } else if m.duty == AtSession || m.duty.ToExamine? || m.duty.Greeting? {
      HearingAccepts(w, p, m, o);
    } else if m.duty.ToLose? || m.duty.ToClassify? || m.duty.ToAskRetry? || m.duty.ToDraw? || m.duty.ToNotify? {
      LosingAccepts(w, p, m, o);
    } else {
      OtherAccepts(w, p, m, o);
    }
  }

  /** What the last observation and the duty before it make of the duty now. */
  predicate Leads(d: Duty, o: Obs, next: Duty) {
    match o
    case Classified(cause, decision) => next == Decided(cause, decision)
    case RetryAsked(ok) => if ok then next.ToDraw? else next.ToNotify? && next.promised.None?
    case OutboundHook(frame) => next.ToWrite? && next.frame == frame
    case StatusStored(Disconnected) => d.ToLose? && !Late(d.cause) ==> next == ToClassify(d.cause)
    case _ => true
  }

  lemma StepLeads(w: World, p: Trace, m: Conduct, o: Obs)
    requires Respond(w, p, m, o).duty != Broken && Accepts(m.duty, o)
    ensures Leads(m.duty, o, Respond(w, p, m, o).duty)
  {
    hide GreetingStep, SessionObs, ExamineStep, WriteStep, SerializeStep, UpdateStep, NotifyStep, RestStep, Pursue, Failed, Go, IntoFrame;
  }

  lemma LastLeads(w: World, t: Trace)
    requires t.Then? && ConductOf(w, t).duty != Broken
    ensures ConductOf(w, t.prior).duty != Broken
    ensures Accepts(ConductOf(w, t.prior).duty, t.last)
    ensures Leads(ConductOf(w, t.prior).duty, t.last, ConductOf(w, t).duty)
  {
    hide ConductOf, Respond, Accepts, Leads;
    StillKept(w, t);
    var m := Logged(ConductOf(w, t.prior), t.last);
    StepAccepts(w, t.prior, m, t.last);
    StepLeads(w, t.prior, m, t.last);
  }

  lemma LosingNext(w: World, p: Trace, m: Conduct, o: Obs)
    requires Respond(w, p, m, o).duty != Broken
    ensures m.duty.ToLose? ==> if Late(m.duty.cause) then o.Classified? && o.cause == m.duty.cause else o == StatusStored(Disconnected)
    ensures m.duty.ToClassify? ==> o.Classified? && o.cause == m.duty.cause
    ensures m.duty.ToAskRetry? ==> o.RetryAsked?
    ensures m.duty.ToDraw? ==> o.DelayDrawn?
    ensures m.duty.ToNotify? ==> o.Disconnection? && o.willReconnect == m.duty.promised.Some?
    ensures m.duty.ToWrite? ==> o.Wrote? && o.outbound == m.duty.frame
  {
    hide GreetingStep, SessionObs, ExamineStep, SerializeStep, UpdateStep, RestStep, Pursue, Failed, Go, IntoFrame;
  }

  lemma LossLaw(w: World, t: Trace)
    requires t.Then? && ConductOf(w, t).duty != Broken
    ensures LossBegins(t.prior, t.last)
  {
    hide ConductOf, Respond, CalledFor;
    var p, d := t.prior, ConductOf(w, t.prior).duty;
    StillKept(w, t);
    LastLeads(w, t);
    LosingNext(w, p, Logged(ConductOf(w, p), t.last), t.last);
    LostIffCalledFor(w, p);
    DutyMeans(w, p);
    if Follows(p, StatusStored(Disconnected)) {
      LastLeads(w, p);
      LostIffCalledFor(w, p.prior);
    }
  }

  lemma NoticeLaw(w: World, t: Trace)
    requires t.Then? && t.last.Disconnection? && ConductOf(w, t).duty != Broken
    ensures var d := ConductOf(w, t.prior).duty;
      && d.ToNotify? && t.last.willReconnect == d.promised.Some? && DecidedBefore(t.prior, t.last.cause, d.promised)
  {
    hide ConductOf, Respond, CalledFor, DecidedBefore;
    LastLeads(w, t);
    DutyMeans(w, t.prior);
  }

  lemma RetryLaw(w: World, t: Trace)
    requires t.Then? && ConductOf(w, t).duty != Broken
    ensures RetriedAsDecided(t.prior, t.last)
  {
    hide ConductOf, Respond, CalledFor, DecidedBefore;
    var p := t.prior;
    StillKept(w, t);
    LastLeads(w, t);
    LosingNext(w, p, Logged(ConductOf(w, p), t.last), t.last);
    DutyMeans(w, p);
    if p.Then? { LastLeads(w, p); }
    if t.last.Disconnection? { NoticeLaw(w, t); }
  }

  lemma WriteLaw(w: World, t: Trace)
    requires t.Then? && ConductOf(w, t).duty != Broken
    ensures WrittenAsShown(t.prior, t.last)
  {
    hide ConductOf, Respond, CalledFor, IntoFrame;
    var p := t.prior;
    StillKept(w, t);
    LastLeads(w, t);
    LosingNext(w, p, Logged(ConductOf(w, p), t.last), t.last);
    DutyMeans(w, p);
    if p.Then? { LastLeads(w, p); }
  }

  /** A trace that keeps to the conduct obeys the law. */
  lemma {:induction false} ConductIsCourteous(w: World, t: Trace)
    requires ConductOf(w, t).duty != Broken
    ensures Courteous(w, t)
  {
    hide ConductOf, LossBegins, RetriedAsDecided, WrittenAsShown, Respond;
    if t.Then? {
      StillKept(w, t);
      ConductIsCourteous(w, t.prior);
      LossLaw(w, t);
      RetryLaw(w, t);
      WriteLaw(w, t);
    }
  }

  // ---- Every run ----

  /** The trace of every run of the plain loop obeys the law, and at its end no
      loss is still called for. */
  lemma EveryPlainRunCourteous(w: World, script: seq<Input>)
    ensures var c := Run(w, script); Conducted(w, c) && Courteous(w, c.trace) && CalledFor(c.trace) == None
  {
    hide Run, ConductOf, Courteous, CalledFor;
    EveryPlainRunConducted(w, script);
    var t := Run(w, script).trace;
    ConductIsCourteous(w, t);
    LostIffCalledFor(w, t);
  }

  lemma EveryHealthRunCourteous(w: World, health: Health, created: Instant, script: seq<Input>)
    ensures var c := HealthRun(w, health, created, script).client;
      Conducted(w, c) && Courteous(w, c.trace) && CalledFor(c.trace) == None
  {
    hide HealthRun, ConductOf, Courteous, CalledFor;
    EveryHealthRunConducted(w, health, created, script);
    var t := HealthRun(w, health, created, script).client.trace;
    ConductIsCourteous(w, t);
    LostIffCalledFor(w, t);
  }

  predicate Has(t: Trace, o: Obs) {
    t.Then? && (t.last == o || Has(t.prior, o))
  }

  lemma AnswersWereNo(w: World, t: Trace)
    requires Courteous(w, t) && forall p :: !w.shouldRetry(p)
    ensures !Follows(t, RetryAsked(true))
  {
  }

  /** A strategy that never retries is never drawn from. */
  lemma {:induction false} NoRetryNoDraw(w: World, t: Trace, delay: Delay)
    requires Courteous(w, t) && forall p :: !w.shouldRetry(p)
    ensures !Has(t, DelayDrawn(delay))
  {
    if t.Then? {
      NoRetryNoDraw(w, t.prior, delay);
      AnswersWereNo(w, t.prior);
    }
  }

  // ---- How the loops end, and how a wait ends ----

  lemma RunThen(w: World, script: seq<Input>, input: Input)
    ensures Run(w, script + [input]) == Step(w, Run(w, script), input)
  {
    hide Step;
    assert (script + [input])[..|script|] == script;
  }

  lemma HealthRunThen(w: World, health: Health, created: Instant, script: seq<Input>, input: Input)
    ensures HealthRun(w, health, created, script + [input]) == HealthStep(w, health, HealthRun(w, health, created, script), input)
  {
    hide HealthStep;
    assert (script + [input])[..|script|] == script;
  }

  /** A stopped loop reads no further input. */
  lemma {:induction false} StoppedForGood(w: World, script: seq<Input>, later: seq<Input>)
    requires Run(w, script).phase == Stopped
    ensures Run(w, script + later) == Run(w, script)
  {
    hide DialStep, SessionStep, WaitStep, Run;
    if later == [] {
      assert script + later == script;
    } else {
      var n := |later| - 1;
      StoppedForGood(w, script, later[..n]);
      RunThen(w, script + later[..n], later[n]);
      assert script + later == script + later[..n] + [later[n]];
    }
  }

  lemma {:induction false} HealthStoppedForGood(w: World, health: Health, created: Instant, script: seq<Input>, later: seq<Input>)
    requires HealthRun(w, health, created, script).client.phase == Stopped
    ensures HealthRun(w, health, created, script + later) == HealthRun(w, health, created, script)
  {
    hide HealthDialStep, HealthSessionStep, HealthWaitStep, HealthRun;
    if later == [] {
      assert script + later == script;
    } else {
      var n := |later| - 1;
      HealthStoppedForGood(w, health, created, script, later[..n]);
      HealthRunThen(w, health, created, script + later[..n], later[n]);
      assert script + later == script + later[..n] + [later[n]];
    }
  }

  predicate Listens(phase: Phase) { phase == InSession || phase == Waiting }

  /** A shutdown command or the end of the command channel. */
  predicate Ends(input: Input) {
    input == Received(Some(Shutdown)) || input == Received(None)
  }

  lemma EndingStep(w: World, c: Client, input: Input)
    requires Listens(c.phase) && Ends(input)
    ensures Step(w, c, input).phase == Stopped
  {
    hide Leave, AttemptCommand, Emit;
  }

  /** A shutdown command, or the end of the command channel, ends the plain loop for
      good wherever it listens: in a session and in a wait. */
  lemma ShutdownEndsTheLoop(w: World, script: seq<Input>, input: Input, later: seq<Input>)
    requires Listens(Run(w, script).phase) && Ends(input)
    ensures Run(w, script + [input] + later).phase == Stopped
  {
    hide Step, Run;
    RunThen(w, script, input);
    EndingStep(w, Run(w, script), input);
    StoppedForGood(w, script + [input], later);
  }

  lemma HealthEndingStep(w: World, health: Health, h: Checked, input: Input)
    requires Listens(h.client.phase) && Ends(input)
    ensures HealthStep(w, health, h, input).client.phase == Stopped
  {
    hide Step, HealthStep;
    StepProjects(w, health, h, input);
    EndingStep(w, h.client, input);
  }

  lemma ShutdownEndsTheHealthLoop(w: World, health: Health, created: Instant, script: seq<Input>, input: Input, later: seq<Input>)
    requires Listens(HealthRun(w, health, created, script).client.phase) && Ends(input)
    ensures HealthRun(w, health, created, script + [input] + later).client.phase == Stopped
  {
    hide HealthStep, HealthRun;
    HealthRunThen(w, health, created, script, input);
    HealthEndingStep(w, health, HealthRun(w, health, created, script), input);
    HealthStoppedForGood(w, health, created, script + [input], later);
  }

  /** Where each input takes a wait: any command but a shutdown, and the end of the
      delay, to a new attempt; a shutdown or the channel's end, to the end. */
  function WaitLeadsTo(input: Input): Phase {
    if Ends(input) then Stopped
    else if input == DelayElapsed || input.Received? then Dialing
    else Waiting
  }

  lemma WaitEnds(w: World, script: seq<Input>, input: Input)
    requires Run(w, script).phase == Waiting
    ensures Run(w, script + [input]).phase == WaitLeadsTo(input)
  {
    hide Run;
    RunThen(w, script, input);
    WaitingStep(w, Run(w, script), input);
    hide Step;
  }

  lemma WaitingStep(w: World, c: Client, input: Input)
    requires c.phase == Waiting
    ensures Step(w, c, input).phase == WaitLeadsTo(input)
  {
    hide Emit;
  }

  lemma HealthWaitEnds(w: World, health: Health, created: Instant, script: seq<Input>, input: Input)
    requires HealthRun(w, health, created, script).client.phase == Waiting
    ensures HealthRun(w, health, created, script + [input]).client.phase == WaitLeadsTo(input)
  {
    hide HealthRun, HealthStep, Step;
    var h := HealthRun(w, health, created, script);
    HealthRunThen(w, health, created, script, input);
    StepProjects(w, health, h, input);
    WaitingStep(w, h.client, input);
  }
}
