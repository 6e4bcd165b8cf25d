/** The invariant of the managed client loops and what one step does to it. */
module ClientInvariant {
  import opened Prelude
  import opened Wire
  import opened ClientTrace
  import opened Ping
  import opened ClientLoop

  // ---- What the writing helpers do to the monitors ----

  lemma SerializingKeeps(t: Trace, item: Subscription, payload: Bytes)
    ensures var t1 := Emit(t, SubscriptionSerialized(item, payload));
            OnlyGate(t, t1) && (GateOf(t) == Ready ==> GateOf(t1) == Ready)
  {
    hide Emit, Life, GateOf, LedgerOf, DrawsOf;
  }

  lemma CommandFrameKeepsReady(w: World, t: Trace, frame: Frame)
    requires GateOf(t) == Ready
    ensures GateOf(SendFrame(w, t, ForCommand, frame).trace) == Ready
  {
    hide Emit, Life, GateOf, LedgerOf, DrawsOf, SendFrame;
  }

  lemma {:induction false} SendAllKeeps(w: World, t: Trace, purpose: Purpose, items: seq<Subscription>)
    ensures var r := SendAll(w, t, purpose, items);
            OnlyGate(t, r.trace) && (purpose == ForCommand && GateOf(t) == Ready ==> GateOf(r.trace) == Ready)
    decreases |items|
  {
    hide Emit, LifecycleStep, GateStep, LedgerStep, DrawsStep, Life, GateOf, LedgerOf, DrawsOf, SendFrame, IntoFrame;
    if items != [] {
      var payload := w.serialize(t, items[0]);
      var t1 := Emit(t, SubscriptionSerialized(items[0], payload));
      SerializingKeeps(t, items[0], payload);
      if purpose == ForCommand && GateOf(t1) == Ready { CommandFrameKeepsReady(w, t1, IntoFrame(payload)); }
      var first := SendFrame(w, t1, purpose, IntoFrame(payload));
      if first.error.None? {
        SendAllKeeps(w, first.trace, purpose, items[1..]);
      }
    }
  }

  lemma {:induction false} SendAllReplays(w: World, t: Trace, items: seq<Subscription>)
    requires items != [] && GateOf(t) == Replaying(items, None)
    ensures var r := SendAll(w, t, ForReplay, items);
            if r.error.None? then GateOf(r.trace) == Ready else GateOf(r.trace).Replaying?
    decreases |items|
  {
    hide Emit, Life, GateOf, LedgerOf, DrawsOf, SendFrame, IntoFrame;
    var payload := w.serialize(t, items[0]);
    var t1 := Emit(t, SubscriptionSerialized(items[0], payload));
    var first := SendFrame(w, t1, ForReplay, IntoFrame(payload));
    if first.error.None? {
      if |items| == 1 {
        SendNothing(w, first.trace);
      } else {
        SendAllReplays(w, first.trace, items[1..]);
      }
    }
  }

  lemma ReplayEffect(w: World, t: Trace)
    ensures var r := ReplaySubscriptions(w, t);
            && OnlyGate(t, r.trace)
            && (GateOf(t) == Unlocked ==>
                  if r.error.None? then GateOf(r.trace) == Ready else GateOf(r.trace).Replaying?)
  {
    hide Emit, Life, GateOf, LedgerOf, DrawsOf, SendAll;
    var items := w.initial(t);
    var t1 := Emit(t, SubscriptionsListed(items));
    SendAllKeeps(w, t1, ForReplay, items);
    if items == [] {
      SendNothing(w, t1);
    } else if GateOf(t) == Unlocked {
      SendAllReplays(w, t1, items);
    }
  }

  lemma SendNothing(w: World, t: Trace)
    ensures SendAll(w, t, ForReplay, []) == Sent(t, None)
  {
  }

  lemma AttemptEffect(w: World, t: Trace, c: Command)
    ensures var r := AttemptCommand(w, t, c);
            && Life(r.trace) == Life(t) && DrawsOf(r.trace) == DrawsOf(t)
            && (GateOf(t) == Ready ==> GateOf(r.trace) == Ready)
            && LedgerOf(r.trace) == LedgerStep(LedgerOf(t), Attempted(c, r.error))
  {
    hide Emit, Life, GateOf, LedgerOf, DrawsOf, SendAll, SendFrame, IntoFrame;
    if c.UpdateSubscriptions? {
      var result := w.update(t, c.action);
      if result.Accepted? {
        SendAllKeeps(w, Emit(t, SubscriptionsUpdated(c.action, result)), ForCommand, result.items);
      }
    }
  }

  // ---- The invariant of a loop head ----

  /** Nothing is discarded but by a wait, at most one command by each, and a
      failed attempt is the last of its session. */
  predicate LedgerSound(l: Ledger) {
    && !l.astray && (forall i :: 0 <= i < |l.waits| ==> l.waits[i] <= 1)
    && (forall i :: 0 <= i < |l.attempts| ==> l.attempts[i].session <= l.session)
    && (forall i, j :: 0 <= i < j < |l.attempts| && l.attempts[i].session == l.attempts[j].session ==>
                         l.attempts[i].ok)
  }

  /** A wait is under way and has consumed nothing. */
  predicate Patient(l: Ledger) {
    l.waiting && l.waits != [] && l.waits[|l.waits| - 1] == 0
  }

  /** No attempt of the current session has failed yet. */
  predicate NoneFailed(l: Ledger) {
    forall i :: 0 <= i < |l.attempts| && l.attempts[i].session == l.session ==> l.attempts[i].ok
  }

  /** Each delay is the strategy's answer after `k` draws since its last reset. */
  ghost predicate Drew(w: World, d: Draws) {
    forall i :: 0 <= i < |d.log| ==>
                  exists t :: DrawsOf(t).sinceReset == d.log[i].k && w.nextDelay(t) == d.log[i].delay
  }

  ghost predicate Counted(w: World, c: Client) {
    LedgerSound(LedgerOf(c.trace)) && Drew(w, DrawsOf(c.trace)) && DrawsOf(c.trace).sinceConnect == DrawsOf(c.trace).sinceReset
  }

  ghost predicate Sound(w: World, c: Client) {
    var life, gate, ledger := Life(c.trace), GateOf(c.trace), LedgerOf(c.trace);
    && Counted(w, c)
    && match c.phase
       case Dialing =>
         life.stage == Idle && c.isReconnect == (life.tries > 0) && c.status == Connecting && gate == NoSession
       case InSession =>
         && life.stage == InConnection && life.tries > 0 && c.status == Connected
         && gate == (if c.authenticated then Ready else Locked) && NoneFailed(ledger)
       case Waiting =>
         life.stage == Idle && life.tries > 0 && c.status == Disconnected && gate == NoSession && Patient(ledger)
       case Stopped =>
         life.stage != Malformed && c.status == Disconnected && gate != Breached
  }

  /** What must hold where a connection is given up. */
  ghost predicate Leavable(w: World, c: Client) {
    && Counted(w, c)
    && (Life(c.trace).stage == Idle || Life(c.trace).stage == InConnection) && Life(c.trace).tries > 0
    && GateOf(c.trace) != Breached
  }

  /** Pong timeouts declared so far. */
  function Alarms(c: Client): nat {
    Life(c.trace).alarms
  }

  /** No control command was taken and none was consumed by a wait in between. */
  predicate SameAside(c: Client, d: Client) {
    && LedgerOf(c.trace).control == LedgerOf(d.trace).control
    && LedgerOf(c.trace).discarded == LedgerOf(d.trace).discarded
  }

  /** The command bookkeeping of the two clients is the same. */
  predicate SameWork(c: Client, d: Client) {
    && SameAside(c, d)
    && LedgerOf(c.trace).taken == LedgerOf(d.trace).taken
    && LedgerOf(c.trace).attempts == LedgerOf(d.trace).attempts
    && c.pending == d.pending
  }

  lemma ChooseEffect(w: World, t: Trace, action: DisconnectAction)
    requires Drew(w, DrawsOf(t)) && DrawsOf(t).sinceConnect == DrawsOf(t).sinceReset
    ensures var d := DrawsOf(ReconnectDelay(w, t, action).trace); Drew(w, d) && d.sinceConnect == d.sinceReset
  {
    hide Emit, Life, GateOf, LedgerOf, DrawsOf;
  }

  lemma DepartEffect(w: World, c: Client, cause: Cause, statusFirst: bool)
    requires Leavable(w, c)
    ensures var gone := Depart(w, c, cause, statusFirst);
            && Counted(w, gone.client) && LedgerOf(gone.client.trace) == LedgerOf(c.trace)
            && GateOf(gone.client.trace) == NoSession
            && Life(gone.client.trace) ==
               Lifecycle(if gone.delay.Some? then Idle else Ended, Life(c.trace).tries,
                         Alarms(c) + (if cause == PongTimeout then 1 else 0))
            && gone.client.(trace := c.trace) == c.(status := Disconnected)
  {
    hide Emit, Life, GateOf, LedgerOf, DrawsOf, ReconnectDelay, Drew, LedgerSound, NotifyDisconnect;
    var before := if statusFirst then StoreStatus(c, Disconnected) else c;
    var action := w.classify(before.trace, cause);
    ChooseEffect(w, Emit(before.trace, Classified(cause, action)), action);
  }

  lemma LeaveSound(w: World, c: Client, cause: Cause, statusFirst: bool)
    requires Leavable(w, c)
    ensures Sound(w, Leave(w, c, cause, statusFirst))
    ensures SameWork(Leave(w, c, cause, statusFirst), c)
    ensures Leave(w, c, cause, statusFirst).phase != InSession
    ensures Alarms(Leave(w, c, cause, statusFirst)) == Alarms(c) + (if cause == PongTimeout then 1 else 0)
  {
    hide Emit, Life, GateOf, LedgerOf, DrawsOf, Depart, BeginWait;
    DepartEffect(w, c, cause, statusFirst);
    var gone := Depart(w, c, cause, statusFirst);
    if gone.delay.Some? {
      BeginWaitSound(w, gone.client, gone.delay.value);
    }
  }

  lemma BeginWaitSound(w: World, c: Client, delay: Delay)
    requires Counted(w, c) && GateOf(c.trace) == NoSession && c.status == Disconnected
    requires Life(c.trace).stage == Idle && Life(c.trace).tries > 0
    ensures Sound(w, BeginWait(c, delay)) && SameWork(BeginWait(c, delay), c)
    ensures BeginWait(c, delay).phase != InSession && Alarms(BeginWait(c, delay)) == Alarms(c)
  {
    hide Emit, Life, GateOf, LedgerOf, DrawsOf;
  }

  lemma StopSound(w: World, c: Client)
    requires Counted(w, c) && Life(c.trace).stage != Malformed && GateOf(c.trace) != Breached
    ensures Sound(w, Stop(c)) && SameWork(Stop(c), c) && Stop(c).phase == Stopped && Alarms(Stop(c)) == Alarms(c)
  {
    hide Emit, Life, GateOf, LedgerOf, DrawsOf;
  }

  /** The command an input hands over, if any. */
  function Given(input: Input): seq<Command> {
    if input.Received? && input.command.Some? then [input.command.value] else []
  }

  lemma ResumeSound(w: World, c: Client)
    requires Counted(w, c) && GateOf(c.trace) == NoSession && Life(c.trace).stage == Idle && Life(c.trace).tries > 0
    ensures Sound(w, Resume(c)) && SameWork(Resume(c), c) && Resume(c).phase == Dialing && Alarms(Resume(c)) == Alarms(c)
  {
    hide Emit, Life, GateOf, LedgerOf, DrawsOf;
  }

  /** A command taken out of the channel by a wait only joins the discarded ones. */
  lemma DiscardSound(w: World, c: Client, command: Command)
    requires Sound(w, c) && c.phase == Waiting
    ensures var c1 := c.(trace := Emit(c.trace, Discarded(command)));
            && Counted(w, c1) && Life(c1.trace) == Life(c.trace) && GateOf(c1.trace) == GateOf(c.trace)
            && LedgerOf(c1.trace) ==
               LedgerOf(c.trace).(discarded := LedgerOf(c.trace).discarded + [command], waits := LedgerOf(c1.trace).waits)
  {
    hide Emit, Life, GateOf, LedgerOf, DrawsOf, Drew;
  }

  lemma WaitStepSound(w: World, c: Client, input: Input)
    requires Sound(w, c) && c.phase == Waiting
    ensures var r := WaitStep(c, input);
            && Sound(w, r) && r.phase != InSession && r.pending == c.pending && Alarms(r) == Alarms(c)
            && LedgerOf(r.trace).taken == LedgerOf(c.trace).taken
            && LedgerOf(r.trace).attempts == LedgerOf(c.trace).attempts
            && LedgerOf(r.trace).control == LedgerOf(c.trace).control
            && LedgerOf(r.trace).discarded == LedgerOf(c.trace).discarded + Given(input)
            && (Given(input) != [] ==> r.phase != Waiting)
  {
    hide Emit, Life, GateOf, LedgerOf, DrawsOf, Resume, Drew;
    match input
    case DelayElapsed => ResumeSound(w, c.(trace := Emit(c.trace, WaitElapsed)));
    case Received(Some(command)) =>
      DiscardSound(w, c, command);
      var c1 := c.(trace := Emit(c.trace, Discarded(command)));
      if command != Shutdown { ResumeSound(w, c1); }
    case _ =>
  }

  /** A connection has just been made. */
  ghost predicate JustConnected(w: World, c: Client) {
    && LedgerSound(LedgerOf(c.trace)) && Drew(w, DrawsOf(c.trace)) && DrawsOf(c.trace).sinceConnect == 0
    && Life(c.trace).stage == Idle && Life(c.trace).tries > 0 && c.isReconnect == (Life(c.trace).tries > 1)
    && GateOf(c.trace) == NoSession
  }

  lemma GreetEffect(w: World, c: Client)
    requires JustConnected(w, c)
    ensures var t := Greet(w, c).trace;
            && GateOf(t) == Fresh && Life(t) == Life(c.trace).(stage := InConnection)
            && LedgerOf(t) == LedgerOf(c.trace).(session := LedgerOf(c.trace).session + 1)
            && DrawsOf(t) == Draws(0, 0, DrawsOf(c.trace).log)
  {
    hide Emit, Life, GateOf, LedgerOf, DrawsOf;
    var t1 := Emit(c.trace, StrategyReset);
    var t2 := Emit(t1, StatusStored(Connected));
    var t3 := Emit(t2, StateReset);
    var t4 := Emit(t3, OpenHook);
    assert DrawsOf(t4) == Draws(0, 0, DrawsOf(c.trace).log);
    assert GateOf(t4) == NoSession && Life(t4) == Life(c.trace) && LedgerOf(t4) == LedgerOf(c.trace);
    var notice := w.connectionOpened(t4, c.isReconnect);
    var t5 := Emit(t4, Opened(c.isReconnect, notice));
    var t6 := Deliver(w, t5, notice);
    var auth := w.auth(t6);
    var t7 := Emit(t6, AuthGenerated(auth));
    assert GateOf(t7) == Fresh && OnlyGate(t5, t7);
  }

  /** The mode has been read: wait for authentication, or replay at once. */
  lemma OpenInMode(w: World, c: Client, t: Trace)
    requires Counted(w, c) && NoneFailed(LedgerOf(c.trace)) && GateOf(t) == Unlocked && OnlyGate(c.trace, t)
    requires Life(c.trace).stage == InConnection && Life(c.trace).tries > 0 && c.status == Connected
    ensures var replayed := ReplaySubscriptions(w, t);
            var c2 := c.(authenticated := true, trace := replayed.trace);
            && SameWork(c2, c) && Alarms(c2) == Alarms(c)
            && if replayed.error.Some? then Leavable(w, c2) else Sound(w, c2.(phase := InSession))
  {
    hide Emit, Life, GateOf, LedgerOf, DrawsOf, ReplaySubscriptions;
    ReplayEffect(w, t);
  }

  lemma OpenSound(w: World, c: Client)
    requires JustConnected(w, c)
    ensures Sound(w, Open(w, c)) && SameWork(Open(w, c), c) && Alarms(Open(w, c)) == Alarms(c)
    ensures Open(w, c).phase == InSession ==>
              exists t :: Open(w, c).authenticated == (w.mode(t) == Public)
  {
    hide Emit, Life, GateOf, LedgerOf, DrawsOf;
    hide Greet, ReplaySubscriptions, Leave;
    GreetEffect(w, c);
    var greeted := Greet(w, c);
    var c1 := c.(status := Connected, trace := greeted.trace);
    assert NoneFailed(LedgerOf(c1.trace)) && SameWork(c1, c);
    if greeted.error.Some? {
      LeaveSound(w, c1, InternalError(AuthSendContext, greeted.error.value), false);
    } else {
      var mode := w.mode(greeted.trace);
      var t := Emit(greeted.trace, ModeRead(mode));
      if mode == Public {
        OpenInMode(w, c1, t);
        var replayed := ReplaySubscriptions(w, t);
        if replayed.error.Some? {
          LeaveSound(w, c1.(authenticated := true, trace := replayed.trace),
                     InternalError(ReplayContext, replayed.error.value), false);
        }
      }
    }
  }

  // ---- Commands in line: attempted ones first, then the queue ----

  function Commands(attempts: seq<Attempt>): (r: seq<Command>)
    ensures |r| == |attempts|
  {
    if attempts == [] then []
    else Commands(attempts[..|attempts| - 1]) + [attempts[|attempts| - 1].command]
  }

  function Line(c: Client): seq<Command> {
    Commands(LedgerOf(c.trace).attempts) + c.pending
  }

  predicate SameLine(c: Client, d: Client) {
    SameAside(c, d) && LedgerOf(c.trace).taken == LedgerOf(d.trace).taken && Line(c) == Line(d)
  }

  lemma AttemptLogged(l: Ledger, c: Command, error: Option<string>)
    requires LedgerSound(l) && NoneFailed(l)
    ensures var l1 := LedgerStep(l, Attempted(c, error));
            && LedgerSound(l1) && (error.None? ==> NoneFailed(l1))
            && Commands(l1.attempts) == Commands(l.attempts) + [c]
  {
    var l1 := LedgerStep(l, Attempted(c, error));
    assert l1.attempts[..|l.attempts|] == l.attempts;
  }

  /** Draining only moves commands from the queue to the attempts. */
  lemma {:induction false} DrainEffect(w: World, t: Trace, queue: seq<Command>)
    requires LedgerSound(LedgerOf(t)) && NoneFailed(LedgerOf(t))
    ensures var r := ApplyPending(w, t, queue);
            && Commands(LedgerOf(r.trace).attempts) + r.left == Commands(LedgerOf(t).attempts) + queue
            && LedgerOf(r.trace).taken == LedgerOf(t).taken && LedgerOf(r.trace).control == LedgerOf(t).control
            && LedgerOf(r.trace).discarded == LedgerOf(t).discarded && LedgerSound(LedgerOf(r.trace))
            && Life(r.trace) == Life(t) && DrawsOf(r.trace) == DrawsOf(t)
            && (GateOf(t) == Ready ==> GateOf(r.trace) == Ready)
            && (r.error.None? ==> r.left == [] && NoneFailed(LedgerOf(r.trace)))
            && (queue == [] ==> r.left == [])
    decreases |queue|
  {
    hide Emit, Life, GateOf, LedgerOf, DrawsOf, AttemptCommand, LedgerSound, NoneFailed, Commands;
    if queue != [] {
      var first := AttemptCommand(w, t, queue[0]);
      AttemptEffect(w, t, queue[0]);
      AttemptLogged(LedgerOf(t), queue[0], first.error);
      if first.error.None? {
        DrainEffect(w, first.trace, queue[1..]);
      }
      assert [queue[0]] + queue[1..] == queue;
      assert Commands(LedgerOf(first.trace).attempts) + queue[1..] == Commands(LedgerOf(t).attempts) + queue;
    }
  }

  /** A session that may go on, at its loop head or inside an iteration. */
  ghost predicate Live(w: World, c: Client) {
    Sound(w, c) && c.phase == InSession
  }

  lemma UnlockSound(w: World, c: Client)
    requires c.phase == InSession && Counted(w, c) && NoneFailed(LedgerOf(c.trace)) && GateOf(c.trace) == Unlocked
    requires Life(c.trace).stage == InConnection && Life(c.trace).tries > 0 && c.status == Connected
    ensures Sound(w, Unlock(w, c)) && SameLine(Unlock(w, c), c) && Alarms(Unlock(w, c)) == Alarms(c)
    ensures c.pending == [] ==> Unlock(w, c).pending == []
    ensures Unlock(w, c).phase == InSession ==> Unlock(w, c).authenticated && Unlock(w, c).pending == []
  {
    hide Emit, Life, GateOf, LedgerOf, DrawsOf, ReplaySubscriptions, ApplyPending, Leave;
    var replayed := ReplaySubscriptions(w, c.trace);
    ReplayEffect(w, c.trace);
    var c1 := c.(authenticated := true, trace := replayed.trace);
    if replayed.error.Some? {
      LeaveSound(w, c1, InternalError(ReplayAfterAuthContext, replayed.error.value), true);
    } else {
      DrainEffect(w, c1.trace, c1.pending);
      var drained := ApplyPending(w, c1.trace, c1.pending);
      var c2 := c1.(trace := drained.trace, pending := drained.left);
      assert SameLine(c2, c);
      if drained.error.Some? {
        LeaveSound(w, c2, InternalError(PendingCommandContext, drained.error.value), true);
      }
    }
  }

  lemma OnActionSound(w: World, c: Client, action: MessageAction)
    requires action != SessionAuthenticated && Live(w, c)
    ensures Sound(w, OnAction(w, c, action)) && SameLine(OnAction(w, c, action), c)
    ensures OnAction(w, c, action).pending == c.pending && Alarms(OnAction(w, c, action)) == Alarms(c)
    ensures OnAction(w, c, action).phase == InSession ==> OnAction(w, c, action).authenticated == c.authenticated
  {
    hide Emit, Life, GateOf, LedgerOf, DrawsOf, SendFrame, Leave, Stop, Commands;
    match action
    case Continue =>
    case Reply(payload) =>
      var sent := SendFrame(w, c.trace, ForReply, IntoFrame(payload));
      if sent.error.Some? {
        LeaveSound(w, c.(trace := sent.trace), InternalError(MessageSendContext, sent.error.value), true);
      }
    case Process(message) =>
      var error := w.handle(c.trace, message);
      if error.Some? {
        LeaveSound(w, c.(trace := Emit(c.trace, MessageHandled(message, error))),
                   InternalError(HandleMessageContext, error.value), true);
      }
    case RequestReconnect(reason) => LeaveSound(w, c, EndpointRequested(reason), true);
    case RequestShutdown => StopSound(w, c);
  }

  lemma OnOutcomeSound(w: World, c: Client, frame: Frame)
    requires Live(w, c)
    ensures Sound(w, OnOutcome(w, c, frame)) && SameLine(OnOutcome(w, c, frame), c) && Alarms(OnOutcome(w, c, frame)) == Alarms(c)
    ensures var r := OnOutcome(w, c, frame);
            && (c.pending == [] ==> r.pending == [])
            && (r.phase == InSession ==>
                  (r.authenticated == c.authenticated && r.pending == c.pending) || (r.authenticated && r.pending == []))
  {
    hide Emit, Life, GateOf, LedgerOf, DrawsOf, OnAction, Unlock, Leave, Commands;
    var outcome := w.parse(c.trace, frame);
    var c1 := c.(trace := Emit(c.trace, FrameParsed(frame, outcome)));
    match outcome
    case Parsed(action) =>
      if action == SessionAuthenticated {
        UnlockSound(w, c1);
        assert OnAction(w, c1, action) == Unlock(w, c1) by { UnlockIsAction(w, c1); }
      } else {
        OnActionSound(w, c1, action);
      }
    case ServerReported(code, message) =>
      var action := w.serverError(c1.trace, code, message);
      var c2 := c1.(trace := Emit(c1.trace, ServerErrorHandled(action)));
      if action != ContinueAfterError {
        LeaveSound(w, c2, ServerError(code, message), true);
      }
    case Unparsable(_) =>
  }

  lemma UnlockIsAction(w: World, c: Client)
    ensures OnAction(w, c, SessionAuthenticated) == Unlock(w, c)
  {
  }

  /** What the input makes the session loop take: a command it must attempt or queue. */
  function Work(c: Client, input: Input): Option<Command> {
    if c.phase == InSession && input.Received? && input.command.Some? && RequiresAuth(input.command.value)
    then input.command else None
  }

  /** What one input does to the commands: one taken by a session joins the end
      of the line, or the end of the attempts when the session is authenticated. */
  predicate Advanced(c: Client, input: Input, r: Client) {
    var before, after := LedgerOf(c.trace), LedgerOf(r.trace);
    && after.control == before.control + (if c.phase == InSession && Work(c, input).None? then Given(input) else [])
    && after.discarded == before.discarded + (if c.phase == Waiting then Given(input) else [])
    && match Work(c, input)
       case None => after.taken == before.taken && Line(r) == Line(c)
       case Some(x) =>
         && after.taken == before.taken + [x]
         && Line(r) == if c.authenticated then Commands(before.attempts) + [x] + c.pending else Line(c) + [x]
  }

  lemma TakeEffect(l: Ledger, c: Command)
    requires LedgerSound(l) && NoneFailed(l)
    ensures var l1 := LedgerStep(l, Took(c)); LedgerSound(l1) && NoneFailed(l1)
  {
  }

  /** A command that needs authentication is queued, or attempted. */
  lemma WorkSound(w: World, c: Client, work: Command)
    requires Live(w, c) && RequiresAuth(work)
    ensures var r := OnCommand(w, c, Some(work));
            && Sound(w, r) && Advanced(c, Received(Some(work)), r) && Alarms(r) == Alarms(c)
            && (r.phase == InSession ==> r.authenticated == c.authenticated)
            && (c.authenticated ==> r.pending == c.pending)
  {
    hide Emit, Life, GateOf, LedgerOf, DrawsOf, AttemptCommand, Leave, LedgerSound, NoneFailed, Commands, Drew;
    var c1 := c.(trace := Emit(c.trace, Took(work)));
    TakeEffect(LedgerOf(c.trace), work);
    if c1.authenticated {
      var done := AttemptCommand(w, c1.trace, work);
      AttemptEffect(w, c1.trace, work);
      AttemptLogged(LedgerOf(c1.trace), work, done.error);
      if done.error.Some? {
        LeaveSound(w, c1.(trace := done.trace), InternalError(CommandContext, done.error.value), true);
      }
    } else {
      assert Commands(LedgerOf(c.trace).attempts) + (c.pending + [work]) == Line(c) + [work];
    }
  }

  lemma ControlSound(w: World, c: Client, command: Option<Command>)
    requires Live(w, c) && (command.Some? ==> !RequiresAuth(command.value))
    ensures var r := OnCommand(w, c, command);
            && Sound(w, r) && Advanced(c, Received(command), r) && Alarms(r) == Alarms(c)
            && r.phase != InSession && r.pending == c.pending
  {
    hide Emit, Life, GateOf, LedgerOf, DrawsOf, AttemptCommand, Leave, Stop, LedgerSound, NoneFailed, Commands, Drew;
    if command.None? {
      StopSound(w, c.(trace := Emit(c.trace, ChannelClosed)));
    } else {
      var c1 := c.(trace := Emit(c.trace, Took(command.value)));
      TakeEffect(LedgerOf(c.trace), command.value);
      match command.value
      case Shutdown => StopSound(w, c1);
      case ForceReconnect(reason) => LeaveSound(w, c1, EndpointRequested(reason), true);
    }
  }

  lemma OnCommandSound(w: World, c: Client, command: Option<Command>)
    requires Live(w, c)
    ensures var r := OnCommand(w, c, command);
            && Sound(w, r) && Advanced(c, Received(command), r) && Alarms(r) == Alarms(c)
            && (r.phase == InSession ==> r.authenticated == c.authenticated)
            && (c.authenticated ==> r.pending == c.pending)
  {
    hide OnCommand, Sound, Advanced;
    if command.Some? && RequiresAuth(command.value) {
      WorkSound(w, c, command.value);
    } else {
      ControlSound(w, c, command);
    }
  }

  // ---- One step of either loop ----

  ghost predicate Advances(w: World, c: Client, input: Input, r: Client) {
    Sound(w, r) && Advanced(c, input, r)
  }

  /** With one session mode for the whole run, a session that may write has an empty queue. */
  predicate QueueSettled(mode: SessionMode, c: Client) {
    && (c.phase == InSession && c.authenticated ==> c.pending == [])
    && (mode == Public ==> c.pending == [] && (c.phase == InSession ==> c.authenticated))
  }

  ghost predicate FixedMode(w: World, mode: SessionMode) {
    forall t :: w.mode(t) == mode
  }

  ghost predicate KeepsSettled(w: World, c: Client, r: Client) {
    forall mode | FixedMode(w, mode) && QueueSettled(mode, c) :: QueueSettled(mode, r)
  }

  lemma DialStepSound(w: World, c: Client, input: Input)
    requires Sound(w, c) && c.phase == Dialing
    ensures Advances(w, c, input, DialStep(w, c, input)) && KeepsSettled(w, c, DialStep(w, c, input))
    ensures Alarms(DialStep(w, c, input)) == Alarms(c)
  {
    hide Emit, Life, GateOf, LedgerOf, DrawsOf, Open, Leave, Commands;
    match input
    case ConnectOk(_) => OpenSound(w, c.(trace := Emit(c.trace, ConnectTried(None))));
    case ConnectFailed(error) =>
      LeaveSound(w, c.(trace := Emit(c.trace, ConnectTried(Some(error)))), InternalError(ConnectContext, error), true);
    case _ =>
  }

  /** Events the monitors do not mind. */
  lemma NotedSound(w: World, c: Client, o: Obs)
    requires Live(w, c)
    requires o.InboundHook? || o.ReadFailed? || o.StreamEnded? || o.HeartbeatMade? || o.PongDue? || o.PongHeard? || o.PongInvalid? || o.PongOverdue? || o.DataStale?
    ensures var c1 := c.(trace := Emit(c.trace, o));
            Live(w, c1) && SameWork(c1, c) && Alarms(c1) == Alarms(c)
  {
    hide Emit, Life, GateOf, LedgerOf, DrawsOf, Drew;
  }

  lemma SessionStepSound(w: World, c: Client, input: Input)
    requires Live(w, c)
    ensures Advances(w, c, input, SessionStep(w, c, input)) && KeepsSettled(w, c, SessionStep(w, c, input))
    ensures Alarms(SessionStep(w, c, input)) == Alarms(c)
  {
    hide Emit, LifecycleStep, GateStep, LedgerStep, DrawsStep, Life, LedgerOf, OnCommand, OnOutcome, Leave, Commands, Sound;
    match input
    case Received(command) => OnCommandSound(w, c, command);
    case Inbound(frame, _) =>
      NotedSound(w, c, InboundHook(frame));
      OnOutcomeSound(w, c.(trace := Emit(c.trace, InboundHook(frame))), frame);
    case ReadError(error) => LossSound(w, c, ReadFailed(error), ReadFailure(error));
    case EndOfStream => LossSound(w, c, StreamEnded, RemoteClosed);
    case _ =>
  }

  lemma LossSound(w: World, c: Client, o: Obs, cause: Cause)
    requires Live(w, c) && (o.ReadFailed? || o.StreamEnded?) && cause != PongTimeout
    ensures var r := Leave(w, c.(trace := Emit(c.trace, o)), cause, true);
            Sound(w, r) && SameWork(r, c) && r.phase != InSession && Alarms(r) == Alarms(c)
  {
    hide Emit, LifecycleStep, GateStep, LedgerStep, DrawsStep, Life, GateOf, LedgerOf, DrawsOf, Leave, LedgerSound, NoneFailed, Drew;
    NotedSound(w, c, o);
    LeaveSound(w, c.(trace := Emit(c.trace, o)), cause, true);
  }

  lemma StepSound(w: World, c: Client, input: Input)
    requires Sound(w, c)
    ensures Advances(w, c, input, Step(w, c, input)) && KeepsSettled(w, c, Step(w, c, input))
    ensures Alarms(Step(w, c, input)) == Alarms(c)
  {
    hide DialStep, SessionStep, WaitStep, Commands;
    match c.phase
    case Dialing => DialStepSound(w, c, input);
    case InSession => SessionStepSound(w, c, input);
    case Waiting => WaitStepSound(w, c, input);
    case Stopped =>
  }

  // ---- The health-checked loop is the plain loop plus heartbeats ----

  lemma OpenProjects(w: World, h: Checked, at: Instant)
    ensures HealthOpen(w, h, at).client == Open(w, h.client)
  {
    hide Greet, ReplaySubscriptions, Leave, Emit;
  }

  lemma OnCommandProjects(w: World, h: Checked, command: Option<Command>)
    ensures HealthOnCommand(w, h, command).client == OnCommand(w, h.client, command)
  {
    hide AttemptCommand, Leave, Stop, Emit;
  }

  lemma OnOutcomeProjects(w: World, h: Checked, frame: Frame)
    ensures HealthOnOutcome(w, h, frame).client == OnOutcome(w, h.client, frame)
  {
    hide SendFrame, ReplaySubscriptions, ApplyPending, Leave, Stop, Emit;
  }

  /** The steps in which no heartbeat is involved. */
  predicate Plain(health: Health, h: Checked, input: Input) {
    h.client.phase == InSession ==>
      match input
      case PingTick(checkAt, pingAt) =>
        && !health.strategy.stale(h.pings, checkAt) && !MonitorStale(health.staleThreshold, h.counters, checkAt)
        && health.strategy.create(h.pings, pingAt) == None
      case Inbound(frame, at) => health.strategy.examine(h.pings, frame, at) == NotPong
      case _ => true
  }

  /** In such a step the two loops do the same. */
  lemma StepProjects(w: World, health: Health, h: Checked, input: Input)
    requires Plain(health, h, input)
    ensures HealthStep(w, health, h, input).client == Step(w, h.client, input)
  {
    hide HealthOpen, Open, HealthOnCommand, OnCommand, HealthOnOutcome, OnOutcome, Leave, Emit, WaitStep;
    match h.client.phase
    case Dialing =>
      if input.ConnectOk? {
        OpenProjects(w, Note(h, Emit(h.client.trace, ConnectTried(None))), input.at);
      }
    case InSession =>
      if input.Received? {
        OnCommandProjects(w, h, input.command);
      } else if input.Inbound? {
        OnOutcomeProjects(w, Note(h, Emit(h.client.trace, InboundHook(input.frame)))
                             .(counters := CountMessage(h.counters, input.at),
                               pings := h.pings + [FrameExamined(input.frame, input.at, NotPong)]), input.frame);
      }
    case _ =>
  }

  lemma BreakSound(w: World, h: Checked, cause: Cause)
    requires Live(w, h.client)
    ensures var r := HealthBreak(w, h, cause).client;
            && Sound(w, r) && SameWork(r, h.client) && r.phase != InSession
            && Alarms(r) == Alarms(h.client) + (if cause == PongTimeout then 1 else 0)
  {
    hide Emit, Life, GateOf, LedgerOf, DrawsOf, Leave, Commands, LedgerSound, NoneFailed, Drew;
    LeaveSound(w, h.client, cause, true);
  }

  lemma TickSound(w: World, health: Health, h: Checked, checkAt: Instant, pingAt: Instant)
    requires Live(w, h.client)
    ensures var r := HealthOnTick(w, health, h, checkAt, pingAt).client;
            && Advances(w, h.client, PingTick(checkAt, pingAt), r) && KeepsSettled(w, h.client, r)
            && Alarms(r) == Alarms(h.client) + (if health.strategy.stale(h.pings, checkAt) then 1 else 0)
  {
    hide Emit, LifecycleStep, GateStep, LedgerStep, DrawsStep, Life, LedgerOf, SendFrame, HealthBreak, Commands, Sound;
    if health.strategy.stale(h.pings, checkAt) {
      NotedSound(w, h.client, PongOverdue);
      BreakSound(w, Note(h, Emit(h.client.trace, PongOverdue)), PongTimeout);
    } else if MonitorStale(health.staleThreshold, h.counters, checkAt) {
      NotedSound(w, h.client, DataStale);
      BreakSound(w, Note(h, Emit(h.client.trace, DataStale)), StaleData);
    } else {
      var made := health.strategy.create(h.pings, pingAt);
      if made.Some? {
        NotedSound(w, h.client, HeartbeatMade(made.value));
        HeartbeatSound(w, Note(h.(pings := h.pings + [PingCreated(pingAt, made)]), Emit(h.client.trace, HeartbeatMade(made.value))),
                       made.value, PingSendContext);
      }
    }
  }

  /** A heartbeat frame is written, or ends the session. */
  lemma HeartbeatSound(w: World, h: Checked, frame: Frame, context: Context)
    requires Live(w, h.client)
    ensures var sent := SendFrame(w, h.client.trace, ForHeartbeat, frame);
            var h1 := Note(h, sent.trace);
            && Live(w, h1.client) && SameWork(h1.client, h.client) && Alarms(h1.client) == Alarms(h.client)
            && (sent.error.Some? ==>
                  var r := HealthBreak(w, h1, InternalError(context, sent.error.value)).client;
                  Sound(w, r) && SameWork(r, h.client) && r.phase != InSession && Alarms(r) == Alarms(h.client))
  {
    hide Emit, Life, GateOf, LedgerOf, DrawsOf, SendFrame, HealthBreak, Commands, LedgerSound, NoneFailed, Drew;
    var sent := SendFrame(w, h.client.trace, ForHeartbeat, frame);
    if sent.error.Some? {
      BreakSound(w, Note(h, sent.trace), InternalError(context, sent.error.value));
    }
  }

  lemma FrameSound(w: World, health: Health, h: Checked, frame: Frame, at: Instant)
    requires Live(w, h.client)
    ensures var r := HealthOnFrame(w, health, h, frame, at).client;
            && Advances(w, h.client, Inbound(frame, at), r) && KeepsSettled(w, h.client, r)
            && Alarms(r) == Alarms(h.client) + (if health.strategy.examine(h.pings, frame, at) == InvalidPong then 1 else 0)
  {
    hide Emit, LifecycleStep, GateStep, LedgerStep, DrawsStep, Life, LedgerOf, SendFrame, HealthBreak, Commands, Sound, HealthOnOutcome, OnOutcome;
    var result := health.strategy.examine(h.pings, frame, at);
    var h1 := Note(h, Emit(h.client.trace, InboundHook(frame)))
              .(counters := CountMessage(h.counters, at), pings := h.pings + [FrameExamined(frame, at, result)]);
    NotedSound(w, h.client, InboundHook(frame));
    match result
    case ReplyWith(reply) =>
      NotedSound(w, h1.client, PongDue(reply));
      HeartbeatSound(w, Note(h1, Emit(h1.client.trace, PongDue(reply))), reply, PongReplyContext);
    case PongReceived(_) => NotedSound(w, h1.client, PongHeard);
    case InvalidPong =>
      NotedSound(w, h1.client, PongInvalid);
      BreakSound(w, Note(h1, Emit(h1.client.trace, PongInvalid)).(counters := CountError(h1.counters)), PongTimeout);
    case NotPong =>
      OnOutcomeProjects(w, h1, frame);
      OnOutcomeSound(w, h1.client, frame);
  }

  /** The input makes the health loop declare a pong timeout. */
  predicate Alarming(health: Health, h: Checked, input: Input) {
    && h.client.phase == InSession
    && match input
       case PingTick(checkAt, _) => health.strategy.stale(h.pings, checkAt)
       case Inbound(frame, at) => health.strategy.examine(h.pings, frame, at) == InvalidPong
       case _ => false
  }

  lemma HealthStepSound(w: World, health: Health, h: Checked, input: Input)
    requires Sound(w, h.client)
    ensures var r := HealthStep(w, health, h, input).client;
            && Advances(w, h.client, input, r) && KeepsSettled(w, h.client, r)
            && Alarms(r) == Alarms(h.client) + (if Alarming(health, h, input) then 1 else 0)
  {
    if h.client.phase == InSession && input.PingTick? {
      TickSound(w, health, h, input.checkAt, input.pingAt);
    } else if h.client.phase == InSession && input.Inbound? {
      FrameSound(w, health, h, input.frame, input.at);
    } else {
      hide HealthDialStep, HealthSessionStep, HealthWaitStep, Step, Sound, Line, SameLine;
      StepProjects(w, health, h, input);
      StepSound(w, h.client, input);
    }
  }
}
