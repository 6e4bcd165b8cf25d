/** What the managed client loops of src/ws/managed.rs do, seen from outside:
    every call of the endpoint handler and of the reconnect strategy, every
    frame write, every status store and every command taken, in order.

    Four monitors read such a trace from its start. They are the specification
    the loops are proved against and know nothing about the loops' variables. */
module ClientTrace {
  import opened Prelude
  import opened Wire

  type Subscription = nat
  type Message = nat
  type Delay = d: real | d >= 0.0

  datatype SubscriptionAction =
    | Add(items: seq<Subscription>)
    | Remove(items: seq<Subscription>)
    | Replace(items: seq<Subscription>)
    | Clear

  datatype Command =
    | Send(payload: Bytes)
    | UpdateSubscriptions(action: SubscriptionAction)
    | ForceReconnect(reason: string)
    | Shutdown

  predicate RequiresAuth(c: Command) {
    c.Send? || c.UpdateSubscriptions?
  }

  datatype Status = Connecting | Connected | Disconnected

  datatype SessionMode = Public | AuthGated

  datatype DisconnectAction = ImmediateReconnect | BackoffReconnect | Abort

  datatype ErrorAction = ContinueAfterError | ReconnectAfterError | FatalError

  /** The `context` strings of the loops' internal errors. */
  datatype Context =
    | ConnectContext | AuthSendContext | ReplayContext | ReplayAfterAuthContext
    | PendingCommandContext | CommandContext | MessageSendContext
    | HandleMessageContext | PingSendContext | PongReplyContext

  datatype Cause =
    | StaleData
    | PongTimeout
    | RemoteClosed
    | ReadFailure(error: string)
    | EndpointRequested(reason: string)
    | ServerError(code: int, message: string)
    | InternalError(context: Context, error: string)

  datatype MessageAction =
    | Continue
    | SessionAuthenticated
    | Reply(payload: Bytes)
    | Process(message: Message)
    | RequestReconnect(reason: string)
    | RequestShutdown

  datatype ParseOutcome =
    | Parsed(action: MessageAction)
    | ServerReported(code: int, message: string)
    | Unparsable(error: string)

  datatype UpdateResult = Accepted(items: seq<Subscription>) | Refused(error: string)

  /** Why a frame was written. */
  datatype Purpose = ForAuth | ForReplay | ForCommand | ForReply | ForHeartbeat

  datatype Obs =
    | StatusStored(status: Status)
    | ConnectTried(error: Option<string>)
    | StrategyReset
    | RetryAsked(ok: bool)
    | DelayDrawn(delay: Delay)
    | WaitStarted(delay: Delay)
    | WaitElapsed
    | StateReset
    | OpenHook
    | Opened(isReconnect: bool, notice: Option<Message>)
    | MessageHandled(message: Message, error: Option<string>)
    | AuthGenerated(auth: Option<Bytes>)
    | ModeRead(mode: SessionMode)
    | InboundHook(inbound: Frame)
    | FrameParsed(inbound: Frame, outcome: ParseOutcome)
    | ServerErrorHandled(action: ErrorAction)
    | SubscriptionsListed(items: seq<Subscription>)
    | SubscriptionSerialized(item: Subscription, payload: Bytes)
    | SubscriptionsUpdated(update: SubscriptionAction, result: UpdateResult)
    | OutboundHook(outbound: Frame)
    | Wrote(purpose: Purpose, outbound: Frame, error: Option<string>)
    | Classified(cause: Cause, decision: DisconnectAction)
    | Disconnection(cause: Cause, willReconnect: bool, notice: Option<Message>)
    | Took(command: Command)
    | ChannelClosed                          // the command channel has no senders left
    | Attempted(command: Command, error: Option<string>)
    | Discarded(command: Command)
    | ReadFailed(failure: string)
    | StreamEnded
    // answers of the health object that call for something
    | HeartbeatMade(beat: Frame)             // a ping was created
    | PongDue(beat: Frame)                   // a frame is to be answered
    | PongHeard                              // a frame was a pong
    | PongInvalid
    | PongOverdue
    | DataStale

  datatype Trace = Start | Then(prior: Trace, last: Obs)

  // ---- Lifecycle: (Open? Disconnected(true))* then nothing, Open, or Open? Disconnected(false) ----

  datatype Stage = Idle | InConnection | Ended | Malformed

  datatype Lifecycle = Lifecycle(stage: Stage, tries: nat, alarms: nat)   // alarms: pong timeouts declared

  function LifecycleStep(l: Lifecycle, o: Obs): Lifecycle {
    match o
    case ConnectTried(_) => l.(tries := l.tries + 1)
    case Opened(again, _) =>
      l.(stage := if l.stage == Idle && again == (l.tries > 1) then InConnection else Malformed)
    case Disconnection(cause, will, _) =>
      l.(stage := if l.stage == Idle || l.stage == InConnection
                  then (if will then Idle else Ended) else Malformed,
         alarms := l.alarms + (if cause == PongTimeout then 1 else 0))
    case _ => l
  }

  function Life(t: Trace): Lifecycle {
    match t
    case Start => Lifecycle(Idle, 0, 0)
    case Then(p, o) => LifecycleStep(Life(p), o)
  }

  // ---- Gate: what may be written when, within one session ----

  datatype Gate =
    | NoSession
    | Fresh                                                  // open, mode not read yet
    | Locked                                                 // auth-gated, not authenticated
    | Unlocked                                               // may replay
    | Replaying(left: seq<Subscription>, next: Option<Bytes>) // replay under way
    | Ready                                                  // replay complete
    | Breached

  function GateStep(g: Gate, o: Obs): Gate {
    match o
    case Opened(_, _) => if g == NoSession then Fresh else Breached
    case ModeRead(mode) =>
      if g != Fresh then Breached else if mode == Public then Unlocked else Locked
    case FrameParsed(_, Parsed(SessionAuthenticated)) =>
      if g == Locked || g == Ready then Unlocked else Breached
    case SubscriptionsListed(items) =>
      if g != Unlocked then Breached else if items == [] then Ready else Replaying(items, None)
    case SubscriptionSerialized(item, payload) =>
      if !g.Replaying? then g
      else if g.left != [] && g.left[0] == item && g.next == None then g.(next := Some(payload))
      else Breached
    case Wrote(ForAuth, _, _) => if g == Fresh then g else Breached
    case Wrote(ForReplay, frame, error) =>
      if !(g.Replaying? && g.left != [] && g.next.Some? && frame == IntoFrame(g.next.value)) then Breached
      else if error.Some? then g.(next := None)
      else if |g.left| == 1 then Ready
      else Replaying(g.left[1..], None)
    case Wrote(ForCommand, _, _) => if g == Ready then g else Breached
    case Disconnection(_, _, _) => if g == Breached then g else NoSession
    case _ => g
  }

  function GateOf(t: Trace): Gate {
    match t
    case Start => NoSession
    case Then(p, o) => GateStep(GateOf(p), o)
  }

  // ---- Ledger: what became of every command taken ----

  datatype Attempt = Attempt(command: Command, session: nat, ok: bool)

  datatype Ledger = Ledger(
    taken: seq<Command>,       // Send/UpdateSubscriptions taken by the session loops
    control: seq<Command>,     // Shutdown/ForceReconnect taken by the session loops
    attempts: seq<Attempt>,
    session: nat,              // connections opened so far
    waits: seq<nat>,           // how many commands each non-zero wait consumed
    discarded: seq<Command>,   // the commands consumed
    waiting: bool,             // a non-zero wait is under way
    astray: bool)              // a command was consumed outside any wait

  /** Charge the command just discarded to the wait under way. */
  function DiscardStep(l: Ledger): Ledger {
    if !l.waiting || l.waits == [] then l.(astray := true)
    else var last := |l.waits| - 1; l.(waits := l.waits[last := l.waits[last] + 1])
  }

  function LedgerStep(l: Ledger, o: Obs): Ledger {
    match o
    case Opened(_, _) => l.(session := l.session + 1)
    case Took(c) => if RequiresAuth(c) then l.(taken := l.taken + [c]) else l.(control := l.control + [c])
    case Attempted(c, e) => l.(attempts := l.attempts + [Attempt(c, l.session, e.None?)])
    case WaitStarted(d) => if d > 0.0 then l.(waits := l.waits + [0], waiting := true) else l.(waiting := false)
    case ConnectTried(_) => l.(waiting := false)
    case Discarded(c) => DiscardStep(l.(discarded := l.discarded + [c]))
    case _ => l
  }

  function LedgerOf(t: Trace): Ledger {
    match t
    case Start => Ledger([], [], [], 0, [], [], false, false)
    case Then(p, o) => LedgerStep(LedgerOf(p), o)
  }

  // ---- Draws: the delays the reconnect strategy was asked for ----

  /** A delay drawn after `k` others since the last successful connect. */
  datatype Drawn = Drawn(k: nat, delay: Delay)

  datatype Draws = Draws(sinceConnect: nat, sinceReset: nat, log: seq<Drawn>)

  function DrawsStep(d: Draws, o: Obs): Draws {
    match o
    case ConnectTried(error) => if error.None? then d.(sinceConnect := 0) else d
    case StrategyReset => d.(sinceReset := 0)
    case DelayDrawn(delay) =>
      Draws(d.sinceConnect + 1, d.sinceReset + 1, d.log + [Drawn(d.sinceConnect, delay)])
    case _ => d
  }

  function DrawsOf(t: Trace): Draws {
    match t
    case Start => Draws(0, 0, [])
    case Then(p, o) => DrawsStep(DrawsOf(p), o)
  }

  /** Record one observation; each monitor advances by its own step. */
  function Emit(t: Trace, o: Obs): (r: Trace)
    ensures Life(r) == LifecycleStep(Life(t), o)
    ensures GateOf(r) == GateStep(GateOf(t), o)
    ensures LedgerOf(r) == LedgerStep(LedgerOf(t), o)
    ensures DrawsOf(r) == DrawsStep(DrawsOf(t), o)
  {
    Then(t, o)
  }
}
