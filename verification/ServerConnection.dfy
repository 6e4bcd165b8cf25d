/** One server connection (`run_connection` of src/ws/server/runtime.rs) as a
    machine: handshake, handler events, replies, close. */
module ServerConnection {
  import opened Prelude
  import opened Wire

  datatype Command = Command(payload: Bytes)

  datatype CloseCause =
    | ClientClosed
    | HandlerRequested
    | HandlerError(reason: string)
    | Lagged(missed: nat)
    | ServerShutdown
    | TransportError(reason: string)

  /** What the endpoint handler is told. */
  datatype Event =
    | Connected
    | FrameEvent(frame: Frame)
    | CommandEvent(command: Command)
    | Tick
    | Closed(cause: CloseCause)

  datatype Action =
    | DoNothing
    | Send(frame: Frame)
    | SendBatch(frames: seq<Frame>)
    | CloseWith(close: Option<CloseFrame>)

  datatype Reply = Acts(action: Action) | Fails(reason: string)

  /** Why a frame is written: the handler asked for it, it answers a ping, or it
      is the transport's close frame (a close action or the farewell). */
  datatype Origin = Asked | Answer | Closing

  datatype Out = Out(frame: Frame, origin: Origin)

  datatype Pc =
    | Handshaking
    | Handling                              // the handler is working on an event
    | Idle                                  // in the select
    | Writing(left: seq<Frame>, origin: Origin)
    | Parting(cause: CloseCause)            // the handler is working on Closed
    | Farewell(frame: Frame)                // the close frame is being written
    | ClosingSocket
    | Done
    | Aborted                               // the task was aborted

  datatype Conn = Conn(
    pc: Pc,
    heard: seq<Frame>,
    received: seq<Command>,
    asked: seq<Frame>,
    closeAsked: Option<Frame>,
    events: seq<Event>,
    written: seq<Out>)

  datatype Input =
    | HandshakeOk
    | HandshakeFailed
    | Replied(reply: Reply)
    | Wrote(error: Option<string>)
    | SawShutdown
    | PeerFrame(frame: Frame)
    | PeerEnded
    | PeerFailed(reason: string)
    | Received(command: Command)
    | FellBehind(missed: nat)
    | ChannelClosed
    | TickFired
    | SocketClosed
    | Abort

  const CLOSE_GOING_AWAY := 1001
  const CLOSE_POLICY_VIOLATION := 1008
  const CLOSE_INTERNAL_ERROR := 1011

  function FarewellCode(cause: CloseCause): Option<nat> {
    match cause
    case Lagged(_) => Some(CLOSE_POLICY_VIOLATION)
    case HandlerError(_) => Some(CLOSE_INTERNAL_ERROR)
    case ServerShutdown => Some(CLOSE_GOING_AWAY)
    case _ => None
  }

  function FarewellReason(cause: CloseCause): string {
    match cause
    case Lagged(_) => "client lagged; reconnect for an authoritative snapshot"
    case HandlerError(_) => "endpoint handler error"
    case _ => "server shutting down"
  }

  /** The loop returned `cause`; the handler is told at once. */
  function End(c: Conn, cause: CloseCause): Conn {
    c.(pc := Parting(cause), events := c.events + [Closed(cause)])
  }

  function Tell(c: Conn, event: Event): Conn {
    c.(pc := Handling, events := c.events + [event])
  }

  function Write(c: Conn, frames: seq<Frame>, origin: Origin): Conn {
    c.(pc := if frames == [] then Idle else Writing(frames, origin))
  }

  function Apply(c: Conn, reply: Reply): Conn {
    match reply
    case Fails(reason) => End(c, HandlerError(reason))
    case Acts(DoNothing) => c.(pc := Idle)
    case Acts(Send(frame)) => Write(c.(asked := c.asked + [frame]), [frame], Asked)
    case Acts(SendBatch(frames)) => Write(c.(asked := c.asked + frames), frames, Asked)
    case Acts(CloseWith(close)) => Write(c.(closeAsked := Some(Close(close))), [Close(close)], Closing)
  }

  function AfterWrite(c: Conn, error: Option<string>): Conn
    requires c.pc.Writing? && c.pc.left != []
  {
    var c1 := c.(written := c.written + [Out(c.pc.left[0], c.pc.origin)]);
    if c.pc.origin == Closing then End(c1, HandlerRequested)
    else if error.Some? then End(c1, TransportError(error.value))
    else Write(c1, c.pc.left[1..], c.pc.origin)
  }

  function OnPeerFrame(c: Conn, frame: Frame): Conn {
    var c1 := c.(heard := c.heard + [frame]);
    match frame
    case Close(_) => End(c1, ClientClosed)
    case Ping(payload) => Write(c1, [Pong(payload)], Answer)
    case Pong(_) => c1
    case _ => Tell(c1, FrameEvent(frame))
  }

  function Select(c: Conn, input: Input): Conn {
    match input
    case SawShutdown => End(c, ServerShutdown)
    case PeerFrame(frame) => OnPeerFrame(c, frame)
    case PeerEnded => End(c, ClientClosed)
    case PeerFailed(reason) => End(c, TransportError(reason))
    case Received(command) => Tell(c.(received := c.received + [command]), CommandEvent(command))
    case FellBehind(missed) => End(c, Lagged(missed))
    case ChannelClosed => End(c, ServerShutdown)
    case TickFired => Tell(c, Tick)
    case _ => c
  }

  function Step(c: Conn, input: Input): Conn {
    if input == Abort then
      if c.pc == Done then c else c.(pc := Aborted)
    else match c.pc
      case Handshaking =>
        if input == HandshakeOk then Tell(c, Connected)
        else if input == HandshakeFailed then c.(pc := Done)
        else c
      case Handling => if input.Replied? then Apply(c, input.reply) else c
      case Idle => Select(c, input)
      case Writing(left, _) => if input.Wrote? && left != [] then AfterWrite(c, input.error) else c
      case Parting(cause) =>
        if input.Replied? then
          if FarewellCode(cause).Some?
          then c.(pc := Farewell(Close(Some(CloseFrame(FarewellCode(cause).value, FarewellReason(cause))))))
          else c.(pc := ClosingSocket)
        else c
      case Farewell(frame) =>
        if input.Wrote? then c.(written := c.written + [Out(frame, Closing)], pc := ClosingSocket) else c
      case ClosingSocket => if input == SocketClosed then c.(pc := Done) else c
      case Done => c
      case Aborted => c
  }

  const FRESH := Conn(Handshaking, [], [], [], None, [], [])

  function RunFrom(c: Conn, script: seq<Input>): Conn {
    if script == [] then c else Step(RunFrom(c, script[..|script| - 1]), script[|script| - 1])
  }

  function Run(script: seq<Input>): Conn {
    RunFrom(FRESH, script)
  }

  // ---- What the handler is told ----

  predicate Ordinary(e: Event) {
    match e
    case FrameEvent(frame) => frame.Text? || frame.Binary?
    case CommandEvent(_) => true
    case Tick => true
    case _ => false
  }

  predicate OpenEvents(events: seq<Event>) {
    && |events| >= 1 && events[0] == Connected
    && forall i :: 1 <= i < |events| ==> Ordinary(events[i])
  }

  predicate ClosedEvents(events: seq<Event>) {
    && |events| >= 2 && events[|events| - 1].Closed?
    && OpenEvents(events[..|events| - 1])
  }

  /** Nothing; or Connected first, application events, and Closed once and last
      exactly when the connection has ended other than by abort. */
  predicate EventsSound(c: Conn) {
    match c.pc
    case Handshaking => c.events == []
    case Handling => OpenEvents(c.events)
    case Idle => OpenEvents(c.events)
    case Writing(_, _) => OpenEvents(c.events)
    case Parting(cause) => ClosedEvents(c.events) && c.events[|c.events| - 1].cause == cause
    case Farewell(_) => ClosedEvents(c.events)
    case ClosingSocket => ClosedEvents(c.events)
    case Done => c.events == [] || ClosedEvents(c.events)
    case Aborted => c.events == [] || OpenEvents(c.events) || ClosedEvents(c.events)
  }

  lemma EndEvents(events: seq<Event>, cause: CloseCause)
    requires OpenEvents(events)
    ensures ClosedEvents(events + [Closed(cause)])
  {
    assert (events + [Closed(cause)])[..|events|] == events;
  }

  lemma TellEvents(events: seq<Event>, event: Event)
    requires OpenEvents(events) && Ordinary(event)
    ensures OpenEvents(events + [event])
  {
  }

  lemma EndKeeps(c: Conn, cause: CloseCause)
    requires OpenEvents(c.events)
    ensures EventsSound(End(c, cause))
  {
    hide OpenEvents, ClosedEvents;
    EndEvents(c.events, cause);
  }

  lemma TellKeeps(c: Conn, event: Event)
    requires OpenEvents(c.events) && Ordinary(event)
    ensures EventsSound(Tell(c, event))
  {
    hide OpenEvents, ClosedEvents;
    TellEvents(c.events, event);
  }

  lemma SelectEvents(c: Conn, input: Input)
    requires OpenEvents(c.events) && c.pc == Idle
    ensures EventsSound(Select(c, input))
  {
    hide OpenEvents, ClosedEvents, End, Tell;
    match input {
      case SawShutdown => EndKeeps(c, ServerShutdown);
      case PeerFrame(frame) =>
        var c1 := c.(heard := c.heard + [frame]);
        EndKeeps(c1, ClientClosed);
        if frame.Text? || frame.Binary? { TellKeeps(c1, FrameEvent(frame)); }
      case PeerEnded => EndKeeps(c, ClientClosed);
      case PeerFailed(reason) => EndKeeps(c, TransportError(reason));
      case Received(command) => TellKeeps(c.(received := c.received + [command]), CommandEvent(command));
      case FellBehind(missed) => EndKeeps(c, Lagged(missed));
      case ChannelClosed => EndKeeps(c, ServerShutdown);
      case TickFired => TellKeeps(c, Tick);
      case _ =>
    }
  }

  lemma ReplyEvents(c: Conn, reply: Reply)
    requires OpenEvents(c.events)
    ensures EventsSound(Apply(c, reply))
  {
    hide OpenEvents, ClosedEvents, End;
    if reply.Fails? { EndKeeps(c, HandlerError(reply.reason)); }
  }

  lemma WriteEvents(c: Conn, error: Option<string>)
    requires c.pc.Writing? && c.pc.left != [] && OpenEvents(c.events)
    ensures EventsSound(AfterWrite(c, error))
  {
    hide OpenEvents, ClosedEvents, End;
    var c1 := c.(written := c.written + [Out(c.pc.left[0], c.pc.origin)]);
    EndKeeps(c1, HandlerRequested);
    if error.Some? { EndKeeps(c1, TransportError(error.value)); }
  }

  lemma StepEvents(c: Conn, input: Input)
    requires EventsSound(c)
    ensures EventsSound(Step(c, input))
  {
    hide OpenEvents, ClosedEvents, Select, Apply, AfterWrite;
    FirstEvent();
    match c.pc {
      case Handling => if input.Replied? { ReplyEvents(c, input.reply); }
      case Idle => SelectEvents(c, input);
      case Writing(left, _) => if input.Wrote? && left != [] { WriteEvents(c, input.error); }
      case _ =>
    }
  }

  lemma FirstEvent()
    ensures OpenEvents([] + [Connected])
  {
  }

  // ---- What is written: at most one close frame, and it is the last ----

  /** No close frame from the transport; what it writes itself are pongs. */
  predicate Silent(w: seq<Out>) {
    forall i :: 0 <= i < |w| ==> w[i].origin != Closing && (w[i].origin == Answer ==> w[i].frame.Pong?)
  }

  /** Exactly one close frame from the transport, with nothing after it. */
  predicate SignedOff(w: seq<Out>) {
    && |w| >= 1 && w[|w| - 1].origin == Closing && w[|w| - 1].frame.Close?
    && Silent(w[..|w| - 1])
  }

  /** How a finished connection ends, by its cause: 1008, 1011 or 1001 from the
      transport, the close the handler asked for, or no close frame at all. */
  predicate LastWord(w: seq<Out>, cause: CloseCause, closeAsked: Option<Frame>) {
    match cause
    case Lagged(_) => SignedOff(w) && CodeOf(w[|w| - 1].frame) == Some(1008)
    case HandlerError(_) => SignedOff(w) && CodeOf(w[|w| - 1].frame) == Some(1011)
    case ServerShutdown => SignedOff(w) && CodeOf(w[|w| - 1].frame) == Some(1001)
    case HandlerRequested => SignedOff(w) && Some(w[|w| - 1].frame) == closeAsked
    case ClientClosed => Silent(w)
    case TransportError(_) => Silent(w)
  }

  function CodeOf(f: Frame): Option<nat> {
    if f.Close? && f.frame.Some? then Some(f.frame.value.code) else None
  }

  predicate ClosedWith(c: Conn) {
    c.events != [] && c.events[|c.events| - 1].Closed?
  }

  function FinalCause(c: Conn): CloseCause
    requires ClosedWith(c)
  {
    c.events[|c.events| - 1].cause
  }

  predicate WritesSound(c: Conn) {
    var w := c.written;
    match c.pc
    case Handshaking => w == []
    case Handling => Silent(w)
    case Idle => Silent(w)
    case Writing(left, origin) =>
      && Silent(w) && left != []
      && (origin == Closing ==> |left| == 1 && left[0].Close? && c.closeAsked == Some(left[0]))
      && (origin == Answer ==> |left| == 1 && left[0].Pong?)
    case Parting(cause) =>
      if cause == HandlerRequested then SignedOff(w) && Some(w[|w| - 1].frame) == c.closeAsked else Silent(w)
    case Farewell(frame) =>
      && Silent(w) && ClosedWith(c) && FarewellCode(FinalCause(c)).Some?
      && frame == Close(Some(CloseFrame(FarewellCode(FinalCause(c)).value, FarewellReason(FinalCause(c)))))
    case ClosingSocket => ClosedWith(c) && LastWord(w, FinalCause(c), c.closeAsked)
    case Done => if c.events == [] then w == [] else ClosedWith(c) && LastWord(w, FinalCause(c), c.closeAsked)
    case Aborted => Silent(w) || SignedOff(w)
  }

  lemma WroteOne(w: seq<Out>, o: Out)
    requires Silent(w)
    ensures o.origin == Asked || (o.origin == Answer && o.frame.Pong?) ==> Silent(w + [o])
    ensures o.origin == Closing && o.frame.Close? ==> SignedOff(w + [o])
  {
    assert (w + [o])[..|w|] == w;
  }

  lemma EndWrites(c: Conn, cause: CloseCause)
    requires Silent(c.written) && cause != HandlerRequested
    ensures WritesSound(End(c, cause))
  {
    hide Silent;
  }

  lemma SelectWrites(c: Conn, input: Input)
    requires c.pc == Idle && Silent(c.written)
    ensures WritesSound(Select(c, input))
  {
    hide Silent, SignedOff, LastWord, End;
    match input {
      case SawShutdown => EndWrites(c, ServerShutdown);
      case PeerFrame(frame) =>
        if frame.Close? { EndWrites(c.(heard := c.heard + [frame]), ClientClosed); }
      case PeerEnded => EndWrites(c, ClientClosed);
      case PeerFailed(reason) => EndWrites(c, TransportError(reason));
      case FellBehind(missed) => EndWrites(c, Lagged(missed));
      case ChannelClosed => EndWrites(c, ServerShutdown);
      case _ =>
    }
  }

  lemma ApplyWrites(c: Conn, reply: Reply)
    requires Silent(c.written)
    ensures WritesSound(Apply(c, reply))
  {
    hide Silent, SignedOff, LastWord, End;
    if reply.Fails? { EndWrites(c, HandlerError(reply.reason)); }
  }

  lemma AfterWriteWrites(c: Conn, error: Option<string>)
    requires c.pc.Writing? && WritesSound(c)
    ensures WritesSound(AfterWrite(c, error))
  {
    assert c.pc.left != [];
    hide Silent, SignedOff, LastWord;
    WroteOne(c.written, Out(c.pc.left[0], c.pc.origin));
  }

  /** The farewell frame carries the code of the cause the handler was told. */
  lemma FarewellWrites(c: Conn)
    requires c.pc.Farewell? && WritesSound(c)
    ensures WritesSound(c.(written := c.written + [Out(c.pc.frame, Closing)], pc := ClosingSocket))
  {
    hide Silent, SignedOff;
    WroteOne(c.written, Out(c.pc.frame, Closing));
  }

  lemma PartingWrites(c: Conn)
    requires c.pc.Parting? && EventsSound(c) && WritesSound(c)
    ensures WritesSound(Step(c, Replied(Acts(DoNothing))))
  {
    hide OpenEvents, Silent, SignedOff;
  }

  lemma AbortWrites(c: Conn)
    requires WritesSound(c)
    ensures WritesSound(c.(pc := Aborted))
  {
    hide Silent, SignedOff;
    NothingWritten();
  }

  lemma StepWrites(c: Conn, input: Input)
    requires EventsSound(c) && WritesSound(c)
    ensures WritesSound(Step(c, input))
  {
    assert c.pc.Writing? ==> c.pc.left != [];
    hide EventsSound, Silent, SignedOff, LastWord, Select, Apply, AfterWrite, End;
    NothingWritten();
    if input == Abort {
      AbortWrites(c);
    } else {
      match c.pc {
        case Handling => if input.Replied? { ApplyWrites(c, input.reply); }
        case Idle => SelectWrites(c, input);
        case Writing(_, _) => if input.Wrote? { AfterWriteWrites(c, input.error); }
        case Parting(_) => if input.Replied? { PartingWrites(c); }
        case Farewell(_) => if input.Wrote? { FarewellWrites(c); }
        case _ =>
      }
    }
  }

  lemma NothingWritten()
    ensures Silent([])
  {
  }

  // ---- Nothing lost, nothing added, nothing reordered ----

  function Frames(events: seq<Event>): seq<Frame> {
    if events == [] then []
    else
      var last := events[|events| - 1];
      Frames(events[..|events| - 1]) + (if last.FrameEvent? then [last.frame] else [])
  }

  function Commands(events: seq<Event>): seq<Command> {
    if events == [] then []
    else
      var last := events[|events| - 1];
      Commands(events[..|events| - 1]) + (if last.CommandEvent? then [last.command] else [])
  }

  function Applications(heard: seq<Frame>): seq<Frame> {
    if heard == [] then []
    else
      var last := heard[|heard| - 1];
      Applications(heard[..|heard| - 1]) + (if last.Text? || last.Binary? then [last] else [])
  }

  /** The answers owed to the pings heard. */
  function Pongs(heard: seq<Frame>): seq<Frame> {
    if heard == [] then []
    else
      var last := heard[|heard| - 1];
      Pongs(heard[..|heard| - 1]) + (if last.Ping? then [Pong(last.payload)] else [])
  }

  function By(origin: Origin, w: seq<Out>): seq<Frame> {
    if w == [] then []
    else
      var last := w[|w| - 1];
      By(origin, w[..|w| - 1]) + (if last.origin == origin then [last.frame] else [])
  }

  function Pending(c: Conn, origin: Origin): seq<Frame> {
    if c.pc.Writing? && c.pc.origin == origin then c.pc.left else []
  }

  predicate Live(c: Conn) {
    c.pc == Handling || c.pc == Idle || c.pc.Writing?
  }

  /** The handler is told exactly the application frames heard and the commands
      received; while the connection lives every ping is answered and every
      frame the handler asked for is written, in order; after a failed write
      what was written is a prefix of that. */
  predicate FlowSound(c: Conn) {
    && Frames(c.events) == Applications(c.heard)
    && Commands(c.events) == c.received
    && By(Answer, c.written) <= Pongs(c.heard)
    && By(Asked, c.written) <= c.asked
    && (Live(c) ==>
          && By(Answer, c.written) + Pending(c, Answer) == Pongs(c.heard)
          && By(Asked, c.written) + Pending(c, Asked) == c.asked)
    && (c.pc == Handshaking ==> c.heard == [] && c.asked == [])
  }

  lemma TellFlow(events: seq<Event>, e: Event)
    ensures Frames(events + [e]) == Frames(events) + (if e.FrameEvent? then [e.frame] else [])
    ensures Commands(events + [e]) == Commands(events) + (if e.CommandEvent? then [e.command] else [])
  {
    assert (events + [e])[..|events|] == events;
  }

  lemma HearFlow(heard: seq<Frame>, f: Frame)
    ensures Applications(heard + [f]) == Applications(heard) + (if f.Text? || f.Binary? then [f] else [])
    ensures Pongs(heard + [f]) == Pongs(heard) + (if f.Ping? then [Pong(f.payload)] else [])
  {
    assert (heard + [f])[..|heard|] == heard;
  }

  lemma WriteFlow(w: seq<Out>, o: Out)
    ensures forall origin :: By(origin, w + [o]) == By(origin, w) + (if o.origin == origin then [o.frame] else [])
  {
    assert (w + [o])[..|w|] == w;
  }

  /** Ending a connection keeps the account. */
  lemma EndFlow(c: Conn, cause: CloseCause)
    requires Frames(c.events) == Applications(c.heard) && Commands(c.events) == c.received
    requires By(Answer, c.written) <= Pongs(c.heard) && By(Asked, c.written) <= c.asked
    ensures FlowSound(End(c, cause))
  {
    TellFlow(c.events, Closed(cause));
  }

  lemma ApplyFlow(c: Conn, reply: Reply)
    requires FlowSound(c) && c.pc == Handling
    ensures FlowSound(Apply(c, reply))
  {
    hide Frames, Commands, Applications, Pongs, By;
    if reply.Fails? {
      EndFlow(c, HandlerError(reply.reason));
    }
  }

  lemma AfterWriteFlow(c: Conn, error: Option<string>)
    requires FlowSound(c) && WritesSound(c) && c.pc.Writing?
    ensures FlowSound(AfterWrite(c, error))
  {
    hide Frames, Commands, Applications, Pongs, By, Silent;
    var o := Out(c.pc.left[0], c.pc.origin);
    WriteFlow(c.written, o);
    var c1 := c.(written := c.written + [o]);
    assert c.pc.left == [o.frame] + c.pc.left[1..];
    EndFlow(c1, HandlerRequested);
    if error.Some? { EndFlow(c1, TransportError(error.value)); }
  }

  lemma SelectFlow(c: Conn, input: Input)
    requires FlowSound(c) && c.pc == Idle
    ensures FlowSound(Select(c, input))
  {
    hide Frames, Commands, Applications, Pongs, By;
    match input {
      case SawShutdown => EndFlow(c, ServerShutdown);
      case PeerFrame(frame) =>
        HearFlow(c.heard, frame);
        TellFlow(c.events, FrameEvent(frame));
        if frame.Close? { EndFlow(c.(heard := c.heard + [frame]), ClientClosed); }
      case PeerEnded => EndFlow(c, ClientClosed);
      case PeerFailed(reason) => EndFlow(c, TransportError(reason));
      case Received(command) => TellFlow(c.events, CommandEvent(command));
      case FellBehind(missed) => EndFlow(c, Lagged(missed));
      case ChannelClosed => EndFlow(c, ServerShutdown);
      case TickFired => TellFlow(c.events, Tick);
      case _ =>
    }
  }

  lemma StepFlow(c: Conn, input: Input)
    requires FlowSound(c) && WritesSound(c) && EventsSound(c)
    ensures FlowSound(Step(c, input))
  {
    hide Frames, Commands, Applications, Pongs, By, Select, AfterWrite, Apply, Silent, OpenEvents;
    if c.pc == Handling && input.Replied? {
      ApplyFlow(c, input.reply);
    } else if c.pc == Idle {
      SelectFlow(c, input);
    } else if c.pc.Writing? && input.Wrote? {
      AfterWriteFlow(c, input.error);
    } else if c.pc == Handshaking {
      HandshakeFlow(c);
    } else if c.pc.Farewell? {
      WriteFlow(c.written, Out(c.pc.frame, Closing));
    }
  }

  lemma HandshakeFlow(c: Conn)
    requires FlowSound(c) && WritesSound(c) && EventsSound(c) && c.pc == Handshaking
    ensures FlowSound(Tell(c, Connected))
  {
    TellFlow(c.events, Connected);
  }

  // ---- Every run ----

  lemma {:induction false} EveryConnectionRun(script: seq<Input>)
    ensures var c := Run(script); EventsSound(c) && WritesSound(c) && FlowSound(c)
  {
    if script != [] {
      var before := Run(script[..|script| - 1]);
      EveryConnectionRun(script[..|script| - 1]);
      StepEvents(before, script[|script| - 1]);
      StepWrites(before, script[|script| - 1]);
      StepFlow(before, script[|script| - 1]);
    }
  }

  // ---- What each input is to the connection ----

  /** Why an input ends the connection where it stands, if it does. */
  function Ends(c: Conn, input: Input): Option<CloseCause> {
    match c.pc
    case Handling => if input.Replied? && input.reply.Fails? then Some(HandlerError(input.reply.reason)) else None
    case Idle =>
      (match input
       case SawShutdown => Some(ServerShutdown)
       case ChannelClosed => Some(ServerShutdown)
       case PeerEnded => Some(ClientClosed)
       case PeerFrame(Close(_)) => Some(ClientClosed)
       case PeerFailed(reason) => Some(TransportError(reason))
       case FellBehind(missed) => Some(Lagged(missed))
       case _ => None)
    case Writing(_, origin) =>
      if !input.Wrote? then None
      else if origin == Closing then Some(HandlerRequested)
      else if input.error.Some? then Some(TransportError(input.error.value))
      else None
    case _ => None
  }

  /** The event an input makes for the handler. */
  function EventFor(c: Conn, input: Input): seq<Event> {
    if Ends(c, input).Some? then [Closed(Ends(c, input).value)]
    else if c.pc == Handshaking then (if input == HandshakeOk then [Connected] else [])
    else if c.pc != Idle then []
    else match input
      case PeerFrame(frame) => if frame.Text? || frame.Binary? then [FrameEvent(frame)] else []
      case Received(command) => [CommandEvent(command)]
      case TickFired => [Tick]
      case _ => []
  }

  /** The frames a reply asks for. */
  function FramesOf(reply: Reply): seq<Frame> {
    match reply
    case Acts(Send(frame)) => [frame]
    case Acts(SendBatch(frames)) => frames
    case _ => []
  }

  /** Each input adds to the connection's account exactly what it brings. */
  predicate Accounted(c: Conn, input: Input, r: Conn) {
    && r.events == c.events + EventFor(c, input)
    && r.heard == c.heard + (if c.pc == Idle && input.PeerFrame? then [input.frame] else [])
    && r.received == c.received + (if c.pc == Idle && input.Received? then [input.command] else [])
    && r.asked == c.asked + (if c.pc == Handling && input.Replied? then FramesOf(input.reply) else [])
    && (c.pc == Handling && input.Replied? && input.reply.Acts? && input.reply.action.CloseWith? ==>
          r.closeAsked == Some(Close(input.reply.action.close)))
  }

  lemma StepAccounted(c: Conn, input: Input)
    requires WritesSound(c)
    ensures Accounted(c, input, Step(c, input))
    ensures Ends(c, input).Some? ==> Step(c, input).pc == Parting(Ends(c, input).value)
  {
    hide Silent, SignedOff, LastWord;
  }

  /** What was told and asked over a whole schedule. */
  function EventsOf(script: seq<Input>): seq<Event> {
    if script == [] then []
    else EventsOf(script[..|script| - 1]) + EventFor(Run(script[..|script| - 1]), script[|script| - 1])
  }

  function AskedIn(script: seq<Input>): seq<Frame> {
    if script == [] then []
    else
      var n := |script| - 1;
      AskedIn(script[..n]) +
      (if Run(script[..n]).pc == Handling && script[n].Replied? then FramesOf(script[n].reply) else [])
  }

  /** In every run the handler is told exactly what the inputs make for it, and
      the frames it asked for are exactly those of its replies. */
  lemma {:induction false} EveryRunAccounted(script: seq<Input>)
    ensures Run(script).events == EventsOf(script) && Run(script).asked == AskedIn(script)
  {
    hide Step, FramesOf, EventFor;
    if script != [] {
      var n := |script| - 1;
      EveryRunAccounted(script[..n]);
      EveryConnectionRun(script[..n]);
      StepAccounted(Run(script[..n]), script[n]);
    }
  }

  /** After the end was told nothing more is. */
  predicate Past(pc: Pc) {
    pc.Parting? || pc.Farewell? || pc == ClosingSocket || pc == Done || pc == Aborted
  }

  lemma PastStays(c: Conn, input: Input)
    requires Past(c.pc)
    ensures Past(Step(c, input).pc) && Step(c, input).events == c.events
  {
  }

  lemma {:induction false} PastForGood(prefix: seq<Input>, later: seq<Input>)
    requires Past(Run(prefix).pc)
    ensures Past(Run(prefix + later).pc) && Run(prefix + later).events == Run(prefix).events
  {
    hide Step;
    if later == [] {
      assert prefix + later == prefix;
    } else {
      var n := |later| - 1;
      var all := prefix + later;
      assert all[..|all| - 1] == prefix + later[..n];
      PastForGood(prefix, later[..n]);
      PastStays(Run(prefix + later[..n]), later[n]);
    }
  }

  /** An input that ends the connection ends it with its own cause: the handler is
      told that cause last whatever follows, and a finished connection's last word
      is that cause's: 1011 after a handler error, 1001 after a shutdown, 1008
      after a lag, the handler's own close, or none. */
  lemma EndsWithItsCause(prefix: seq<Input>, input: Input, later: seq<Input>)
    requires Ends(Run(prefix), input).Some?
    ensures var cause, c := Ends(Run(prefix), input).value, Run(prefix + [input] + later);
      && c.events == Run(prefix).events + [Closed(cause)]
      && (c.pc == Done ==> LastWord(c.written, cause, c.closeAsked))
  {
    hide Step, EventsSound, FlowSound, LastWord, Silent, SignedOff, Ends;
    EveryConnectionRun(prefix);
    StepAccounted(Run(prefix), input);
    assert (prefix + [input])[..|prefix|] == prefix;
    EveryConnectionRun(prefix + [input] + later);
    PastForGood(prefix + [input], later);
  }

  // ---- One close frame for the peer, unless the handler sends its own ----

  predicate OneCloseAndLast(w: seq<Out>) {
    forall i :: 0 <= i < |w| - 1 ==> !w[i].frame.Close?
  }

  lemma {:induction false} AskedIsCounted(w: seq<Out>, i: nat)
    requires i < |w| && w[i].origin == Asked
    ensures w[i].frame in By(Asked, w)
  {
    if i < |w| - 1 {
      AskedIsCounted(w[..|w| - 1], i);
    }
  }

  lemma WrittenShape(c: Conn)
    requires WritesSound(c)
    ensures Silent(c.written) || SignedOff(c.written)
  {
  }

  /** If no reply of the handler carries a Close frame, the peer sees at most one
      Close frame, and nothing after it. */
  lemma OneCloseFrame(script: seq<Input>)
    requires forall f :: f in Run(script).asked ==> !f.Close?
    ensures OneCloseAndLast(Run(script).written)
  {
    hide Run, EventsSound, WritesSound, Frames, Commands, Applications, Pongs;
    EveryConnectionRun(script);
    var c := Run(script);
    WrittenShape(c);
    forall i | 0 <= i < |c.written| - 1 ensures !c.written[i].frame.Close? {
      if c.written[i].origin == Asked {
        AskedIsCounted(c.written, i);
      } else {
        assert c.written[..|c.written| - 1][i] == c.written[i];
      }
    }
  }

  lemma {:induction false} RunFromSplit(c: Conn, a: seq<Input>, b: seq<Input>)
    ensures RunFrom(c, a + b) == RunFrom(RunFrom(c, a), b)
  {
    if b == [] {
      assert a + b == a;
    } else {
      assert (a + b)[..|a + b| - 1] == a + b[..|b| - 1];
      RunFromSplit(c, a, b[..|b| - 1]);
    }
  }

  lemma RunFromFirst(c: Conn, first: Input, rest: seq<Input>)
    ensures RunFrom(c, [first] + rest) == RunFrom(Step(c, first), rest)
  {
    RunFromSplit(c, [first], rest);
    assert [first][..0] == [];
  }

  function AsOut(frames: seq<Frame>): seq<Out> {
    seq(|frames|, i requires 0 <= i < |frames| => Out(frames[i], Asked))
  }

  lemma OneGoesOut(c: Conn)
    requires c.pc.Writing? && c.pc.origin == Asked && c.pc.left != []
    ensures Step(c, Wrote(None)) ==
      c.(pc := if |c.pc.left| == 1 then Idle else Writing(c.pc.left[1..], Asked),
         written := c.written + [Out(c.pc.left[0], Asked)])
  {
  }

  /** Undisturbed, a batch goes out whole. */
  lemma {:induction false} BatchGoesOut(c: Conn)
    requires c.pc.Writing? && c.pc.origin == Asked && c.pc.left != []
    ensures RunFrom(c, seq(|c.pc.left|, _ => Wrote(None))) ==
      c.(pc := Idle, written := c.written + AsOut(c.pc.left))
    decreases |c.pc.left|
  {
    hide Step, RunFrom;
    var rest := seq(|c.pc.left| - 1, _ => Wrote(None));
    assert seq(|c.pc.left|, _ => Wrote(None)) == [Wrote(None)] + rest;
    RunFromFirst(c, Wrote(None), rest);
    OneGoesOut(c);
    if |c.pc.left| > 1 {
      BatchGoesOut(Step(c, Wrote(None)));
    } else {
      RunFromNothing(Step(c, Wrote(None)));
    }
    assert c.written + [Out(c.pc.left[0], Asked)] + AsOut(c.pc.left[1..]) == c.written + AsOut(c.pc.left);
  }

  lemma RunFromNothing(c: Conn)
    ensures RunFrom(c, []) == c
  {
  }

  /** A shutdown seen by an idle connection is announced with a Close frame. */
  lemma FarewellGoesOut(c: Conn)
    requires c.pc == Idle
    ensures var w := RunFrom(c, [SawShutdown, Replied(Acts(DoNothing)), Wrote(None)]).written;
      |w| == |c.written| + 1 && c.written <= w
  {
    var script := [SawShutdown, Replied(Acts(DoNothing)), Wrote(None)];
    assert script[..2][..1][..0] == [];
    assert RunFrom(c, script[..2][..1]) == Step(c, SawShutdown);
    assert RunFrom(c, script[..2]) == Step(Step(c, SawShutdown), Replied(Acts(DoNothing)));
  }

  lemma ReplyIsWritten(c: Conn, reply: Reply)
    requires c.pc == Handling && FramesOf(reply) != []
    ensures var c1 := Step(c, Replied(reply));
      c1.pc == Writing(FramesOf(reply), Asked) && c1.written == c.written
  {
  }

  /** The condition of OneCloseFrame cannot be dropped for any reply at any point
      of any run: once the handler asks for a Close frame, there is a schedule on
      which the transport writes its own after it. */
  lemma SentCloseCanBeDoubled(prefix: seq<Input>, reply: Reply, k: nat) returns (script: seq<Input>)
    requires Run(prefix).pc == Handling && k < |FramesOf(reply)| && FramesOf(reply)[k].Close?
    ensures script != [] && script[0] == Replied(reply)
    ensures !OneCloseAndLast(Run(prefix + script).written)
  {
    hide Step, RunFrom;
    var c := Run(prefix);
    var frames := FramesOf(reply);
    var sending := seq(|frames|, _ => Wrote(None));
    var ending := [SawShutdown, Replied(Acts(DoNothing)), Wrote(None)];
    script := [Replied(reply)] + (sending + ending);
    RunFromSplit(FRESH, prefix, script);
    RunFromFirst(c, Replied(reply), sending + ending);
    ReplyIsWritten(c, reply);
    var c1 := Step(c, Replied(reply));
    BatchGoesOut(c1);
    RunFromSplit(c1, sending, ending);
    var c2 := RunFrom(c1, sending);
    FarewellGoesOut(c2);
    var w := Run(prefix + script).written;
    assert w[|c.written| + k] == c2.written[|c.written| + k] == Out(frames[k], Asked);
  }
}
