/** `run_connection` as code that updates state, proved against the machine of
    ServerConnection. The schedule supplies what each suspension point yields. */
module ServerConnectionRuntime {
  import opened Prelude
  import opened Wire
  import opened ServerConnection

  /** The inputs a suspension point can resume with. */
  predicate Resumes(pc: Pc, input: Input) {
    match pc
    case Handshaking => input.HandshakeOk? || input.HandshakeFailed?
    case Handling => input.Replied?
    case Idle =>
      || input.SawShutdown? || input.PeerFrame? || input.PeerEnded? || input.PeerFailed?
      || input.Received? || input.FellBehind? || input.ChannelClosed? || input.TickFired?
    case Writing(_, _) => input.Wrote?
    case Parting(_) => input.Replied?
    case Farewell(_) => input.Wrote?
    case ClosingSocket => input.SocketClosed?
    case Done => false
    case Aborted => false
  }

  /** Same connection, suspended where it was or aborted there. */
  predicate Suspended(c: Conn, final: Conn) {
    final == c || final == c.(pc := Aborted)
  }

  lemma RunNext(script: seq<Input>, i: nat)
    requires i < |script|
    ensures Run(script[..i + 1]) == Step(Run(script[..i]), script[i])
  {
    assert script[..i + 1][..i] == script[..i];
  }

  lemma {:induction false} Stuck(script: seq<Input>, i: nat)
    requires i <= |script| && (Run(script[..i]).pc == Aborted || Run(script[..i]).pc == Done)
    ensures Run(script) == Run(script[..i])
    decreases |script| - i
  {
    if i < |script| {
      RunNext(script, i);
      Stuck(script, i + 1);
    } else {
      assert script[..i] == script;
    }
  }

  /** Suspends until the schedule resumes this point; None when the schedule ends
      here or aborts the task here. */
  method Await(script: seq<Input>, i: nat, pc: Pc, ghost c: Conn) returns (j: nat, input: Option<Input>)
    requires i <= |script| && c == Run(script[..i]) && c.pc == pc && pc != Done && pc != Aborted
    ensures i <= j <= |script|
    ensures input.None? ==> Suspended(c, Run(script))
    ensures input.Some? ==> i < j && Resumes(pc, input.value) && Run(script[..j]) == Step(c, input.value)
  {
    hide Run;
    j := i;
    while j < |script|
      invariant i <= j <= |script| && Run(script[..j]) == c
    {
      RunNext(script, j);
      j := j + 1;
      if script[j - 1].Abort? {
        Stuck(script, j);
        return j, None;
      }
      if Resumes(pc, script[j - 1]) {
        return j, Some(script[j - 1]);
      }
    }
    assert script[..j] == script;
    return j, None;
  }

  datatype Outcome = Continue | Stop(cause: CloseCause) | Cut

  class Connection {
    var heard: seq<Frame>
    var received: seq<Command>
    var asked: seq<Frame>
    var closeAsked: Option<Frame>
    var events: seq<Event>
    var written: seq<Out>

    function Now(pc: Pc): Conn
      reads this
    {
      Conn(pc, heard, received, asked, closeAsked, events, written)
    }

    constructor ()
      ensures Now(Handshaking) == FRESH
    {
      heard, received, asked, closeAsked, events, written := [], [], [], None, [], [];
    }

    /** Where the machine stands after an operation of the loop. */
    ghost predicate Stands(script: seq<Input>, i: nat, outcome: Outcome)
      reads this
    {
      && i <= |script|
      && match outcome
         case Continue => Run(script[..i]) == Now(Idle)
         case Stop(cause) => Run(script[..i]) == End(Now(Idle), cause)
         case Cut => Run(script) == Now(Run(script).pc) && Run(script).pc != Done
    }

    /** Writes the frames one by one and gives up at the first error. */
    method SendFrames(script: seq<Input>, i: nat, frames: seq<Frame>, origin: Origin) returns (j: nat, outcome: Outcome)
      requires i <= |script| && origin != Closing && Run(script[..i]) == Write(Now(Idle), frames, origin)
      modifies this`written
      ensures Stands(script, j, outcome) && i <= j
    {
      hide Run;
      j := i;
      var k := 0;
      while k < |frames|
        invariant k <= |frames| && i <= j <= |script|
        invariant Run(script[..j]) == Write(Now(Idle), frames[k..], origin)
      {
        var input;
        j, input := Await(script, j, Writing(frames[k..], origin), Now(Writing(frames[k..], origin)));
        if input.None? { return j, Cut; }
        written := written + [Out(frames[k], origin)];
        if input.value.error.Some? {
          return j, Stop(TransportError(input.value.error.value));
        }
        assert frames[k..][1..] == frames[k + 1..];
        k := k + 1;
      }
      return j, Continue;
    }

    method ApplyAction(script: seq<Input>, i: nat, action: Action) returns (j: nat, outcome: Outcome)
      requires i <= |script| && Run(script[..i]) == Apply(Now(Handling), Acts(action))
      modifies this
      ensures Stands(script, j, outcome) && i <= j
    {
      hide Run;
      match action {
        case DoNothing => return i, Continue;
        case Send(frame) =>
          asked := asked + [frame];
          j, outcome := SendFrames(script, i, [frame], Asked);
        case SendBatch(frames) =>
          asked := asked + frames;
          j, outcome := SendFrames(script, i, frames, Asked);
        case CloseWith(close) =>
          closeAsked := Some(Close(close));
          var input;
          j, input := Await(script, i, Writing([Close(close)], Closing), Now(Writing([Close(close)], Closing)));
          if input.None? { return j, Cut; }
          written := written + [Out(Close(close), Closing)];
          return j, Stop(HandlerRequested);
      }
    }

    /** Delivers an event to the handler and applies its reply. */
    method Deliver(script: seq<Input>, i: nat, event: Event) returns (j: nat, outcome: Outcome)
      requires i <= |script| && Run(script[..i]) == Tell(Now(Idle), event)
      modifies this
      ensures Stands(script, j, outcome) && i <= j
    {
      hide Run;
      events := events + [event];
      var input;
      j, input := Await(script, i, Handling, Now(Handling));
      if input.None? { return j, Cut; }
      if input.value.reply.Fails? {
        return j, Stop(HandlerError(input.value.reply.reason));
      }
      j, outcome := ApplyAction(script, j, input.value.reply.action);
    }

    method OnFrame(script: seq<Input>, i: nat, frame: Frame) returns (j: nat, outcome: Outcome)
      requires i <= |script| && Run(script[..i]) == OnPeerFrame(Now(Idle), frame)
      modifies this
      ensures Stands(script, j, outcome) && i <= j
    {
      hide Run;
      heard := heard + [frame];
      match frame {
        case Close(_) => return i, Stop(ClientClosed);
        case Ping(payload) => j, outcome := SendFrames(script, i, [Pong(payload)], Answer);
        case Pong(_) => return i, Continue;
        case Text(_) => j, outcome := Deliver(script, i, FrameEvent(frame));
        case Binary(_) => j, outcome := Deliver(script, i, FrameEvent(frame));
      }
    }

    /** One turn of the select loop. */
    method SelectOnce(script: seq<Input>, i: nat) returns (j: nat, outcome: Outcome)
      requires i <= |script| && Run(script[..i]) == Now(Idle)
      modifies this
      ensures Stands(script, j, outcome) && (outcome.Continue? ==> i < j)
    {
      hide Run;
      var input;
      j, input := Await(script, i, Idle, Now(Idle));
      if input.None? { return j, Cut; }
      match input.value {
        case SawShutdown => return j, Stop(ServerShutdown);
        case PeerEnded => return j, Stop(ClientClosed);
        case PeerFailed(reason) => return j, Stop(TransportError(reason));
        case PeerFrame(frame) => j, outcome := OnFrame(script, j, frame);
        case Received(command) =>
          received := received + [command];
          j, outcome := Deliver(script, j, CommandEvent(command));
        case FellBehind(missed) => return j, Stop(Lagged(missed));
        case ChannelClosed => return j, Stop(ServerShutdown);
        case TickFired => j, outcome := Deliver(script, j, Tick);
      }
    }

    /** `run_connection_loop`. */
    method RunConnectionLoop(script: seq<Input>, i: nat) returns (j: nat, outcome: Outcome)
      requires i <= |script| && Run(script[..i]) == Tell(Now(Idle), Connected)
      modifies this
      ensures Stands(script, j, outcome) && !outcome.Continue?
    {
      hide Run;
      j, outcome := Deliver(script, i, Connected);
      while outcome.Continue?
        invariant Stands(script, j, outcome)
        decreases outcome.Continue?, |script| - j
      {
        j, outcome := SelectOnce(script, j);
      }
    }

    method CloseSocket(script: seq<Input>, i: nat) returns (finished: bool)
      requires i <= |script| && Run(script[..i]) == Now(ClosingSocket)
      ensures Run(script) == Now(Run(script).pc) && (finished <==> Run(script).pc == Done)
    {
      hide Run;
      var j, input := Await(script, i, ClosingSocket, Now(ClosingSocket));
      if input.None? { return false; }
      Stuck(script, j);
      return true;
    }

    /** The best-effort close frame; a failed write is ignored. */
    method SayFarewell(script: seq<Input>, i: nat, frame: Frame) returns (finished: bool)
      requires i <= |script| && Run(script[..i]) == Now(Farewell(frame))
      modifies this`written
      ensures Run(script) == Now(Run(script).pc) && (finished <==> Run(script).pc == Done)
    {
      hide Run, Apply, AfterWrite, Select;
      var j, input := Await(script, i, Farewell(frame), Now(Farewell(frame)));
      if input.None? { return false; }
      written := written + [Out(frame, Closing)];
      finished := CloseSocket(script, j);
    }

    /** `finish_connection`: tell the handler, say why, close. */
    method FinishConnection(script: seq<Input>, i: nat, cause: CloseCause) returns (finished: bool)
      requires i <= |script| && Run(script[..i]) == End(Now(Idle), cause)
      modifies this
      ensures Run(script) == Now(Run(script).pc) && (finished <==> Run(script).pc == Done)
    {
      hide Run, Apply, AfterWrite, Select;
      events := events + [Closed(cause)];
      var code := FarewellCode(cause);
      var j, input := Await(script, i, Parting(cause), Now(Parting(cause)));
      if input.None? { return false; }
      if code.Some? {
        finished := SayFarewell(script, j, Close(Some(CloseFrame(code.value, FarewellReason(cause)))));
      } else {
        finished := CloseSocket(script, j);
      }
    }
  }

  method RunConnection(script: seq<Input>) returns (c: Connection, finished: bool)
    ensures fresh(c)
    ensures Run(script) == c.Now(Run(script).pc)
    ensures finished <==> Run(script).pc == Done
  {
    c := new Connection();
    assert script[..0] == [];
    var j, input := Await(script, 0, Handshaking, c.Now(Handshaking));
    if input.None? { return c, false; }
    if input.value.HandshakeFailed? {
      Stuck(script, j);
      return c, true;
    }
    var outcome;
    j, outcome := c.RunConnectionLoop(script, j);
    if outcome.Cut? { return c, false; }
    finished := c.FinishConnection(script, j, outcome.cause);
  }
}
