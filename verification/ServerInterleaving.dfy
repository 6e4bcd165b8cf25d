/** The whole server: the server task, every connection task, callers of
    `dispatch`, waiters on the status and the shutdown request, interleaved in
    any order. A move that is not possible in a state leaves it unchanged. */
module ServerInterleaving {
  import opened Prelude
  import opened ServerConfig
  import L = ServerLifecycle
  import C = ServerConnection

  /** `capacity` is how many commands the broadcast channel retains. */
  datatype Params = Params(policy: RetryPolicy, maxConnections: nat, capacity: nat)

  /** An admitted connection; it subscribed when the log had `start` commands. */
  datatype Member = Member(start: nat, conn: C.Conn)

  datatype Answer =
    | Queued(connections: nat)
    | RefusedStopped
    | RefusedTerminated(cause: L.TerminalError)
    | RefusedWithoutCause              // Terminal was read but no cause was found

  /** The atomic reads of `dispatch`, in program order. */
  datatype CallPc = ReadingCause | ReadingStatus | RereadingCause | Sending | Answered(answer: Answer)

  /** `began` is the number of statuses published when the call began. */
  datatype Call = Call(command: C.Command, began: nat, pc: CallPc)

  datatype WaitPc = Looking | Reached | Settled(last: L.Status, seen: nat) | TimedOut

  datatype Waiter = Waiter(expected: L.Status, pc: WaitPc)

  datatype State = State(
    task: L.Task,
    shutdown: bool,
    active: int,
    nextId: nat,
    rejected: nat,
    log: seq<C.Command>,
    conns: map<nat, Member>,
    live: set<nat>,
    calls: map<nat, Call>,
    waiters: map<nat, Waiter>)

  datatype Move =
    | ServerMoves(input: L.Input)
    | SocketAccepted
    | ConnectionMoves(id: nat, cinput: C.Input)
    | ConnectionReceives(id: nat)
    | ConnectionAborted(id: nat)
    | ShutdownRequested
    | DispatchBegins(caller: nat, command: C.Command)
    | DispatchContinues(caller: nat)
    | WaitBegins(waiter: nat, expected: L.Status)
    | WaiterLooks(waiter: nat)
    | WaitExpires(waiter: nat)

  function Initial(w: Params): State {
    State(L.Initial(w.policy), false, 0, 0, 0, [], map[], {}, map[], map[])
  }

  predicate Over(c: C.Conn) { c.pc == C.Done || c.pc == C.Aborted }

  /** The status cell holds the last value published; Starting is there first. */
  function Status(s: State): L.Status {
    if s.task.published == [] then L.Starting else s.task.published[|s.task.published| - 1]
  }

  // ---- The server task ----

  /** The shutdown branches need the request; the join loops end when no
      connection task is left. */
  predicate ServerCan(s: State, input: L.Input) {
    && (input == L.SawShutdown ==> s.shutdown)
    && (input == L.AllJoined ==> s.live == {})
  }

  /** `admit_connection`: a slot, then an id, then the subscription. */
  function Admit(w: Params, s: State): State {
    if s.active >= w.maxConnections then s.(rejected := s.rejected + 1)
    else s.(active := s.active + 1, nextId := s.nextId + 1,
            conns := s.conns[s.nextId := Member(|s.log|, C.FRESH)], live := s.live + {s.nextId})
  }

  // ---- Connection tasks ----

  predicate Running(s: State, id: nat) { id in s.live && id in s.conns }

  /** One step of a connection task; a finished task releases its slot. */
  function Advance(s: State, id: nat, input: C.Input): State
    requires id in s.conns
  {
    var conn := C.Step(s.conns[id].conn, input);
    var s1 := s.(conns := s.conns[id := s.conns[id].(conn := conn)]);
    if Over(conn) then s1.(live := s.live - {id}, active := s.active - 1) else s1
  }

  /** Next log position of a connection's receiver. */
  function Position(m: Member): nat { m.start + |m.conn.received| }

  /** What the channel gives a receiver; None while there is nothing. */
  function Receive(w: Params, s: State, m: Member): Option<C.Input> {
    var pos := Position(m);
    if pos >= |s.log| then None
    else if |s.log| - pos > w.capacity then Some(C.FellBehind(|s.log| - w.capacity - pos))
    else Some(C.Received(s.log[pos]))
  }

  predicate ConnectionCan(s: State, input: C.Input) {
    && !input.Received? && !input.FellBehind? && !input.Abort?
    && (input == C.SawShutdown ==> s.shutdown)
  }

  // ---- Callers ----

  function Continue(s: State, call: Call): (Call, seq<C.Command>) {
    match call.pc
    case ReadingCause =>
      (call.(pc := if s.task.terminal.Some? then Answered(RefusedTerminated(s.task.terminal.value)) else ReadingStatus), [])
    case ReadingStatus =>
      (call.(pc := match Status(s)
                   case ShuttingDown => Answered(RefusedStopped)
                   case Stopped => Answered(RefusedStopped)
                   case Terminal => RereadingCause
                   case _ => Sending), [])
    case RereadingCause =>
      (call.(pc := Answered(if s.task.terminal.Some? then RefusedTerminated(s.task.terminal.value)
                            else RefusedWithoutCause)), [])
    case Sending =>
      (call.(pc := Answered(Queued(|s.live|))), if s.live == {} then [] else [call.command])
    case Answered(_) => (call, [])
  }

  function Look(s: State, waiter: Waiter): Waiter {
    if Status(s) == waiter.expected then waiter.(pc := Reached)
    else if L.IsFinal(Status(s)) then waiter.(pc := Settled(Status(s), |s.task.published|))
    else waiter
  }

  function Next(w: Params, s: State, move: Move): State {
    match move
    case ServerMoves(input) =>
      if ServerCan(s, input) then s.(task := L.Step(w.policy, s.task, input)) else s
    case SocketAccepted => if s.task.pc == L.Accepting then Admit(w, s) else s
    case ConnectionMoves(id, input) =>
      if Running(s, id) && ConnectionCan(s, input) then Advance(s, id, input) else s
    case ConnectionReceives(id) =>
      if Running(s, id) && s.conns[id].conn.pc == C.Idle && Receive(w, s, s.conns[id]).Some?
      then Advance(s, id, Receive(w, s, s.conns[id]).value) else s
    case ConnectionAborted(id) =>
      if Running(s, id) && (s.task.pc == L.AbortingAll || s.task.pc == L.DrainAborting)
      then Advance(s, id, C.Abort) else s
    case ShutdownRequested => s.(shutdown := true)
    case DispatchBegins(caller, command) =>
      if caller in s.calls then s else s.(calls := s.calls[caller := Call(command, |s.task.published|, ReadingCause)])
    case DispatchContinues(caller) =>
      if caller in s.calls then
        var (call, sent) := Continue(s, s.calls[caller]);
        s.(calls := s.calls[caller := call], log := s.log + sent)
      else s
    case WaitBegins(waiter, expected) =>
      if waiter in s.waiters then s else s.(waiters := s.waiters[waiter := Waiter(expected, Looking)])
    case WaiterLooks(waiter) =>
      if waiter in s.waiters && s.waiters[waiter].pc == Looking
      then s.(waiters := s.waiters[waiter := Look(s, s.waiters[waiter])]) else s
    case WaitExpires(waiter) =>
      if waiter in s.waiters && s.waiters[waiter].pc == Looking
      then s.(waiters := s.waiters[waiter := s.waiters[waiter].(pc := TimedOut)]) else s
  }

  function Run(w: Params, moves: seq<Move>): State {
    if moves == [] then Initial(w) else Next(w, Run(w, moves[..|moves| - 1]), moves[|moves| - 1])
  }

  // ---- What every move keeps ----

  /** A slot per running task, never more than the cap; ids 0, 1, 2, … go to
      admitted sockets only. */
  ghost predicate BudgetKept(w: Params, active: int, nextId: nat, conns: map<nat, Member>, live: set<nat>) {
    && active == |live| <= w.maxConnections
    && (forall id: nat :: id in conns <==> id < nextId)
    && (forall id: nat :: id in live <==> id in conns && !Over(conns[id].conn))
  }

  /** A connection is handed exactly the commands logged since it subscribed,
      from the first on, without a gap. */
  predicate Contiguous(log: seq<C.Command>, m: Member) {
    Position(m) <= |log| && m.conn.received == log[m.start..Position(m)]
  }

  ghost predicate FanOutKept(log: seq<C.Command>, conns: map<nat, Member>) {
    forall id: nat :: id in conns ==> Contiguous(log, conns[id])
  }

  predicate ConnSound(c: C.Conn) {
    C.EventsSound(c) && C.WritesSound(c) && C.FlowSound(c)
  }

  ghost predicate ConnectionsKept(conns: map<nat, Member>) {
    forall id: nat :: id in conns ==> ConnSound(conns[id].conn)
  }

  /** A refusal carries the retained cause; Terminal is never seen without it;
      a command is queued only by a call that began before any end. */
  predicate CallSound(t: L.Task, call: Call) {
    match call.pc
    case RereadingCause => t.terminal.Some?
    case Answered(RefusedTerminated(cause)) => t.terminal == Some(cause)
    case Answered(RefusedWithoutCause) => false
    case Answered(RefusedStopped) => L.ShuttingDown in t.published
    case Sending => BeganOpen(t, call)
    case Answered(Queued(_)) => BeganOpen(t, call)
    case _ => 1 <= call.began <= |t.published|
  }

  /** The call began before any end was published. */
  predicate BeganOpen(t: L.Task, call: Call) {
    1 <= call.began <= |t.published| && L.IsOpen(t.published[call.began - 1])
  }

  ghost predicate CallsKept(t: L.Task, calls: map<nat, Call>) {
    forall k: nat :: k in calls ==> CallSound(t, calls[k])
  }

  /** `Settled` is a final answer: nothing was published since. */
  predicate WaiterSound(t: L.Task, waiter: Waiter) {
    match waiter.pc
    case Reached => waiter.expected in t.published
    case Settled(last, seen) =>
      && L.IsFinal(last) && last != waiter.expected
      && seen == |t.published| >= 1 && t.published[seen - 1] == last
    case _ => true
  }

  ghost predicate WaitersKept(t: L.Task, waiters: map<nat, Waiter>) {
    forall k: nat :: k in waiters ==> WaiterSound(t, waiters[k])
  }

  predicate TaskKept(p: RetryPolicy, t: L.Task, live: set<nat>) {
    && L.StatusesSound(t) && L.RetrySound(p, t)
    && (t.pc == L.Returned ==> live == {})
  }

  ghost predicate Kept(w: Params, s: State) {
    && TaskKept(w.policy, s.task, s.live)
    && BudgetKept(w, s.active, s.nextId, s.conns, s.live)
    && FanOutKept(s.log, s.conns)
    && ConnectionsKept(s.conns)
    && CallsKept(s.task, s.calls)
    && WaitersKept(s.task, s.waiters)
  }

  // ---- Server task moves ----

  lemma CallersUnderGrowth(t: L.Task, u: L.Task, calls: map<nat, Call>, waiters: map<nat, Waiter>)
    requires L.Grows(t, u) && CallsKept(t, calls) && WaitersKept(t, waiters)
    ensures CallsKept(u, calls) && WaitersKept(u, waiters)
  {
    forall k: nat | k in calls ensures CallSound(u, calls[k]) {
      assert CallSound(t, calls[k]);
    }
    forall k: nat | k in waiters ensures WaiterSound(u, waiters[k]) {
      assert WaiterSound(t, waiters[k]);
    }
  }

  lemma ReturnsJoined(p: RetryPolicy, t: L.Task, input: L.Input)
    ensures L.Step(p, t, input).pc == L.Returned ==> t.pc == L.Returned || input == L.AllJoined
  {
  }

  lemma ServerMovesKeep(w: Params, s: State, input: L.Input)
    requires w.policy.Valid() && Kept(w, s) && ServerCan(s, input)
    ensures Kept(w, s.(task := L.Step(w.policy, s.task, input)))
  {
    hide L.StatusesSound, L.RetrySound, L.Step, L.Grows, BudgetKept, FanOutKept, ConnectionsKept, CallsKept, WaitersKept;
    L.StepStatuses(w.policy, s.task, input);
    L.StepRetry(w.policy, s.task, input);
    L.StepGrows(w.policy, s.task, input);
    ReturnsJoined(w.policy, s.task, input);
    CallersUnderGrowth(s.task, L.Step(w.policy, s.task, input), s.calls, s.waiters);
  }

  lemma FreshIsSound(log: seq<C.Command>)
    ensures ConnSound(C.FRESH) && !Over(C.FRESH) && Contiguous(log, Member(|log|, C.FRESH))
  {
  }

  lemma AdmitKeepsBudget(w: Params, s: State)
    requires BudgetKept(w, s.active, s.nextId, s.conns, s.live)
    ensures var s1 := Admit(w, s); BudgetKept(w, s1.active, s1.nextId, s1.conns, s1.live)
  {
    hide ConnSound, Contiguous, Over;
    FreshIsSound(s.log);
    if s.active < w.maxConnections {
      var s1 := Admit(w, s);
      assert s.nextId !in s.conns && s.nextId !in s.live;
      assert |s.live + {s.nextId}| == |s.live| + 1;
      forall id: nat ensures id in s1.conns <==> id < s1.nextId {
        assert id in s1.conns <==> id in s.conns || id == s.nextId;
      }
      forall id: nat ensures id in s1.live <==> id in s1.conns && !Over(s1.conns[id].conn) {
        assert id != s.nextId ==> (id in s1.live <==> id in s.live);
      }
    }
  }

  lemma AdmitKeeps(w: Params, s: State)
    requires Kept(w, s) && s.task.pc == L.Accepting
    ensures Kept(w, Admit(w, s))
  {
    hide L.StatusesSound, L.RetrySound, BudgetKept, ConnSound, CallsKept, WaitersKept, Contiguous;
    AdmitKeepsBudget(w, s);
    FreshIsSound(s.log);
  }

  // ---- Connection moves ----

  lemma AdvanceKeeps(w: Params, s: State, id: nat, input: C.Input)
    requires Kept(w, s) && Running(s, id)
    requires Contiguous(s.log, s.conns[id].(conn := C.Step(s.conns[id].conn, input)))
    ensures Kept(w, Advance(s, id, input))
  {
    hide L.StatusesSound, L.RetrySound, CallsKept, WaitersKept, Contiguous, C.Step, C.EventsSound, C.WritesSound, C.FlowSound;
    var c := s.conns[id].conn;
    C.StepEvents(c, input);
    C.StepWrites(c, input);
    C.StepFlow(c, input);
  }

  /** Only the receive branch hands over a command. */
  lemma WhatIsReceived(c: C.Conn, input: C.Input)
    ensures C.Step(c, input).received ==
      if input.Received? && c.pc == C.Idle then c.received + [input.command] else c.received
  {
  }

  lemma ReceiveContiguous(w: Params, s: State, m: Member)
    requires Contiguous(s.log, m) && Receive(w, s, m).Some?
    ensures Contiguous(s.log, m.(conn := C.Step(m.conn, Receive(w, s, m).value)))
  {
    WhatIsReceived(m.conn, Receive(w, s, m).value);
    hide C.Step;
  }

  lemma ConnectionMoveKeeps(w: Params, s: State, move: Move)
    requires Kept(w, s) && (move.ConnectionMoves? || move.ConnectionReceives? || move.ConnectionAborted?)
    ensures Kept(w, Next(w, s, move))
  {
    hide TaskKept, CallsKept, WaitersKept, ConnectionsKept, BudgetKept, Advance, C.Step;
    if Running(s, move.id) {
      var m := s.conns[move.id];
      match move {
        case ConnectionMoves(id, input) =>
          WhatIsReceived(m.conn, input);
          if ConnectionCan(s, input) { AdvanceKeeps(w, s, id, input); }
        case ConnectionReceives(id) =>
          if Receive(w, s, m).Some? {
            ReceiveContiguous(w, s, m);
            AdvanceKeeps(w, s, id, Receive(w, s, m).value);
          }
        case ConnectionAborted(id) =>
          WhatIsReceived(m.conn, C.Abort);
          AdvanceKeeps(w, s, id, C.Abort);
      }
    }
  }

  // ---- Callers ----

  lemma LongerLog(log: seq<C.Command>, more: seq<C.Command>, conns: map<nat, Member>)
    requires FanOutKept(log, conns)
    ensures FanOutKept(log + more, conns)
  {
    forall id: nat | id in conns ensures Contiguous(log + more, conns[id]) {
      var m := conns[id];
      assert (log + more)[m.start..Position(m)] == log[m.start..Position(m)];
    }
  }

  lemma ContinueSound(s: State, call: Call)
    requires L.StatusesSound(s.task) && CallSound(s.task, call)
    ensures CallSound(s.task, Continue(s, call).0)
  {
    L.LastStatus(s.task);
    L.EndsAnnounced(s.task);
    if L.IsOpen(Status(s)) { L.OpenSoFar(s.task); }
    hide L.StatusesSound;
  }

  lemma BeginKeeps(w: Params, s: State, move: Move)
    requires Kept(w, s) && move.DispatchBegins?
    ensures Kept(w, Next(w, s, move))
  {
    hide L.StatusesSound, L.RetrySound, BudgetKept, FanOutKept, ConnectionsKept, WaitersKept;
    L.LastStatus(s.task);
  }

  lemma DispatchKeeps(w: Params, s: State, caller: nat)
    requires Kept(w, s) && caller in s.calls
    ensures Kept(w, Next(w, s, DispatchContinues(caller)))
  {
    hide L.StatusesSound, L.RetrySound, BudgetKept, FanOutKept, ConnectionsKept, WaitersKept, CallSound, Continue;
    ContinueSound(s, s.calls[caller]);
    LongerLog(s.log, Continue(s, s.calls[caller]).1, s.conns);
  }

  lemma LookSound(s: State, waiter: Waiter)
    requires s.task.published != [] && WaiterSound(s.task, waiter)
    ensures WaiterSound(s.task, Look(s, waiter))
  {
  }

  lemma WaiterMoveKeeps(w: Params, s: State, move: Move)
    requires Kept(w, s) && (move.WaiterLooks? || move.WaitExpires? || move.WaitBegins?)
    ensures Kept(w, Next(w, s, move))
  {
    hide L.StatusesSound, L.RetrySound, BudgetKept, FanOutKept, ConnectionsKept, CallsKept, Look;
    L.LastStatus(s.task);
    if move.waiter in s.waiters {
      LookSound(s, s.waiters[move.waiter]);
    }
  }

  // ---- Every run ----

  lemma NextKeeps(w: Params, s: State, move: Move)
    requires w.policy.Valid() && Kept(w, s)
    ensures Kept(w, Next(w, s, move))
  {
    hide TaskKept, ConnectionsKept, BudgetKept, FanOutKept, WaitersKept, Advance, Admit, Continue, Look, L.Step;
    match move {
      case ServerMoves(input) => if ServerCan(s, input) { ServerMovesKeep(w, s, input); }
      case SocketAccepted => if s.task.pc == L.Accepting { AdmitKeeps(w, s); }
      case ConnectionMoves(_, _) => ConnectionMoveKeeps(w, s, move);
      case ConnectionReceives(_) => ConnectionMoveKeeps(w, s, move);
      case ConnectionAborted(_) => ConnectionMoveKeeps(w, s, move);
      case DispatchContinues(caller) => if caller in s.calls { DispatchKeeps(w, s, caller); }
      case WaiterLooks(_) => WaiterMoveKeeps(w, s, move);
      case WaitExpires(_) => WaiterMoveKeeps(w, s, move);
      case WaitBegins(_, _) => WaiterMoveKeeps(w, s, move);
      case DispatchBegins(_, _) => BeginKeeps(w, s, move);
      case ShutdownRequested =>
    }
  }

  lemma {:induction false} EveryState(w: Params, moves: seq<Move>)
    requires w.policy.Valid()
    ensures Kept(w, Run(w, moves))
  {
    if moves == [] {
      L.EveryServerRun(w.policy, []);
    } else {
      EveryState(w, moves[..|moves| - 1]);
      NextKeeps(w, Run(w, moves[..|moves| - 1]), moves[|moves| - 1]);
    }
  }

  // ---- Read off every reachable state ----

  /** However the tasks and callers interleave: published statuses are never
      taken back, the cause is written once, and nothing follows a final status,
      so a waiter told `Settled` was told for good. */
  lemma {:induction false} StatusesOnlyGrow(w: Params, moves: seq<Move>, later: seq<Move>)
    requires w.policy.Valid()
    ensures L.Grows(Run(w, moves).task, Run(w, moves + later).task)
  {
    hide L.Step, L.Grows, L.StatusesSound, L.RetrySound, BudgetKept, FanOutKept, ConnectionsKept, CallsKept, WaitersKept;
    EveryState(w, moves + later);
    if later == [] {
      assert moves + later == moves;
      L.GrowsItself(Run(w, moves).task);
    } else {
      var n := |later| - 1;
      assert (moves + later)[..|moves + later| - 1] == moves + later[..n];
      var s := Run(w, moves + later[..n]);
      StatusesOnlyGrow(w, moves, later[..n]);
      EveryState(w, moves + later[..n]);
      MoveGrows(w, s, later[n]);
      L.GrowsFurther(Run(w, moves).task, s.task, Run(w, moves + later).task);
    }
  }

  lemma MoveGrows(w: Params, s: State, move: Move)
    requires L.StatusesSound(s.task)
    ensures L.Grows(s.task, Next(w, s, move).task)
  {
    hide L.Step, L.Grows, L.StatusesSound, C.Step;
    L.GrowsItself(s.task);
    if move.ServerMoves? { L.StepGrows(w.policy, s.task, move.input); }
  }

  /** Once the server task has returned, no connection task is left and no slot
      is held. */
  lemma NothingOutlivesTheServer(w: Params, moves: seq<Move>)
    requires w.policy.Valid() && Run(w, moves).task.pc == L.Returned
    ensures Run(w, moves).active == 0
    ensures forall id: nat :: id in Run(w, moves).conns ==> Over(Run(w, moves).conns[id].conn)
  {
    EveryState(w, moves);
  }

  /** What the handlers are told, over all connections: the commands of the log
      from the subscription on, in order, none skipped; and application frames
      only. */
  lemma HandlersSeeNoGap(w: Params, moves: seq<Move>, id: nat)
    requires w.policy.Valid() && id in Run(w, moves).conns
    ensures var s := Run(w, moves);
      var m := s.conns[id];
      && Position(m) <= |s.log|
      && C.Commands(m.conn.events) == s.log[m.start..Position(m)]
  {
    EveryState(w, moves);
    assert ConnSound(Run(w, moves).conns[id].conn);
    assert Contiguous(Run(w, moves).log, Run(w, moves).conns[id]);
  }

  /** What later moves keep: the log only grows, members stay with their starting
      points, and a new member starts where the log ends at that moment. */
  predicate Continues(s: State, r: State) {
    && s.log <= r.log
    && (forall id: nat :: id in s.conns ==> id in r.conns && r.conns[id].start == s.conns[id].start)
    && (forall id: nat :: id in r.conns && id !in s.conns ==> |s.log| <= r.conns[id].start <= |r.log|)
  }

  lemma MoveContinues(w: Params, s: State, move: Move)
    requires s.nextId !in s.conns
    ensures Continues(s, Next(w, s, move))
  {
    hide C.Step, L.Step, Look, ServerCan, ConnectionCan, Receive, Advance, Admit, Continues;
    ContinuesItself(s);
    match move {
      case ServerMoves(_) => SameRoll(s, Next(w, s, move));
      case SocketAccepted => AdmitContinues(w, s);
      case ConnectionMoves(id, input) => if Running(s, id) { AdvanceContinues(s, id, input); }
      case ConnectionReceives(id) =>
        if Running(s, id) && Receive(w, s, s.conns[id]).Some? {
          AdvanceContinues(s, id, Receive(w, s, s.conns[id]).value);
        }
      case ConnectionAborted(id) => if Running(s, id) { AdvanceContinues(s, id, C.Abort); }
      case _ => SameRoll(s, Next(w, s, move));
    }
  }

  lemma SameRoll(s: State, r: State)
    requires r.conns == s.conns && s.log <= r.log
    ensures Continues(s, r)
  {
  }

  lemma AdvanceContinues(s: State, id: nat, input: C.Input)
    requires id in s.conns
    ensures Continues(s, Advance(s, id, input))
  {
    hide C.Step;
  }

  lemma AdmitContinues(w: Params, s: State)
    requires s.nextId !in s.conns
    ensures Continues(s, Admit(w, s))
  {
  }

  /** A connection's starting point is the end of the log at its admission: no
      command dispatched before is ever shown to it, and every one dispatched
      after, the handshake included, is at or after it. */
  lemma {:induction false} SubscribesAtAdmission(w: Params, moves: seq<Move>, later: seq<Move>)
    requires w.policy.Valid()
    ensures Continues(Run(w, moves), Run(w, moves + later))
  {
    hide Continues, Next;
    if later == [] {
      assert moves + later == moves;
      ContinuesItself(Run(w, moves));
    } else {
      var n := |later| - 1;
      assert (moves + later)[..|moves + later| - 1] == moves + later[..n];
      var s := Run(w, moves + later[..n]);
      SubscribesAtAdmission(w, moves, later[..n]);
      EveryState(w, moves + later[..n]);
      MoveContinues(w, s, later[n]);
      ContinuesFurther(Run(w, moves), s, Run(w, moves + later));
    }
  }

  lemma ContinuesItself(s: State)
    ensures Continues(s, s)
  {
  }

  lemma ContinuesFurther(s: State, r: State, u: State)
    requires Continues(s, r) && Continues(r, u)
    ensures Continues(s, u)
  {
  }

  /** The next command of the log has been overwritten for this connection. */
  predicate Overwritten(w: Params, s: State, id: nat) {
    id in s.conns && |s.log| - Position(s.conns[id]) > w.capacity
  }

  /** Then no later command ever reaches its handler, whatever happens. */
  lemma OverwrittenForGood(w: Params, s: State, move: Move, id: nat)
    requires Overwritten(w, s, id) && s.nextId !in s.conns
    ensures Overwritten(w, Next(w, s, move), id)
    ensures Next(w, s, move).conns[id].conn.received == s.conns[id].conn.received
  {
    hide C.Step, L.Step, Continue, Look, ServerCan, Advance;
    match move {
      case ConnectionMoves(other, input) => AdvanceLagged(w, s, other, input, id);
      case ConnectionReceives(other) =>
        if other in s.conns && Receive(w, s, s.conns[other]).Some? {
          AdvanceLagged(w, s, other, Receive(w, s, s.conns[other]).value, id);
        }
      case ConnectionAborted(other) => AdvanceLagged(w, s, other, C.Abort, id);
      case _ =>
    }
  }

  lemma AdvanceLagged(w: Params, s: State, other: nat, input: C.Input, id: nat)
    requires Overwritten(w, s, id)
    ensures other in s.conns && (other == id ==> !input.Received?) ==>
      && Overwritten(w, Advance(s, other, input), id)
      && Advance(s, other, input).conns[id].conn.received == s.conns[id].conn.received
  {
    WhatIsReceived(s.conns[id].conn, input);
    hide C.Step;
  }

  lemma {:induction false} LaggedNeverResumes(w: Params, moves: seq<Move>, later: seq<Move>, id: nat)
    requires w.policy.Valid() && Overwritten(w, Run(w, moves), id)
    ensures Overwritten(w, Run(w, moves + later), id)
    ensures Run(w, moves + later).conns[id].conn.received == Run(w, moves).conns[id].conn.received
  {
    hide Next, TaskKept, FanOutKept, ConnectionsKept, CallsKept, WaitersKept;
    if later == [] {
      assert moves + later == moves;
    } else {
      var n := |later| - 1;
      LaggedNeverResumes(w, moves, later[..n], id);
      EveryState(w, moves + later[..n]);
      OverwrittenForGood(w, Run(w, moves + later[..n]), later[n], id);
      assert (moves + later)[..|moves + later| - 1] == moves + later[..n];
    }
  }

  /** A receive hands over the next command of the log if it is still retained
      and otherwise closes the connection as lagged, saying how many it missed. */
  lemma ReceiveServesOrCloses(w: Params, s: State, id: nat)
    requires Running(s, id) && s.conns[id].conn.pc == C.Idle && Position(s.conns[id]) < |s.log|
    ensures var m := s.conns[id];
      var c := Next(w, s, ConnectionReceives(id)).conns[id].conn;
      if Overwritten(w, s, id)
      then c.pc == C.Parting(C.Lagged(|s.log| - w.capacity - Position(m)))
      else c.pc == C.Handling && c.events == m.conn.events + [C.CommandEvent(s.log[Position(m)])]
  {
    hide L.Step, Admit, Continue, Look, C.Step;
    var input := Receive(w, s, s.conns[id]).value;
    assert C.Step(s.conns[id].conn, input) == C.Select(s.conns[id].conn, input) by { IdleSelects(s.conns[id].conn, input); }
  }

  lemma IdleSelects(c: C.Conn, input: C.Input)
    requires c.pc == C.Idle && input != C.Abort
    ensures C.Step(c, input) == C.Select(c, input)
  {
  }

  /** `dispatch` counts the connections it queued for; each of them has the
      command ahead of it, exactly once more than before. */
  lemma DispatchQueuesForEveryConnection(w: Params, s: State, caller: nat)
    requires BudgetKept(w, s.active, s.nextId, s.conns, s.live) && FanOutKept(s.log, s.conns)
    requires caller in s.calls && s.calls[caller].pc == Sending
    ensures var s1 := Next(w, s, DispatchContinues(caller));
      && s1.calls[caller].pc == Answered(Queued(s.active))
      && (s.active == 0 ==> s1.log == s.log)
      && (s.active > 0 ==> s1.log == s.log + [s.calls[caller].command])
      && (forall id: nat :: id in s.live ==> id in s1.conns && Position(s1.conns[id]) < |s1.log|)
  {
  }

  /** A look decides: Reached exactly on the expected status, Settled exactly on
      another final one, and otherwise the waiter looks on. */
  lemma LookDecides(w: Params, s: State, waiter: nat)
    requires waiter in s.waiters && s.waiters[waiter].pc == Looking
    ensures var r, expected := Next(w, s, WaiterLooks(waiter)).waiters[waiter], s.waiters[waiter].expected;
      && (r.pc == Reached <==> Status(s) == expected)
      && (r.pc.Settled? <==> L.IsFinal(Status(s)) && Status(s) != expected)
      && (r.pc == Looking <==> !L.IsFinal(Status(s)) && Status(s) != expected)
  {
    hide L.Step, Admit, Continue, C.Step;
  }
}
