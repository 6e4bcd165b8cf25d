/** What every run of the two managed client loops satisfies. */
module ClientTheorems {
  import opened Prelude
  import opened Wire
  import opened ClientTrace
  import opened ClientLoop
  import opened ClientInvariant
  import opened ClientReadings
  import Reconnect

  // ---- Both loops, seen as sequences of steps ----

  ghost predicate Execution(w: World, cs: seq<Client>, script: seq<Input>) {
    && |cs| == |script| + 1 && cs[0] == Initial()
    && forall i :: 0 <= i < |script| ==>
                     Advances(w, cs[i], script[i], cs[i + 1]) && KeepsSettled(w, cs[i], cs[i + 1])
  }

  function Taken(c: Client): seq<Command> {
    LedgerOf(c.trace).taken
  }

  lemma InitialSound(w: World)
    ensures Sound(w, Initial()) && LedgerOf(Initial().trace) == Ledger([], [], [], 0, [], [], false, false) && Line(Initial()) == []
  {
  }

  /** The states of the plain loop along a script, the last one its run. */
  function PlainStates(w: World, script: seq<Input>): seq<Client> {
    seq(|script| + 1, i requires 0 <= i <= |script| => Run(w, script[..i]))
  }

  function HealthStates(w: World, health: Health, created: Instant, script: seq<Input>): seq<Client> {
    seq(|script| + 1, i requires 0 <= i <= |script| => HealthRun(w, health, created, script[..i]).client)
  }

  lemma {:induction false} RunSound(w: World, script: seq<Input>)
    ensures Sound(w, Run(w, script))
  {
    hide Step, Sound;
    InitialSound(w);
    if script != [] {
      RunSound(w, script[..|script| - 1]);
      StepSound(w, Run(w, script[..|script| - 1]), script[|script| - 1]);
    }
  }

  lemma {:induction false} HealthRunSound(w: World, health: Health, created: Instant, script: seq<Input>)
    ensures Sound(w, HealthRun(w, health, created, script).client)
  {
    hide HealthStep, Sound;
    InitialSound(w);
    if script != [] {
      var n := |script| - 1;
      HealthRunSound(w, health, created, script[..n]);
      HealthStepSound(w, health, HealthRun(w, health, created, script[..n]), script[n]);
    }
  }

  /** Each state of a run of the plain loop follows from the one before as the
      invariant says. */
  lemma PlainExecution(w: World, script: seq<Input>)
    ensures Execution(w, PlainStates(w, script), script)
  {
    hide Step, Advances, KeepsSettled, Sound;
    var cs := PlainStates(w, script);
    assert script[..0] == [];
    forall i | 0 <= i < |script|
      ensures Advances(w, cs[i], script[i], cs[i + 1]) && KeepsSettled(w, cs[i], cs[i + 1])
    {
      RunSound(w, script[..i]);
      assert script[..i + 1][..i] == script[..i];
      StepSound(w, Run(w, script[..i]), script[i]);
    }
  }

  lemma HealthExecution(w: World, health: Health, created: Instant, script: seq<Input>)
    ensures Execution(w, HealthStates(w, health, created, script), script)
  {
    hide HealthStep, Advances, KeepsSettled, Sound;
    var cs := HealthStates(w, health, created, script);
    assert script[..0] == [];
    forall i | 0 <= i < |script|
      ensures Advances(w, cs[i], script[i], cs[i + 1]) && KeepsSettled(w, cs[i], cs[i + 1])
    {
      HealthRunSound(w, health, created, script[..i]);
      assert script[..i + 1][..i] == script[..i];
      HealthStepSound(w, health, HealthRun(w, health, created, script[..i]), script[i]);
    }
  }

  lemma LastSound(w: World, cs: seq<Client>, script: seq<Input>)
    requires Execution(w, cs, script)
    ensures Sound(w, cs[|script|])
  {
    hide Sound;
    InitialSound(w);
    if script != [] {
      assert Advances(w, cs[|script| - 1], script[|script| - 1], cs[|script|]);
    }
  }

  // ---- Commands: conservation and order ----

  lemma ExecutionPrefix(w: World, cs: seq<Client>, script: seq<Input>)
    requires Execution(w, cs, script) && script != []
    ensures Execution(w, cs[..|script|], script[..|script| - 1])
  {
    hide Advances, KeepsSettled;
  }

  /** The commands the loop has received from its channel. */
  function Consumed(cs: seq<Client>, script: seq<Input>): seq<Command>
    requires |cs| == |script| + 1
    decreases |script|
  {
    if script == [] then []
    else
      var n := |script| - 1;
      Consumed(cs[..n + 1], script[..n])
      + (if cs[n].phase == InSession || cs[n].phase == Waiting then Given(script[n]) else [])
  }

  /** What became of the commands: attempted or queued, obeyed, or consumed by a wait. */
  function Fates(c: Client): multiset<Command> {
    multiset(Line(c)) + multiset(LedgerOf(c.trace).control) + multiset(LedgerOf(c.trace).discarded)
  }

  function WorkOf(c: Client, input: Input): seq<Command> {
    if Work(c, input).Some? then [Work(c, input).value] else []
  }

  lemma LineConserves(c: Client, input: Input, r: Client)
    requires Advanced(c, input, r)
    ensures multiset(Line(r)) == multiset(Line(c)) + multiset(WorkOf(c, input))
    ensures multiset(Taken(r)) == multiset(Taken(c)) + multiset(WorkOf(c, input))
  {
    hide Commands, LedgerOf, Work, Given;
    if Work(c, input).Some? {
      var done, x := Commands(LedgerOf(c.trace).attempts), Work(c, input).value;
      assert multiset(done + [x] + c.pending) == multiset(done + c.pending) + multiset{x};
    }
  }

  /** A command given to a session is work for the line or is obeyed; one given
      to a wait is consumed. */
  lemma AsideConserves(c: Client, input: Input, r: Client)
    requires Advanced(c, input, r)
    ensures var before, after := LedgerOf(c.trace), LedgerOf(r.trace);
      multiset(WorkOf(c, input)) + multiset(after.control) + multiset(after.discarded)
      == multiset(before.control) + multiset(before.discarded)
         + multiset(if c.phase == InSession || c.phase == Waiting then Given(input) else [])
  {
    hide Commands, LedgerOf, Line;
  }

  lemma StepConserves(c: Client, input: Input, r: Client)
    requires Advanced(c, input, r)
    ensures Fates(r) == Fates(c) + multiset(if c.phase == InSession || c.phase == Waiting then Given(input) else [])
    ensures multiset(Taken(c)) == multiset(Line(c)) ==> multiset(Taken(r)) == multiset(Line(r))
  {
    hide Commands, LedgerOf, Line, Taken, Advanced, Given, WorkOf;
    LineConserves(c, input, r);
    AsideConserves(c, input, r);
    var after := LedgerOf(r.trace);
    assert Fates(r) ==
      multiset(Line(c)) + (multiset(WorkOf(c, input)) + multiset(after.control) + multiset(after.discarded));
  }

  /** Every command received is attempted once, still queued, a control command
      obeyed by a session, or was consumed by a wait; none is lost or duplicated. */
  lemma {:induction false} CommandsConserved(w: World, cs: seq<Client>, script: seq<Input>)
    requires Execution(w, cs, script)
    ensures multiset(Consumed(cs, script)) == Fates(cs[|script|])
    ensures multiset(Taken(cs[|script|])) == multiset(Line(cs[|script|]))
  {
    hide Sound, Commands, LedgerOf, KeepsSettled, Advanced, Taken, Line, Given;
    InitialSound(w);
    if script == [] {
      NoCommandsYet();
    } else {
      var n := |script| - 1;
      ExecutionPrefix(w, cs, script);
      CommandsConserved(w, cs[..|script|], script[..n]);
      assert Advances(w, cs[n], script[n], cs[n + 1]);
      hide Fates;
      StepConserves(cs[n], script[n], cs[n + 1]);
    }
  }

  lemma NoCommandsYet()
    ensures Fates(Initial()) == multiset{} && Taken(Initial()) == [] && Line(Initial()) == []
  {
  }

  /** A command overtakes: it is attempted at once while others are queued. */
  predicate OvertakesAt(c: Client, input: Input) {
    Work(c, input).Some? && c.authenticated && c.pending != []
  }

  predicate Overtakes(cs: seq<Client>, script: seq<Input>)
    requires |cs| == |script| + 1
  {
    exists i :: 0 <= i < |script| && OvertakesAt(cs[i], script[i])
  }

  predicate Distinct<T(==)>(s: seq<T>) {
    forall i, j :: 0 <= i < j < |s| ==> s[i] != s[j]
  }

  /** Where nothing overtakes, commands are attempted in the order taken. */
  lemma {:induction false} NoOvertakingKeepsOrder(w: World, cs: seq<Client>, script: seq<Input>)
    requires Execution(w, cs, script) && !Overtakes(cs, script)
    ensures Line(cs[|script|]) == Taken(cs[|script|])
  {
    hide Sound, Commands, LedgerOf, KeepsSettled, Given;
    InitialSound(w);
    if script != [] {
      var n := |script| - 1;
      assert Advances(w, cs[n], script[n], cs[n + 1]);
      ExecutionPrefix(w, cs, script);
      assert !OvertakesAt(cs[n], script[n]);
      assert forall i :: 0 <= i < n && OvertakesAt(cs[..|script|][i], script[..n][i]) ==> OvertakesAt(cs[i], script[i]);
      NoOvertakingKeepsOrder(w, cs[..|script|], script[..n]);
    }
  }

  /** And only there, as far as commands can be told apart: with equal commands
      an overtaken order can look the same. */
  lemma {:induction false} InOrderIffNoOvertaking(w: World, cs: seq<Client>, script: seq<Input>)
    requires Execution(w, cs, script) && Distinct(Taken(cs[|script|]))
    ensures Line(cs[|script|]) == Taken(cs[|script|]) <==> !Overtakes(cs, script)
  {
    hide Sound, Commands, LedgerOf, KeepsSettled;
    InitialSound(w);
    if script != [] {
      var n := |script| - 1;
      var c, r := cs[n], cs[n + 1];
      assert Advances(w, c, script[n], r);
      ExecutionPrefix(w, cs, script);
      assert Taken(c) <= Taken(r);
      InOrderIffNoOvertaking(w, cs[..|script|], script[..n]);
      if Work(c, script[n]).Some? {
        OrderAfterTaking(w, c, script[n], r, cs[..|script|], script[..n]);
      }
      assert Overtakes(cs, script) <==> Overtakes(cs[..|script|], script[..n]) || OvertakesAt(c, script[n]);
    }
  }

  lemma OrderAfterTaking(w: World, c: Client, input: Input, r: Client, cs: seq<Client>, script: seq<Input>)
    requires Execution(w, cs, script) && c == cs[|script|] && Advances(w, c, input, r)
    requires Work(c, input).Some? && Distinct(Taken(r))
    ensures Line(r) == Taken(r) <==> Line(c) == Taken(c) && !OvertakesAt(c, input)
  {
    hide Sound, Commands, LedgerOf, KeepsSettled, Given, Fates;
    var x := Work(c, input).value;
    CommandsConserved(w, cs, script);
    assert forall i :: 0 <= i < |Taken(c)| ==> Taken(c)[i] == Taken(r)[i] != Taken(r)[|Taken(c)|];
    assert x !in multiset(Taken(c));
    var done := Commands(LedgerOf(c.trace).attempts);
    if OvertakesAt(c, input) {
      var last := c.pending[|c.pending| - 1];
      assert Line(r)[|Line(r)| - 1] == last;
      assert last in multiset(Line(c));
    } else {
      assert Line(r) == Line(c) + [x];
      assert Line(r)[..|Line(c)|] == Line(c) && Taken(r)[..|Taken(c)|] == Taken(c);
    }
  }

  /** With one session mode throughout, order is kept and an authenticated session has no queue. */
  lemma {:induction false} FixedModeKeepsOrder(w: World, mode: SessionMode, cs: seq<Client>, script: seq<Input>)
    requires Execution(w, cs, script) && FixedMode(w, mode)
    ensures Line(cs[|script|]) == Taken(cs[|script|]) && QueueSettled(mode, cs[|script|])
    ensures !Overtakes(cs, script)
  {
    hide Sound, Commands, LedgerOf;
    InitialSound(w);
    if script != [] {
      var n := |script| - 1;
      assert Advances(w, cs[n], script[n], cs[n + 1]) && KeepsSettled(w, cs[n], cs[n + 1]);
      ExecutionPrefix(w, cs, script);
      FixedModeKeepsOrder(w, mode, cs[..|script|], script[..n]);
      assert !OvertakesAt(cs[n], script[n]);
    }
  }

  // ---- The queue is overtaken when the session mode changes ----

  /** A quiet endpoint that demands authentication on its first connection only. */
  function ModeChangingWorld(): World {
    World((_, _) => None, _ => None,
          t => if LedgerOf(t).session <= 1 then AuthGated else Public,
          (_, _) => None, (_, _, _) => None, (_, _) => None,
          (_, _) => Parsed(Continue), (_, _, _) => ContinueAfterError,
          (_, _) => ImmediateReconnect, _ => [], (_, _) => Accepted([]), (_, _) => [],
          _ => true, _ => 0.0)
  }

  lemma QuietGreet(c: Client)
    ensures var greeted := Greet(ModeChangingWorld(), c);
            && greeted.error == None
            && LedgerOf(greeted.trace) == LedgerOf(c.trace).(session := LedgerOf(c.trace).session + 1)
  {
    hide Emit, Life, GateOf, DrawsOf, LedgerOf, SendFrame;
  }

  lemma QuietReplay(t: Trace)
    ensures var r := ReplaySubscriptions(ModeChangingWorld(), t); r.error == None && LedgerOf(r.trace) == LedgerOf(t)
  {
    hide Emit, Life, GateOf, DrawsOf, LedgerOf;
  }

  lemma QuietConnect(c: Client)
    requires c.phase == Dialing
    ensures var r := Step(ModeChangingWorld(), c, ConnectOk(0));
            && r.phase == InSession && r.pending == c.pending
            && r.authenticated == (LedgerOf(c.trace).session >= 1)
            && LedgerOf(r.trace) == LedgerOf(c.trace).(session := LedgerOf(c.trace).session + 1, waiting := false)
  {
    hide Emit, Life, GateOf, DrawsOf, LedgerOf, Leave, Greet, ReplaySubscriptions;
    var c1 := c.(trace := Emit(c.trace, ConnectTried(None)));
    QuietGreet(c1);
    var t := Greet(ModeChangingWorld(), c1).trace;
    QuietReplay(Emit(t, ModeRead(Public)));
  }

  lemma ImmediateDelay(w: World, t: Trace)
    ensures ReconnectDelay(w, t, ImmediateReconnect) == Chosen(t, Some(0.0))
  {
  }

  lemma QuietDepart(c: Client, cause: Cause)
    ensures var gone := Depart(ModeChangingWorld(), c, cause, true);
            && gone.delay == Some(0.0) && gone.client.pending == c.pending
            && LedgerOf(gone.client.trace) == LedgerOf(c.trace)
  {
    hide Emit, LifecycleStep, GateStep, DrawsStep, Life, GateOf, DrawsOf, LedgerOf, ReconnectDelay, NotifyDisconnect;
    var t := StoreStatus(c, Disconnected).trace;
    ImmediateDelay(ModeChangingWorld(), Emit(t, Classified(cause, ImmediateReconnect)));
  }

  lemma QuietLoss(c: Client)
    requires c.phase == InSession
    ensures var r := Step(ModeChangingWorld(), c, EndOfStream);
            && r.phase == Dialing && r.pending == c.pending
            && LedgerOf(r.trace) == LedgerOf(c.trace).(waiting := false)
  {
    hide Emit, LifecycleStep, GateStep, DrawsStep, Life, GateOf, DrawsOf, LedgerOf, ClientLoop.Open, OnCommand, OnFrame,
         Depart, ModeChangingWorld;
    QuietDepart(c.(trace := Emit(c.trace, StreamEnded)), RemoteClosed);
  }

  lemma QuietWrite(t: Trace, payload: Bytes)
    ensures AttemptCommand(ModeChangingWorld(), t, Send(payload)).error == None
  {
  }

  lemma QuietCommand(c: Client, payload: Bytes)
    requires c.phase == InSession
    ensures var r := Step(ModeChangingWorld(), c, Received(Some(Send(payload))));
            var l := LedgerOf(c.trace).(taken := LedgerOf(c.trace).taken + [Send(payload)]);
            && r.phase == InSession
            && if c.authenticated then
                 r.pending == c.pending && LedgerOf(r.trace) == l.(attempts := l.attempts + [Attempt(Send(payload), l.session, true)])
               else
                 r.pending == c.pending + [Send(payload)] && LedgerOf(r.trace) == l
  {
    hide Emit, Life, GateOf, DrawsOf, LedgerOf, Leave, IntoFrame, SendFrame;
    var t := Emit(c.trace, Took(Send(payload)));
    assert AttemptCommand(ModeChangingWorld(), t, Send(payload)).error == None by { QuietWrite(t, payload); }
    hide AttemptCommand, ModeChangingWorld;
  }

  lemma OvertakingHappens()
    ensures var a, b := Send([1]), Send([2]);
            var c := Run(ModeChangingWorld(),
                         [ConnectOk(0), Received(Some(a)), EndOfStream, ConnectOk(0), Received(Some(b))]);
            Taken(c) == [a, b] && Line(c) == [b, a]
  {
    hide Step, Run, Life, GateOf, DrawsOf, LedgerOf, ModeChangingWorld, Initial;
    var w := ModeChangingWorld();
    var a, b := Send([1]), Send([2]);
    var s := [ConnectOk(0), Received(Some(a)), EndOfStream, ConnectOk(0), Received(Some(b))];
    RunNone(w);
    var c0 := Run(w, []);
    var c1 := Step(w, c0, s[0]);
    QuietConnect(c0);
    var c2 := Step(w, c1, s[1]);
    QuietCommand(c1, [1]);
    var c3 := Step(w, c2, s[2]);
    QuietLoss(c2);
    var c4 := Step(w, c3, s[3]);
    QuietConnect(c3);
    var c5 := Step(w, c4, s[4]);
    QuietCommand(c4, [2]);
    assert Line(c5) == [b, a];
    RunFive(w, s[0], s[1], s[2], s[3], s[4]);
  }

  lemma RunFive(w: World, i: Input, j: Input, k: Input, l: Input, m: Input)
    ensures Run(w, [i, j, k, l, m]) == Step(w, Step(w, Step(w, Step(w, Step(w, Run(w, []), i), j), k), l), m)
  {
    hide Step, Run;
    RunOne(w, [i, j, k, l], m);
    assert [i, j, k, l] + [m] == [i, j, k, l, m];
    RunOne(w, [i, j, k], l);
    assert [i, j, k] + [l] == [i, j, k, l];
    RunOne(w, [i, j], k);
    assert [i, j] + [k] == [i, j, k];
    RunOne(w, [i], j);
    assert [i] + [j] == [i, j];
    RunOne(w, [], i);
    assert [] + [i] == [i];
  }

  lemma RunNone(w: World)
    ensures var c := Run(w, []);
            c.phase == Dialing && c.pending == [] && LedgerOf(c.trace) == Ledger([], [], [], 0, [], [], false, false)
  {
  }

  lemma RunOne(w: World, script: seq<Input>, input: Input)
    ensures Run(w, script + [input]) == Step(w, Run(w, script), input)
  {
    hide Step;
    assert (script + [input])[..|script|] == script;
  }

  // ---- A wait consumes the command that ends it ----

  /** A command to send is lost exactly when it is received during a wait; in a
      session it is attempted or queued. */
  lemma LostIffWaiting(w: World, script: seq<Input>, command: Command)
    requires RequiresAuth(command)
    ensures var before, after := Run(w, script), Run(w, script + [Received(Some(command))]);
            && (LedgerOf(after.trace).discarded == LedgerOf(before.trace).discarded + [command] <==> before.phase == Waiting)
            && (Taken(after) == Taken(before) + [command] <==> before.phase == InSession)
  {
    hide Step, Sound, Commands, LedgerOf, KeepsSettled, Line;
    RunSound(w, script);
    StepSound(w, Run(w, script), Received(Some(command)));
    RunOne(w, script, Received(Some(command)));
  }

  /** An endpoint that backs off for one second whenever it cannot connect. */
  function BackingOffWorld(): World {
    ModeChangingWorld().(classify := (_, _) => BackoffReconnect, nextDelay := _ => 1.0)
  }

  lemma CommandLostInWait()
    ensures var a := Send([1]);
            var c := Run(BackingOffWorld(), [ConnectFailed("refused"), Received(Some(a))]);
            LedgerOf(c.trace).discarded == [a] && Taken(c) == [] && Line(c) == []
  {
    hide Run, Life, GateOf, DrawsOf, LedgerOf, Emit, Step;
    var w, a := BackingOffWorld(), Send([1]);
    RunNone(w);
    RefusedWaits(Run(w, []));
    RunOne(w, [], ConnectFailed("refused"));
    assert [] + [ConnectFailed("refused")] == [ConnectFailed("refused")];
    LostIffWaiting(w, [ConnectFailed("refused")], a);
    assert [ConnectFailed("refused")] + [Received(Some(a))] == [ConnectFailed("refused"), Received(Some(a))];
    var c1 := Run(w, [ConnectFailed("refused")]);
    RunSound(w, [ConnectFailed("refused")]);
    StepSound(w, c1, Received(Some(a)));
    RunOne(w, [ConnectFailed("refused")], Received(Some(a)));
  }

  lemma RefusedWaits(c: Client)
    requires c.phase == Dialing
    ensures var r := Step(BackingOffWorld(), c, ConnectFailed("refused"));
            && r.phase == Waiting && r.pending == c.pending
            && LedgerOf(r.trace).discarded == LedgerOf(c.trace).discarded
            && LedgerOf(r.trace).taken == LedgerOf(c.trace).taken
            && LedgerOf(r.trace).attempts == LedgerOf(c.trace).attempts
  {
    hide Emit, LifecycleStep, GateStep, DrawsStep, Life, GateOf, DrawsOf, LedgerOf, ClientLoop.Open, OnCommand, OnFrame;
  }

  // ---- What holds at the end of every run ----

  /** One session's failed attempt is its last; each non-zero wait consumes at
      most one command, and nothing else is consumed. */
  lemma AttemptsAndWaits(w: World, cs: seq<Client>, script: seq<Input>)
    requires Execution(w, cs, script)
    ensures var l := LedgerOf(cs[|script|].trace);
            && (forall i, j :: 0 <= i < j < |l.attempts| && l.attempts[i].session == l.attempts[j].session ==>
                                 l.attempts[i].ok)
            && !l.astray && (forall i :: 0 <= i < |l.waits| ==> l.waits[i] <= 1)
  {
    LastSound(w, cs, script);
  }

  /** Frames are written in the permitted order, and notifications form the lifecycle grammar. */
  lemma WritesGuardedAndNotificationsRegular(w: World, cs: seq<Client>, script: seq<Input>)
    requires Execution(w, cs, script)
    ensures Guarded(cs[|script|].trace)
    ensures Regular(Notifications(cs[|script|].trace))
    ensures FlagsRight(cs[|script|].trace)
  {
    LastSound(w, cs, script);
    GateGuards(cs[|script|].trace);
    LifeIsRegular(cs[|script|].trace);
  }

  /** A loop that has returned left the status at Disconnected; an open session shows Connected. */
  lemma StatusFollowsPhase(w: World, cs: seq<Client>, script: seq<Input>)
    requires Execution(w, cs, script)
    ensures cs[|script|].status == match cs[|script|].phase
                                   case Dialing => Connecting
                                   case InSession => Connected
                                   case Waiting => Disconnected
                                   case Stopped => Disconnected
  {
    LastSound(w, cs, script);
  }

  /** The reconnect strategy is an exponential backoff object. */
  ghost predicate BacksOff(w: World, p: Reconnect.Policy) {
    p.Valid() && forall t :: w.nextDelay(t) == Reconnect.DelayAt(p, DrawsOf(t).sinceReset)
  }

  /** The delay drawn after `k` others since the last successful connect is the k-th term. */
  lemma BackoffThroughTheLoop(w: World, p: Reconnect.Policy, cs: seq<Client>, script: seq<Input>)
    requires Execution(w, cs, script) && BacksOff(w, p)
    ensures var log := DrawsOf(cs[|script|].trace).log;
            forall i :: 0 <= i < |log| ==> log[i].delay == Reconnect.DelayAt(p, log[i].k)
  {
    LastSound(w, cs, script);
  }

  // ---- All of it, for both loops ----

  /** What every command received came to, and in which order. */
  ghost predicate CommandLaws(w: World, cs: seq<Client>, script: seq<Input>)
    requires |cs| == |script| + 1
  {
    var c := cs[|script|];
    var l := LedgerOf(c.trace);
    && multiset(Consumed(cs, script)) == Fates(c)
    && multiset(Taken(c)) == multiset(Line(c))
    && !l.astray && (forall i :: 0 <= i < |l.waits| ==> l.waits[i] <= 1)
    && (forall i, j :: 0 <= i < j < |l.attempts| && l.attempts[i].session == l.attempts[j].session ==>
                         l.attempts[i].ok)
    && (!Overtakes(cs, script) ==> Line(c) == Taken(c))
    && (Distinct(Taken(c)) && Overtakes(cs, script) ==> Line(c) != Taken(c))
    && (forall mode | FixedMode(w, mode) :: !Overtakes(cs, script) && QueueSettled(mode, c))
  }

  /** What the trace of a run looks like from outside. */
  ghost predicate TraceLaws(w: World, c: Client) {
    var log := DrawsOf(c.trace).log;
    && Guarded(c.trace) && Regular(Notifications(c.trace)) && FlagsRight(c.trace)
    && (c.phase == Stopped ==> c.status == Disconnected)
    && (forall p | BacksOff(w, p) ::
          forall i :: 0 <= i < |log| ==> log[i].delay == Reconnect.DelayAt(p, log[i].k))
  }

  ghost predicate Lawful(w: World, cs: seq<Client>, script: seq<Input>) {
    |cs| == |script| + 1 && CommandLaws(w, cs, script) && TraceLaws(w, cs[|script|])
  }

  lemma ExecutionKeepsCommandLaws(w: World, cs: seq<Client>, script: seq<Input>)
    requires Execution(w, cs, script)
    ensures CommandLaws(w, cs, script)
  {
    assert |cs| == |script| + 1;
    hide Execution, Line, QueueSettled, Taken, Overtakes, Distinct, Fates, Consumed, FixedMode;
    CommandsConserved(w, cs, script);
    AttemptsAndWaits(w, cs, script);
    if !Overtakes(cs, script) {
      NoOvertakingKeepsOrder(w, cs, script);
    } else if Distinct(Taken(cs[|script|])) {
      InOrderIffNoOvertaking(w, cs, script);
    }
    forall mode | FixedMode(w, mode) ensures !Overtakes(cs, script) && QueueSettled(mode, cs[|script|]) {
      FixedModeKeepsOrder(w, mode, cs, script);
    }
  }

  lemma ExecutionKeepsTraceLaws(w: World, cs: seq<Client>, script: seq<Input>)
    requires Execution(w, cs, script)
    ensures TraceLaws(w, cs[|script|])
  {
    assert |cs| == |script| + 1;
    hide Execution, Guarded, Regular, FlagsRight, BacksOff;
    WritesGuardedAndNotificationsRegular(w, cs, script);
    StatusFollowsPhase(w, cs, script);
    forall p | BacksOff(w, p)
      ensures var log := DrawsOf(cs[|script|].trace).log;
              forall i :: 0 <= i < |log| ==> log[i].delay == Reconnect.DelayAt(p, log[i].k)
    {
      BackoffThroughTheLoop(w, p, cs, script);
    }
  }

  lemma ExecutionLawful(w: World, cs: seq<Client>, script: seq<Input>)
    requires Execution(w, cs, script)
    ensures Lawful(w, cs, script)
  {
    assert |cs| == |script| + 1;
    hide CommandLaws, TraceLaws, Execution;
    ExecutionKeepsCommandLaws(w, cs, script);
    ExecutionKeepsTraceLaws(w, cs, script);
  }

  lemma EveryPlainRun(w: World, script: seq<Input>)
    ensures Lawful(w, PlainStates(w, script), script)
    ensures PlainStates(w, script)[|script|] == Run(w, script)
  {
    hide Execution, Run, Lawful;
    PlainExecution(w, script);
    ExecutionLawful(w, PlainStates(w, script), script);
    assert script[..|script|] == script;
  }

  lemma EveryHealthRun(w: World, health: Health, created: Instant, script: seq<Input>)
    ensures Lawful(w, HealthStates(w, health, created, script), script)
    ensures HealthStates(w, health, created, script)[|script|] == HealthRun(w, health, created, script).client
  {
    hide Execution, HealthRun, Lawful;
    HealthExecution(w, health, created, script);
    ExecutionLawful(w, HealthStates(w, health, created, script), script);
    assert script[..|script|] == script;
  }
}
