/** The server task `run_server` of src/ws/server/runtime.rs as a machine: bind
    and rebind under the retry policy, publish statuses, drain. */
module ServerLifecycle {
  import opened Prelude
  import opened ServerConfig

  datatype Status = Starting | Retrying | Listening | ShuttingDown | Stopped | Terminal

  predicate IsFinal(s: Status) { s == Stopped || s == Terminal }

  datatype TerminalError =
    | BindRetryExhausted(attempts: nat, error: string)
    | AcceptRetryExhausted(attempts: nat, error: string)
    | InternalLoopFailure(reason: string)

  datatype FailureOrigin = BindOrigin | AcceptOrigin

  datatype Pc =
    | AtTop            // about to look at the shutdown flag and bind
    | Accepting        // in the accept loop
    | Sleeping         // in the backoff wait
    | CauseStored      // terminal cause written, status not yet published
    | AbortingAll      // after Terminal: connection tasks aborted, being joined
    | Draining         // after ShuttingDown: connection tasks being joined
    | DrainAborting    // the drain timed out: aborted, being joined
    | Returned

  /** What happened to the listener, for the retry account. */
  datatype Happening = Bound | BindFailed | ListenerGone | Slept(failures: nat, duration: nat)

  datatype Task = Task(
    pc: Pc,
    backoff: nat,
    failures: nat,
    origin: FailureOrigin,
    published: seq<Status>,
    terminal: Option<TerminalError>,
    history: seq<Happening>)

  datatype Input =
    | SawShutdown                     // the shutdown flag, wherever it is looked at
    | BindOk
    | BindError(error: string)
    | AcceptFault(reason: string)     // the accept loop failed unrecoverably
    | ListenerLost(error: string)
    | SleepOver
    | CausePublished
    | AllJoined
    | DrainTimeout

  /** `set_status`: never overwrites a terminal end state. */
  function SetStatus(t: Task, s: Status): Task {
    if t.terminal.Some? && s != Terminal then t else t.(published := t.published + [s])
  }

  /** The first half of `set_terminal`; the cause is written at most once. */
  function StoreCause(t: Task, error: TerminalError): Task {
    t.(pc := CauseStored, terminal := if t.terminal.Some? then t.terminal else Some(error))
  }

  function Fail(p: RetryPolicy, t: Task, happening: Happening, error: string): Task {
    var t1 := t.(failures := t.failures + 1, history := t.history + [happening]);
    if p.IsExhausted(t1.failures) then
      StoreCause(t1, if t1.origin == BindOrigin then BindRetryExhausted(t1.failures, error)
                     else AcceptRetryExhausted(t1.failures, error))
    else SetStatus(t1, Retrying).(pc := Sleeping)
  }

  function Close(t: Task): Task {
    SetStatus(t, ShuttingDown).(pc := Draining)
  }

  function Finish(t: Task): Task {
    SetStatus(t, Stopped).(pc := Returned)
  }

  function Step(p: RetryPolicy, t: Task, input: Input): Task {
    match t.pc
    case AtTop =>
      (match input
       case SawShutdown => Close(t)
       case BindOk =>
         SetStatus(t.(failures := 0, backoff := p.initialBackoff, origin := AcceptOrigin,
                      history := t.history + [Bound]), Listening).(pc := Accepting)
       case BindError(error) => Fail(p, t, BindFailed, error)
       case _ => t)
    case Accepting =>
      (match input
       case SawShutdown => Close(t)
       case AcceptFault(reason) => StoreCause(t, InternalLoopFailure(reason))
       case ListenerLost(error) => Fail(p, t, ListenerGone, error)
       case _ => t)
    case Sleeping =>
      (match input
       case SawShutdown => Close(t)
       case SleepOver =>
         t.(pc := AtTop, backoff := p.NextBackoff(t.backoff), history := t.history + [Slept(t.failures, t.backoff)])
       case _ => t)
    case CauseStored => if input == CausePublished then SetStatus(t, Terminal).(pc := AbortingAll) else t
    case AbortingAll => if input == AllJoined then t.(pc := Returned) else t
    case Draining =>
      if input == AllJoined then Finish(t) else if input == DrainTimeout then t.(pc := DrainAborting) else t
    case DrainAborting => if input == AllJoined then Finish(t) else t
    case Returned => t
  }

  function Initial(p: RetryPolicy): Task {
    Task(AtTop, p.initialBackoff, 0, BindOrigin, [Starting], None, [])
  }

  function Run(p: RetryPolicy, script: seq<Input>): Task {
    if script == [] then Initial(p)
    else Step(p, Run(p, script[..|script| - 1]), script[|script| - 1])
  }

  // ---- Statuses: Starting, then Retrying/Listening, then an end ----

  /** No end yet; two Listening are never adjacent. */
  predicate Serving(s: seq<Status>) {
    && |s| >= 1 && s[0] == Starting
    && (forall i :: 1 <= i < |s| ==> s[i] == Retrying || s[i] == Listening)
    && (forall i :: 0 <= i < |s| - 1 ==> !(s[i] == Listening && s[i + 1] == Listening))
  }

  predicate Ended(s: seq<Status>, end: seq<Status>) {
    |s| >= |end| && s[|s| - |end|..] == end && Serving(s[..|s| - |end|])
  }

  predicate StatusesSound(t: Task) {
    var s := t.published;
    && (t.terminal.Some? <==> t.pc == CauseStored || t.pc == AbortingAll || (t.pc == Returned && Ended(s, [Terminal])))
    && match t.pc
       case AtTop => Serving(s) && s[|s| - 1] != Listening
       case Accepting => Serving(s) && s[|s| - 1] == Listening
       case Sleeping => Serving(s) && s[|s| - 1] == Retrying
       case CauseStored => Serving(s)
       case AbortingAll => Ended(s, [Terminal])
       case Draining => Ended(s, [ShuttingDown])
       case DrainAborting => Ended(s, [ShuttingDown])
       case Returned => Ended(s, [ShuttingDown, Stopped]) || Ended(s, [Terminal])
  }

  lemma ServingThen(s: seq<Status>, next: Status)
    requires Serving(s)
    ensures next == Retrying ==> Serving(s + [next])
    ensures next == Listening && s[|s| - 1] != Listening ==> Serving(s + [next])
    ensures Ended(s + [next], [next])
  {
    var r := s + [next];
    assert r[..|s|] == s && r[|s|..] == [next];
  }

  lemma EndedThen(s: seq<Status>)
    requires Ended(s, [ShuttingDown])
    ensures Ended(s + [Stopped], [ShuttingDown, Stopped]) && !Ended(s + [Stopped], [Terminal])
  {
    var n := |s| - 1;
    var r := s + [Stopped];
    assert r[..n] == s[..n] && r[n..] == s[n..] + [Stopped];
    assert r[n + 1..][0] == Stopped;
  }

  lemma EndedLast(s: seq<Status>, end: seq<Status>)
    requires Ended(s, end) && end != []
    ensures s[|s| - 1] == end[|end| - 1]
  {
    assert s[|s| - |end|..][|end| - 1] == s[|s| - 1];
  }

  /** What the last published status says about the phase, and back. */
  lemma LastStatus(t: Task)
    requires StatusesSound(t)
    ensures |t.published| >= 1
    ensures var last := t.published[|t.published| - 1];
      && (last == Terminal <==> t.terminal.Some? && t.pc != CauseStored)
      && (last == Stopped <==> t.pc == Returned && t.terminal.None?)
      && (last == ShuttingDown <==> t.pc == Draining || t.pc == DrainAborting)
      && (last == Listening ==> t.pc == Accepting || t.pc == CauseStored)
  {
    var s := t.published;
    if Ended(s, [Terminal]) { EndedLast(s, [Terminal]); }
    if Ended(s, [ShuttingDown]) { EndedLast(s, [ShuttingDown]); }
    if Ended(s, [ShuttingDown, Stopped]) { EndedLast(s, [ShuttingDown, Stopped]); }
  }

  predicate IsOpen(s: Status) { s == Starting || s == Retrying || s == Listening }

  /** While the current status is an open one, no end has ever been published. */
  lemma OpenSoFar(t: Task)
    requires StatusesSound(t) && t.published != [] && IsOpen(t.published[|t.published| - 1])
    ensures forall i :: 0 <= i < |t.published| ==> IsOpen(t.published[i])
  {
    LastStatus(t);
  }

  /** A graceful end was announced before it was reached. */
  lemma EndsAnnounced(t: Task)
    requires StatusesSound(t)
    ensures t.published != [] && (t.published[|t.published| - 1] == Stopped ==> ShuttingDown in t.published)
  {
    var s := t.published;
    LastStatus(t);
    if Ended(s, [ShuttingDown, Stopped]) {
      assert s[|s| - 2..][0] == s[|s| - 2];
    }
  }

  lemma StepStatuses(p: RetryPolicy, t: Task, input: Input)
    requires StatusesSound(t)
    ensures StatusesSound(Step(p, t, input))
  {
    hide Serving, Ended;
    var s := t.published;
    if t.pc == Draining || t.pc == DrainAborting {
      EndedThen(s);
    } else if Serving(s) {
      ServingThen(s, Retrying);
      ServingThen(s, Listening);
      ServingThen(s, ShuttingDown);
      ServingThen(s, Terminal);
    }
  }

  /** Nothing is taken back, a stored cause is never replaced, and nothing is
      published or stored after Stopped or Terminal. */
  predicate Grows(t: Task, u: Task) {
    && |t.published| >= 1
    && t.published <= u.published
    && t.history <= u.history
    && (t.terminal.Some? ==> u.terminal == t.terminal)
    && (IsFinal(t.published[|t.published| - 1]) ==> u.published == t.published && u.terminal == t.terminal)
  }

  lemma GrowsFurther(t: Task, u: Task, v: Task)
    requires Grows(t, u) && Grows(u, v)
    ensures Grows(t, v)
  {
  }

  lemma StepGrows(p: RetryPolicy, t: Task, input: Input)
    requires StatusesSound(t)
    ensures Grows(t, Step(p, t, input))
  {
    LastStatus(t);
    hide StatusesSound;
  }

  // ---- The retry account ----

  predicate IsFailure(h: Happening) { h == BindFailed || h == ListenerGone }

  /** The failures since the listener was last bound, oldest first. */
  function FailureRun(h: seq<Happening>): seq<Happening> {
    if h == [] then []
    else
      var before := FailureRun(h[..|h| - 1]);
      var last := h[|h| - 1];
      if last == Bound then [] else if IsFailure(last) then before + [last] else before
  }

  /** All bind failures before the first bind; afterwards one lost listener and
      then failed rebinds only. */
  predicate OneKind(bound: bool, run: seq<Happening>) {
    && (forall i :: (if bound then 1 else 0) <= i < |run| ==> run[i] == BindFailed)
    && (bound && run != [] ==> run[0] == ListenerGone)
  }

  /** What may come after what: every bind attempt but the first waits, every
      wait is for a failure, a listener is lost only while bound. */
  predicate Follows(before: seq<Happening>, next: Happening) {
    match next
    case Bound => before == [] || before[|before| - 1].Slept?
    case BindFailed => before == [] || before[|before| - 1].Slept?
    case ListenerGone => before != [] && before[|before| - 1] == Bound
    case Slept(_, _) => before != [] && IsFailure(before[|before| - 1])
  }

  /** The whole history in order, and after the k-th consecutive failure a wait of
      min(initial * 2^(k-1), max). */
  predicate Account(p: RetryPolicy, h: seq<Happening>) {
    h == [] ||
    (var before := h[..|h| - 1];
     var last := h[|h| - 1];
     && Account(p, before)
     && Follows(before, last)
     && (last.Slept? ==>
           && last.failures == |FailureRun(before)|
           && last.failures >= 1
           && last.duration == p.BackoffAt(last.failures)))
  }

  lemma {:induction false} AccountAt(p: RetryPolicy, h: seq<Happening>, i: nat)
    requires Account(p, h) && i < |h|
    ensures Follows(h[..i], h[i])
    ensures h[i].Slept? ==>
      var k := |FailureRun(h[..i])|;
      k >= 1 && h[i] == Slept(k, p.BackoffAt(k))
  {
    if i < |h| - 1 {
      AccountAt(p, h[..|h| - 1], i);
      assert h[..|h| - 1][..i] == h[..i];
    }
  }

  lemma Appended(p: RetryPolicy, h: seq<Happening>, x: Happening)
    ensures FailureRun(h + [x]) ==
      if x == Bound then [] else if IsFailure(x) then FailureRun(h) + [x] else FailureRun(h)
    ensures Account(p, h + [x]) <==>
      && Account(p, h) && Follows(h, x)
      && (x.Slept? ==> x.failures == |FailureRun(h)| && x.failures >= 1 && x.duration == p.BackoffAt(x.failures))
  {
    assert (h + [x])[..|h|] == h;
  }

  /** Where the history stands in each phase, and which wait comes next. */
  predicate Paced(p: RetryPolicy, t: Task) {
    var h := t.history;
    match t.pc
    case AtTop =>
      && (h == [] || h[|h| - 1].Slept?)
      && (t.origin == AcceptOrigin ==> t.failures >= 1)
      && t.backoff == p.BackoffAt(t.failures + 1)
    case Accepting =>
      && h != [] && h[|h| - 1] == Bound
      && t.failures == 0 && t.origin == AcceptOrigin && t.backoff == p.BackoffAt(1)
    case Sleeping =>
      && h != [] && IsFailure(h[|h| - 1])
      && t.failures >= 1 && t.backoff == p.BackoffAt(t.failures)
    case _ => true
  }

  /** A retry-exhausted cause names the limit, and whose failures they were. */
  predicate CauseRight(p: RetryPolicy, t: Task) {
    match t.terminal
    case None => !p.IsExhausted(t.failures)
    case Some(BindRetryExhausted(attempts, _)) =>
      p.maxAttempts == Some(attempts) && attempts == t.failures && t.origin == BindOrigin
    case Some(AcceptRetryExhausted(attempts, _)) =>
      p.maxAttempts == Some(attempts) && attempts == t.failures && t.origin == AcceptOrigin
    case Some(InternalLoopFailure(_)) => t.failures == 0
  }

  predicate RetrySound(p: RetryPolicy, t: Task) {
    && Account(p, t.history)
    && |FailureRun(t.history)| == t.failures
    && (t.origin == AcceptOrigin <==> Bound in t.history)
    && OneKind(t.origin == AcceptOrigin, FailureRun(t.history))
    && (p.maxAttempts.Some? ==> t.failures <= p.maxAttempts.value)
    && Paced(p, t)
    && CauseRight(p, t)
  }

  lemma FailRetry(p: RetryPolicy, t: Task, happening: Happening, error: string)
    requires p.Valid() && RetrySound(p, t) && t.terminal.None?
    requires (t.pc == AtTop && happening == BindFailed) || (t.pc == Accepting && happening == ListenerGone)
    ensures RetrySound(p, Fail(p, t, happening, error))
  {
    Appended(p, t.history, happening);
    hide Account, FailureRun, RetryPolicy.BackoffAt;
  }

  lemma StepRetry(p: RetryPolicy, t: Task, input: Input)
    requires p.Valid() && RetrySound(p, t) && StatusesSound(t)
    ensures RetrySound(p, Step(p, t, input))
  {
    hide Fail, Account, FailureRun, RetryPolicy.BackoffAt, RetryPolicy.NextBackoff, Serving, Ended;
    if t.pc == AtTop && input.BindError? {
      FailRetry(p, t, BindFailed, input.error);
    } else if t.pc == Accepting && input.ListenerLost? {
      FailRetry(p, t, ListenerGone, input.error);
    } else if t.pc == AtTop && input == BindOk {
      Appended(p, t.history, Bound);
      p.FirstBackoff();
    } else if t.pc == Sleeping && input == SleepOver {
      Appended(p, t.history, Slept(t.failures, t.backoff));
      p.NextIsBackoffAt(t.failures);
    }
  }

  // ---- Every run ----

  lemma {:induction false} EveryServerRun(p: RetryPolicy, script: seq<Input>)
    requires p.Valid()
    ensures StatusesSound(Run(p, script)) && RetrySound(p, Run(p, script))
  {
    if script == [] {
      p.FirstBackoff();
    } else {
      EveryServerRun(p, script[..|script| - 1]);
      var before := Run(p, script[..|script| - 1]);
      StepStatuses(p, before, script[|script| - 1]);
      StepRetry(p, before, script[|script| - 1]);
    }
  }

  /** The cause is settled by who failed, over the whole run. */
  lemma ExhaustedCause(p: RetryPolicy, script: seq<Input>)
    requires p.Valid()
    ensures var t := Run(p, script);
      (t.terminal.Some? && t.terminal.value.BindRetryExhausted? ==>
         && Bound !in t.history
         && p.maxAttempts == Some(t.terminal.value.attempts)
         && FailureRun(t.history) == seq(t.terminal.value.attempts, _ => BindFailed))
      && (t.terminal.Some? && t.terminal.value.AcceptRetryExhausted? ==>
         && Bound in t.history
         && p.maxAttempts == Some(t.terminal.value.attempts)
         && FailureRun(t.history) == [ListenerGone] + seq(t.terminal.value.attempts - 1, _ => BindFailed))
  {
    EveryServerRun(p, script);
  }

  /** A lost listener is rebound if and only if more than one attempt is allowed. */
  lemma LossIsRetriedIff(p: RetryPolicy, script: seq<Input>, error: string)
    requires p.Valid() && Run(p, script).pc == Accepting
    ensures var t := Run(p, script + [ListenerLost(error)]);
      if p.maxAttempts != Some(1) then t.pc == Sleeping && t.terminal == None
      else t.pc == CauseStored && t.terminal == Some(AcceptRetryExhausted(1, error))
  {
    EveryServerRun(p, script);
    assert (script + [ListenerLost(error)])[..|script|] == script;
    hide StatusesSound, Account, FailureRun;
  }

  /** With one attempt allowed the first loss ends the server; no rebind is tried. */
  lemma OneAttemptMeansNoRebind(p: RetryPolicy, error: string)
    requires p.Valid() && p.maxAttempts == Some(1)
    ensures var t := Run(p, [BindOk, ListenerLost(error)]);
      t.terminal == Some(AcceptRetryExhausted(1, error)) && t.history == [Bound, ListenerGone]
  {
    var bound: seq<Input> := [BindOk];
    assert bound[..0] == [];
    assert Run(p, bound) == Step(p, Initial(p), BindOk);
    assert [BindOk, ListenerLost(error)][..1] == bound;
  }

  lemma RunNext(p: RetryPolicy, script: seq<Input>, i: nat)
    requires i < |script|
    ensures Run(p, script[..i + 1]) == Step(p, Run(p, script[..i]), script[i])
  {
    assert script[..i + 1][..i] == script[..i];
  }

  /** Over any continuation of any run. */
  lemma {:induction false} SettledForGood(p: RetryPolicy, script: seq<Input>, later: seq<Input>)
    requires p.Valid()
    ensures Grows(Run(p, script), Run(p, script + later))
  {
    hide Step, StatusesSound, RetrySound, Grows;
    if later == [] {
      assert script + later == script;
      EveryServerRun(p, script);
      GrowsItself(Run(p, script));
    } else {
      var n := |later| - 1;
      var all := script + later;
      assert all[..|all| - 1] == script + later[..n];
      SettledForGood(p, script, later[..n]);
      EveryServerRun(p, script + later[..n]);
      StepGrows(p, Run(p, script + later[..n]), later[n]);
      GrowsFurther(Run(p, script), Run(p, script + later[..n]), Run(p, script + later));
    }
  }

  lemma GrowsItself(t: Task)
    requires StatusesSound(t)
    ensures Grows(t, t)
  {
    LastStatus(t);
  }

  // ---- How the server ends ----

  predicate Running(pc: Pc) { pc == AtTop || pc == Accepting || pc == Sleeping }

  predicate Winding(t: Task) {
    t.terminal.None? && (t.pc == Draining || t.pc == DrainAborting || t.pc == Returned)
  }

  lemma WindingGoesOn(p: RetryPolicy, t: Task, input: Input)
    requires Winding(t)
    ensures Winding(Step(p, t, input))
  {
  }

  lemma {:induction false} WindsDown(p: RetryPolicy, script: seq<Input>, later: seq<Input>)
    requires Winding(Run(p, script))
    ensures Winding(Run(p, script + later))
  {
    hide Step;
    if later == [] {
      assert script + later == script;
    } else {
      var n := |later| - 1;
      var all := script + later;
      assert all[..|all| - 1] == script + later[..n];
      WindsDown(p, script, later[..n]);
      WindingGoesOn(p, Run(p, script + later[..n]), later[n]);
    }
  }

  lemma RunThen(p: RetryPolicy, script: seq<Input>, input: Input)
    ensures Run(p, script + [input]) == Step(p, Run(p, script), input)
  {
    assert (script + [input])[..|script|] == script;
  }

  /** A shutdown seen anywhere the server runs, a backoff wait included, closes it
      gracefully: ShuttingDown at once, no cause ever, and Stopped at the end. */
  lemma ShutdownIsGraceful(p: RetryPolicy, script: seq<Input>, later: seq<Input>)
    requires p.Valid() && Running(Run(p, script).pc)
    ensures var t, u := Run(p, script), Run(p, script + [SawShutdown] + later);
      && t.published + [ShuttingDown] <= u.published && u.terminal == None
      && (u.pc == Returned ==> u.published == t.published + [ShuttingDown, Stopped])
  {
    hide Serving, RetrySound;
    EveryServerRun(p, script);
    RunThen(p, script, SawShutdown);
    WindsDown(p, script + [SawShutdown], later);
    SettledForGood(p, script + [SawShutdown], later);
    EveryServerRun(p, script + [SawShutdown] + later);
    var t, u := Run(p, script), Run(p, script + [SawShutdown] + later);
    if u.pc == Returned {
      EndsOnce(t.published, u.published);
    }
  }

  /** Two statuses ended a run that was still serving: those are the only ones added. */
  lemma EndsOnce(s: seq<Status>, u: seq<Status>)
    requires Serving(s) && s + [ShuttingDown] <= u && Ended(u, [ShuttingDown, Stopped])
    ensures u == s + [ShuttingDown, Stopped]
  {
    assert u[|s|] == ShuttingDown;
    var n := |u| - 2;
    assert u[n..] == [ShuttingDown, Stopped] && u[n] == u[n..][0];
    assert u[n + 1] == u[n..][1] && forall i :: 0 <= i < n ==> u[..n][i] == u[i];
    assert u == u[..n] + u[n..];
  }

  /** An unrecoverable accept failure is the cause from then on, and Terminal the end. */
  lemma FaultIsTerminal(p: RetryPolicy, script: seq<Input>, reason: string, later: seq<Input>)
    requires p.Valid() && Run(p, script).pc == Accepting
    ensures var u := Run(p, script + [AcceptFault(reason)] + later);
      && u.terminal == Some(InternalLoopFailure(reason))
      && (u.pc == Returned ==> Ended(u.published, [Terminal]))
  {
    hide Serving, RetrySound, Ended;
    EveryServerRun(p, script);
    RunThen(p, script, AcceptFault(reason));
    SettledForGood(p, script + [AcceptFault(reason)], later);
    EveryServerRun(p, script + [AcceptFault(reason)] + later);
  }

  /** A failed bind is waited out and tried again if and only if the attempts, this
      one included, are not exhausted; the wait leads back to a bind. */
  lemma BindIsRetriedIff(p: RetryPolicy, script: seq<Input>, error: string)
    requires p.Valid() && Run(p, script).pc == AtTop
    ensures var attempts, t := |FailureRun(Run(p, script).history)| + 1, Run(p, script + [BindError(error)]);
      && (t.pc == Sleeping <==> p.maxAttempts.None? || attempts < p.maxAttempts.value)
      && (t.pc == Sleeping ==> Run(p, script + [BindError(error)] + [SleepOver]).pc == AtTop)
      && (t.pc != Sleeping ==> t.pc == CauseStored && t.terminal.Some? && !t.terminal.value.InternalLoopFailure?)
  {
    hide StatusesSound, Account, FailureRun, OneKind;
    EveryServerRun(p, script);
    RunThen(p, script, BindError(error));
    RunThen(p, script + [BindError(error)], SleepOver);
    NoCauseYet(p, script);
  }

  lemma NoCauseYet(p: RetryPolicy, script: seq<Input>)
    requires p.Valid() && Running(Run(p, script).pc)
    ensures Run(p, script).terminal == None
  {
    EveryServerRun(p, script);
  }
}
