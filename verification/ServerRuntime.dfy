/** `run_server` and the shared status cell as code that updates state, proved
    against the machine of ServerLifecycle. */
module ServerRuntime {
  import opened Prelude
  import opened ServerConfig
  import opened ServerLifecycle

  class ServerShared {
    var status: Status
    var terminal: Option<TerminalError>
    /** Every value the status cell has held. */
    ghost var published: seq<Status>

    constructor ()
      ensures status == Starting && terminal == None && published == [Starting]
    {
      status := Starting;
      terminal := None;
      published := [Starting];
    }

    method SetStatus(s: Status)
      modifies this`status, this`published
      ensures old(terminal).Some? && s != Terminal ==> status == old(status) && published == old(published)
      ensures old(terminal).None? || s == Terminal ==> status == s && published == old(published) + [s]
    {
      if terminal.Some? && s != Terminal {
        return;
      }
      status := s;
      published := published + [s];
    }

    /** First half of `set_terminal`: the cell takes only the first cause. */
    method StoreCause(error: TerminalError)
      modifies this`terminal
      ensures terminal == if old(terminal).Some? then old(terminal) else Some(error)
    {
      if terminal.None? {
        terminal := Some(error);
      }
    }

    /** Second half of `set_terminal`. */
    method PublishTerminal()
      modifies this`status, this`published
      ensures status == Terminal && published == old(published) + [Terminal]
    {
      status := Terminal;
      published := published + [Terminal];
    }

    ghost predicate Shows(t: Task)
      reads this
    {
      && t.published == published && t.terminal == terminal
      && |published| >= 1 && status == published[|published| - 1]
    }
  }

  /** The inputs a phase waits for. */
  predicate Heard(pc: Pc, input: Input) {
    match pc
    case AtTop => input.SawShutdown? || input.BindOk? || input.BindError?
    case Accepting => input.SawShutdown? || input.AcceptFault? || input.ListenerLost?
    case Sleeping => input.SawShutdown? || input.SleepOver?
    case CauseStored => input.CausePublished?
    case AbortingAll => input.AllJoined?
    case Draining => input.AllJoined? || input.DrainTimeout?
    case DrainAborting => input.AllJoined?
    case Returned => false
  }

  /** Suspends until the schedule offers something the current phase waits for;
      at the end of the schedule the task is left suspended. */
  method Await(p: RetryPolicy, script: seq<Input>, i: nat, pc: Pc, ghost t: Task) returns (j: nat)
    requires i <= |script| && t == Run(p, script[..i]) && t.pc == pc
    ensures i <= j <= |script| && t == Run(p, script[..j])
    ensures j < |script| ==> Heard(pc, script[j]) && Run(p, script[..j + 1]) == Step(p, t, script[j])
  {
    j := i;
    while j < |script| && !Heard(pc, script[j])
      invariant i <= j <= |script| && t == Run(p, script[..j])
    {
      RunNext(p, script, j);
      j := j + 1;
    }
    if j < |script| {
      RunNext(p, script, j);
    }
  }

  /** What an attempt to listen comes back with. */
  datatype Attempt = ShutdownSeen | Fault(reason: string) | Failed(error: string) | Cut

  /** Where the machine stands after the attempt, from the state it failed in. */
  ghost predicate After(p: RetryPolicy, script: seq<Input>, j: nat, t: Task, attempt: Attempt)
    requires j <= |script|
  {
    match attempt
    case ShutdownSeen => Run(p, script[..j]) == ServerLifecycle.Close(t)
    case Fault(reason) => Run(p, script[..j]) == StoreCause(t, InternalLoopFailure(reason))
    case Failed(error) =>
      Run(p, script[..j]) == Fail(p, t, if t.pc == AtTop then BindFailed else ListenerGone, error)
    case Cut => Run(p, script) == t
  }

  /** `run_accept_loop`: admitting sockets changes nothing the server task keeps. */
  method RunAcceptLoop(p: RetryPolicy, script: seq<Input>, i: nat, ghost t: Task) returns (j: nat, attempt: Attempt)
    requires i <= |script| && t == Run(p, script[..i]) && t.pc == Accepting
    ensures i <= j <= |script| && After(p, script, j, t, attempt)
  {
    hide Run, Fail, StoreCause, ServerLifecycle.Close;
    j := Await(p, script, i, Accepting, t);
    if j == |script| { AllRead(script); return j, Cut; }
    var input := script[j];
    j := j + 1;
    match input {
      case SawShutdown => return j, ShutdownSeen;
      case AcceptFault(reason) => return j, Fault(reason);
      case ListenerLost(error) => return j, Failed(error);
    }
  }

  /** The head of the lifecycle loop: the shutdown flag, the bind, and the accept
      loop of a bound listener. */
  method Listen(p: RetryPolicy, script: seq<Input>, i: nat, shared: ServerShared, ghost t: Task)
    returns (j: nat, attempt: Attempt, bound: bool, ghost t1: Task)
    requires i <= |script| && t == Run(p, script[..i]) && t.pc == AtTop && t.terminal.None? && shared.Shows(t)
    modifies shared
    ensures i <= j <= |script| && After(p, script, j, t1, attempt) && (!attempt.Cut? ==> i < j)
    ensures shared.Shows(t1) && t1.terminal.None?
    ensures !bound ==> t1 == t && !attempt.Fault?
    ensures bound ==> t1.pc == Accepting && t1.failures == 0 && t1.backoff == p.initialBackoff && t1.origin == AcceptOrigin
  {
    hide Run, Fail;
    j := Await(p, script, i, AtTop, t);
    if j == |script| { AllRead(script); return j, Cut, false, t; }
    var input := script[j];
    j := j + 1;
    if input.SawShutdown? { return j, ShutdownSeen, false, t; }
    if input.BindError? { return j, Failed(input.error), false, t; }
    t1 := Step(p, t, input);
    shared.SetStatus(Listening);
    bound := true;
    j, attempt := RunAcceptLoop(p, script, j, t1);
  }

  method RunServer(p: RetryPolicy, script: seq<Input>, shared: ServerShared) returns (finished: bool)
    requires p.Valid()
    requires shared.status == Starting && shared.terminal == None && shared.published == [Starting]
    modifies shared
    ensures shared.Shows(Run(p, script))
    ensures finished <==> Run(p, script).pc == Returned
  {
    hide Run, RetryPolicy.NextBackoff, RetryPolicy.IsExhausted, RetryPolicy.Valid;
    AllRead(script);
    var backoff, failures, origin := p.initialBackoff, 0, BindOrigin;
    ghost var t := Initial(p);
    var i := 0;
    assert t == Run(p, script[..0]) by { RunEmpty(p); assert script[..0] == []; }
    finished := false;

    while true
      invariant i <= |script| && t == Run(p, script[..i]) && t.pc == AtTop
      invariant t.terminal.None? && shared.Shows(t) && !finished
      invariant backoff == t.backoff && failures == t.failures && origin == t.origin
      decreases |script| - i
    {
      var attempt, bound;
      i, attempt, bound, t := Listen(p, script, i, shared, t);
      if attempt.Cut? { return; }
      if bound {
        failures, backoff, origin := 0, p.initialBackoff, AcceptOrigin;
      }
      t := Run(p, script[..i]);
      if attempt.ShutdownSeen? { break; }
      if attempt.Fault? {
        finished := Terminate(p, script, i, shared, InternalLoopFailure(attempt.reason), t);
        return;
      }
      failures := failures + 1;
      if p.IsExhausted(failures) {
        var cause := if origin == BindOrigin then BindRetryExhausted(failures, attempt.error)
                     else AcceptRetryExhausted(failures, attempt.error);
        finished := Terminate(p, script, i, shared, cause, t);
        return;
      }
      shared.SetStatus(Retrying);
      i := Await(p, script, i, Sleeping, t);
      if i == |script| { return; }
      t := Step(p, t, script[i]);
      i := i + 1;
      if script[i - 1].SawShutdown? { break; }
      backoff := p.NextBackoff(backoff);
    }
    finished := Drain(p, script, i, shared, t);
  }

  lemma RunEmpty(p: RetryPolicy)
    ensures Run(p, []) == Initial(p)
  {
  }

  lemma AllRead(script: seq<Input>)
    ensures script[..|script|] == script
  {
  }

  /** `set_terminal` and `abort_clients`. */
  method Terminate(p: RetryPolicy, script: seq<Input>, i: nat, shared: ServerShared, error: TerminalError, ghost t: Task)
    returns (finished: bool)
    requires i <= |script| && t == Run(p, script[..i]) && t.pc == CauseStored && t.terminal == Some(error)
    requires shared.terminal.None? && shared.published == t.published
    modifies shared
    requires |shared.published| >= 1 && shared.status == shared.published[|shared.published| - 1]
    ensures shared.Shows(Run(p, script))
    ensures finished <==> Run(p, script).pc == Returned
  {
    hide Run;
    AllRead(script);
    shared.StoreCause(error);
    var j := Await(p, script, i, CauseStored, t);
    if j == |script| { return false; }
    shared.PublishTerminal();
    ghost var t1 := Step(p, t, script[j]);
    j := Await(p, script, j + 1, AbortingAll, t1);
    if j == |script| { return false; }
    ghost var t2 := Step(p, t1, script[j]);
    j := Await(p, script, j + 1, Returned, t2);
    return true;
  }

  /** The graceful end: ShuttingDown, `drain_clients`, Stopped. */
  method Drain(p: RetryPolicy, script: seq<Input>, i: nat, shared: ServerShared, ghost t: Task)
    returns (finished: bool)
    requires i <= |script| && t == Run(p, script[..i]) && t.pc == Draining && t.terminal.None?
    requires shared.terminal.None? && t.published == shared.published + [ShuttingDown]
    modifies shared
    ensures shared.Shows(Run(p, script))
    ensures finished <==> Run(p, script).pc == Returned
  {
    hide Run;
    AllRead(script);
    shared.SetStatus(ShuttingDown);
    var j := Await(p, script, i, Draining, t);
    if j == |script| { return false; }
    ghost var t1 := Step(p, t, script[j]);
    if script[j].DrainTimeout? {
      j := Await(p, script, j + 1, DrainAborting, t1);
      if j == |script| { return false; }
      t1 := Step(p, t1, script[j]);
    }
    shared.SetStatus(Stopped);
    j := Await(p, script, j + 1, Returned, t1);
    return true;
  }
}
