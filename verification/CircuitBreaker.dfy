/** The timed circuit breaker of src/core/connection_policy.rs against its call history. */
module CircuitBreaker {
  import opened Prelude

  datatype CircuitState = Closed | Open(until: Instant) | HalfOpen

  datatype Settings = Settings(failureThreshold: nat, successThreshold: nat, timeout: nat) {
    predicate Valid() {
      1 <= failureThreshold <= U32_MAX && 1 <= successThreshold <= U32_MAX
    }
  }

  datatype Call = Proceed(at: Instant) | Success(at: Instant) | Failure(at: Instant)

  datatype Breaker = Breaker(state: CircuitState, failures: nat, successes: nat)

  // ---- What each call does to the counters ----

  predicate Allows(b: Breaker, now: Instant) {
    b.state.Open? ==> now >= b.state.until
  }

  function Applied(s: Settings, b: Breaker, call: Call): Breaker {
    match call
    case Proceed(now) =>
      if b.state.Open? && now >= b.state.until then Breaker(HalfOpen, 0, 0) else b
    case Success(_) =>
      (match b.state
       case HalfOpen =>
         var n := SaturatingInc(b.successes, U32_MAX);
         if n >= s.successThreshold then Breaker(Closed, 0, 0) else b.(successes := n)
       case Closed => b.(failures := 0)
       case Open(_) => b)
    case Failure(now) =>
      var n := SaturatingInc(b.failures, U32_MAX);
      if b.state.HalfOpen? || (b.state.Closed? && n >= s.failureThreshold)
      then Breaker(Open(now + s.timeout), 0, 0)
      else b.(failures := n)
  }

  function AfterAll(s: Settings, calls: seq<Call>): Breaker {
    if calls == [] then Breaker(Closed, 0, 0)
    else Applied(s, AfterAll(s, calls[..|calls| - 1]), calls[|calls| - 1])
  }

  // ---- The reference: the phase as read off the history, without counters ----

  /** Failures since the last success. */
  function FailureRun(calls: seq<Call>): nat {
    if calls == [] then 0
    else
      var before := calls[..|calls| - 1];
      match calls[|calls| - 1]
      case Failure(_) => FailureRun(before) + 1
      case Success(_) => 0
      case Proceed(_) => FailureRun(before)
  }

  function Successes(calls: seq<Call>): nat {
    if calls == [] then 0
    else Successes(calls[..|calls| - 1]) + (if calls[|calls| - 1].Success? then 1 else 0)
  }

  /** Which phase, and how many calls had been made when it began. */
  datatype Phase = ClosedSince(i: nat) | OpenedAt(i: nat, at: Instant) | HalfOpenSince(i: nat)

  function PhaseOf(s: Settings, calls: seq<Call>): (p: Phase)
    ensures p.i <= |calls|
  {
    if calls == [] then ClosedSince(0)
    else
      var n := |calls|;
      var p := PhaseOf(s, calls[..n - 1]);
      var last := calls[n - 1];
      match p
      case ClosedSince(i) =>
        if last.Failure? && FailureRun(calls[i..]) == s.failureThreshold then OpenedAt(n, last.at) else p
      case OpenedAt(i, at) =>
        if last.Proceed? && last.at >= at + s.timeout then HalfOpenSince(n) else p
      case HalfOpenSince(i) =>
        if last.Failure? then OpenedAt(n, last.at)
        else if last.Success? && Successes(calls[i..]) == s.successThreshold then ClosedSince(n)
        else p
  }

  predicate Matches(s: Settings, b: Breaker, calls: seq<Call>) {
    match PhaseOf(s, calls)
    case ClosedSince(i) =>
      b.state == Closed && b.failures == FailureRun(calls[i..]) < s.failureThreshold
    case OpenedAt(_, at) => b.state == Open(at + s.timeout)
    case HalfOpenSince(i) =>
      b.state == HalfOpen && b.successes == Successes(calls[i..]) < s.successThreshold
  }

  /** Over any calls the counters say what the history says, saturation included. */
  lemma {:induction false} CountersMatchHistory(s: Settings, calls: seq<Call>)
    requires s.Valid()
    ensures Matches(s, AfterAll(s, calls), calls)
  {
    if calls != [] {
      var n := |calls|;
      var before := calls[..n - 1];
      CountersMatchHistory(s, before);
      var i := PhaseOf(s, before).i;
      assert calls[i..][..n - 1 - i] == before[i..];
      assert calls[n..] == [];
    }
  }

  /** The circuit opens from Closed exactly on the failure that completes a run
      of `failureThreshold` failures with no success between them. */
  lemma {:induction false} OpensOnFailureRun(s: Settings, calls: seq<Call>, call: Call)
    requires s.Valid() && AfterAll(s, calls).state == Closed
    ensures AfterAll(s, calls + [call]).state.Open? <==>
            call.Failure? && FailureRun((calls + [call])[PhaseOf(s, calls).i..]) == s.failureThreshold
    ensures AfterAll(s, calls + [call]).state.Open? ==> AfterAll(s, calls + [call]).state.until == call.at + s.timeout
    ensures !AfterAll(s, calls + [call]).state.Open? ==> AfterAll(s, calls + [call]).state == Closed
  {
    CountersMatchHistory(s, calls);
    CountersMatchHistory(s, calls + [call]);
    assert (calls + [call])[..|calls|] == calls;
  }

  /** A half-open circuit closes exactly on its `successThreshold`-th success and
      reopens on the first failure. */
  lemma {:induction false} ClosesOnSuccesses(s: Settings, calls: seq<Call>, call: Call)
    requires s.Valid() && AfterAll(s, calls).state == HalfOpen
    ensures var next := AfterAll(s, calls + [call]).state;
            && (next == Closed <==>
                  call.Success? && Successes((calls + [call])[PhaseOf(s, calls).i..]) == s.successThreshold)
            && (next.Open? <==> call.Failure?)
  {
    CountersMatchHistory(s, calls);
    CountersMatchHistory(s, calls + [call]);
    assert (calls + [call])[..|calls|] == calls;
  }

  /** Whatever is recorded meanwhile, an open circuit stays open until its time. */
  lemma {:induction false} OpenRefusesUntilItsTime(s: Settings, calls: seq<Call>, more: seq<Call>)
    requires s.Valid() && AfterAll(s, calls).state.Open?
    requires forall i :: 0 <= i < |more| && more[i].Proceed? ==> more[i].at < AfterAll(s, calls).state.until
    ensures AfterAll(s, calls + more).state == AfterAll(s, calls).state
    ensures forall now: Instant :: now < AfterAll(s, calls).state.until <==> !Allows(AfterAll(s, calls + more), now)
  {
    if more == [] {
      assert calls + more == calls;
    } else {
      var n := |more| - 1;
      OpenRefusesUntilItsTime(s, calls, more[..n]);
      assert (calls + more)[..|calls| + n] == calls + more[..n];
    }
  }

  /** The remaining wait: None unless open; zero exactly at the retry time. */
  function TimeUntilRetry(b: Breaker, now: Instant): Option<nat> {
    if b.state.Open? && now <= b.state.until then Some(b.state.until - now) else None
  }

  /** A positive wait is reported exactly when an attempt would be refused, and it is the shortest one. */
  lemma WaitAgreesWithRefusal(b: Breaker, now: Instant)
    ensures !Allows(b, now) <==> TimeUntilRetry(b, now).Some? && TimeUntilRetry(b, now).value > 0
    ensures var wait := TimeUntilRetry(b, now);
            wait.Some? ==> forall later: Instant | later >= now :: Allows(b, later) <==> later - now >= wait.value
  {
  }

  class WsCircuitBreaker {
    const settings: Settings
    var state: CircuitState
    var failures: nat
    var successes: nat
    ghost var calls: seq<Call>

    ghost predicate Valid()
      reads this
    {
      settings.Valid() && Breaker(state, failures, successes) == AfterAll(settings, calls)
    }

    constructor (failureThreshold: nat, successThreshold: nat, timeout: nat)
      requires failureThreshold <= U32_MAX && successThreshold <= U32_MAX
      ensures Valid() && calls == []
      ensures settings == Settings(if failureThreshold == 0 then 1 else failureThreshold,
                                   if successThreshold == 0 then 1 else successThreshold, timeout)
    {
      settings := Settings(if failureThreshold == 0 then 1 else failureThreshold,
                           if successThreshold == 0 then 1 else successThreshold, timeout);
      state, failures, successes := Closed, 0, 0;
      calls := [];
    }

    ghost method Log(call: Call)
      modifies this`calls
      ensures calls == old(calls) + [call] && calls[..|calls| - 1] == old(calls)
    {
      calls := calls + [call];
    }

    method CanProceed(now: Instant) returns (ok: bool)
      requires Valid()
      modifies this
      ensures Valid() && calls == old(calls) + [Proceed(now)]
      ensures ok == Allows(AfterAll(settings, old(calls)), now)
    {
      Log(Proceed(now));
      match state
      case Closed => ok := true;
      case Open(until) =>
        if now >= until {
          state := HalfOpen;
          failures, successes := 0, 0;
          ok := true;
        } else {
          ok := false;
        }
      case HalfOpen => ok := true;
    }

    method RecordSuccess(now: Instant)
      requires Valid()
      modifies this
      ensures Valid() && calls == old(calls) + [Success(now)]
    {
      Log(Success(now));
      match state
      case HalfOpen =>
        successes := SaturatingInc(successes, U32_MAX);
        if successes >= settings.successThreshold {
          state := Closed;
          failures, successes := 0, 0;
        }
      case Closed => failures := 0;
      case Open(_) =>
    }

    method RecordFailure(now: Instant)
      requires Valid()
      modifies this
      ensures Valid() && calls == old(calls) + [Failure(now)]
    {
      Log(Failure(now));
      failures := SaturatingInc(failures, U32_MAX);
      if (state.Closed? && failures >= settings.failureThreshold) || state.HalfOpen? {
        OpenCircuit(now);
      }
    }

    method OpenCircuit(now: Instant)
      modifies this`state, this`failures, this`successes
      ensures Breaker(state, failures, successes) == Breaker(Open(now + settings.timeout), 0, 0)
    {
      state := Open(now + settings.timeout);
      failures, successes := 0, 0;
    }
  }
}
