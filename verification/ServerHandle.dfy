/** The shared counters and the handle's calls of src/ws/server/handle.rs and
    src/ws/server/runtime.rs as code, tied to the interleaving machine. */
module ServerHandle {
  import opened Prelude
  import L = ServerLifecycle
  import C = ServerConnection
  import R = ServerRuntime
  import opened ServerInterleaving

  /** The connection budget and the id counter. */
  class ConnectionSlots {
    const max: nat
    var active: nat
    var nextConnectionId: nat

    predicate Valid()
      reads this
    {
      active <= max
    }

    ghost predicate Shows(w: Params, s: State)
      reads this
    {
      max == w.maxConnections && active == s.active && nextConnectionId == s.nextId
    }

    constructor (max: nat)
      ensures Valid() && this.max == max && active == 0 && nextConnectionId == 0
    {
      this.max := max;
      active, nextConnectionId := 0, 0;
    }

    method TryAcquire() returns (acquired: bool)
      requires Valid()
      modifies this`active
      ensures Valid() && acquired == (old(active) < max)
      ensures active == if acquired then old(active) + 1 else old(active)
    {
      if active >= max {
        return false;
      }
      active := active + 1;
      return true;
    }

    /** Dropping the slot. */
    method Release()
      requires Valid() && active > 0
      modifies this`active
      ensures Valid() && active == old(active) - 1
    {
      active := active - 1;
    }

    /** `admit_connection`: the id of the admitted connection, or None. */
    method Admit(ghost w: Params, ghost s: State) returns (id: Option<nat>)
      requires Valid() && Shows(w, s)
      modifies this
      ensures Valid() && Shows(w, ServerInterleaving.Admit(w, s))
      ensures ServerInterleaving.Admit(w, s).live == if id.Some? then s.live + {id.value} else s.live
      ensures id.Some? <==> old(active) < max
    {
      var acquired := TryAcquire();
      if !acquired {
        return None;
      }
      id := Some(nextConnectionId);
      nextConnectionId := nextConnectionId + 1;
    }
  }

  /** A call whose reads are not interleaved with anything. */
  function Undisturbed(s: State, call: Call): (Call, seq<C.Command>) {
    var (c1, _) := Continue(s, call);
    var (c2, sent2) := Continue(s, c1);
    var (c3, sent3) := Continue(s, c2);
    (c3, sent2 + sent3)
  }

  /** `dispatch` over the shared cells: `receivers` connections hold a receiver
      and `log` is what the channel was given. */
  method Dispatch(shared: R.ServerShared, receivers: nat, log: seq<C.Command>, command: C.Command, ghost s: State)
    returns (answer: Answer, newLog: seq<C.Command>)
    requires shared.Shows(s.task) && receivers == |s.live| && log == s.log && L.StatusesSound(s.task)
    ensures var (call, sent) := Undisturbed(s, Call(command, |s.task.published|, ReadingCause));
      call.pc == Answered(answer) && newLog == s.log + sent
  {
    if shared.terminal.Some? {
      return RefusedTerminated(shared.terminal.value), log;
    }
    match shared.status {
      case ShuttingDown => return RefusedStopped, log;
      case Stopped => return RefusedStopped, log;
      case Terminal =>
        L.LastStatus(s.task);
        assert false;
      case _ =>
    }
    if receivers == 0 {
      return Queued(0), log;
    }
    return Queued(receivers), log + [command];
  }

  /** `wait_for_status` over the statuses it gets to see: the first that is the
      expected one or final decides; otherwise the timeout does. */
  method WaitForStatus(expected: L.Status, seen: seq<L.Status>) returns (result: WaitPc, looks: nat)
    ensures looks <= |seen|
    ensures forall i :: 0 <= i < looks - 1 ==> seen[i] != expected && !L.IsFinal(seen[i])
    ensures match result
      case Reached => looks > 0 && seen[looks - 1] == expected
      case Settled(last, n) => looks > 0 && seen[looks - 1] == last != expected && L.IsFinal(last) && n == looks
      case TimedOut => looks == |seen| && forall i :: 0 <= i < |seen| ==> seen[i] != expected && !L.IsFinal(seen[i])
      case Looking => false
  {
    looks := 0;
    while looks < |seen|
      invariant looks <= |seen|
      invariant forall i :: 0 <= i < looks ==> seen[i] != expected && !L.IsFinal(seen[i])
    {
      var current := seen[looks];
      looks := looks + 1;
      if current == expected {
        return Reached, looks;
      }
      if L.IsFinal(current) {
        return Settled(current, looks), looks;
      }
    }
    return TimedOut, looks;
  }
}
