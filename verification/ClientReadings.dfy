/** The monitors' verdicts in plain terms: statements about the trace alone. */
module ClientReadings {
  import opened Prelude
  import opened Wire
  import opened ClientTrace

  // ---- Writes ----

  /** The current session is public or has been authenticated. */
  predicate Authorised(t: Trace) {
    match t
    case Start => false
    case Then(_, Opened(_, _)) => false
    case Then(_, ModeRead(Public)) => true
    case Then(_, FrameParsed(_, Parsed(SessionAuthenticated))) => true
    case Then(p, _) => Authorised(p)
  }

  datatype Progress = NotListed | Listed(items: seq<Subscription>, written: nat)

  /** How far the latest replay of the current session has come. */
  function ReplayProgress(t: Trace): Progress {
    match t
    case Start => NotListed
    case Then(_, Opened(_, _)) => NotListed
    case Then(_, SubscriptionsListed(items)) => Listed(items, 0)
    case Then(p, Wrote(ForReplay, _, None)) =>
      var done := ReplayProgress(p);
      if done.Listed? then done.(written := done.written + 1) else done
    case Then(p, _) => ReplayProgress(p)
  }

  /** The subscription serialized since the last replay frame, and its bytes. */
  function Serialized(t: Trace): Option<(Subscription, Bytes)> {
    match t
    case Start => None
    case Then(_, SubscriptionsListed(_)) => None
    case Then(_, Wrote(ForReplay, _, _)) => None
    case Then(_, SubscriptionSerialized(item, payload)) => Some((item, payload))
    case Then(p, _) => Serialized(p)
  }

  /** The replay under way has written all items but `left`. */
  predicate ReplayLeft(t: Trace, left: seq<Subscription>) {
    var done := ReplayProgress(t);
    done.Listed? && done.written <= |done.items| && done.items[done.written..] == left
  }

  /** `frame` carries the bytes just serialized for the next listed item. */
  predicate NextReplayFrame(t: Trace, frame: Frame) {
    var done, last := ReplayProgress(t), Serialized(t);
    && done.Listed? && done.written < |done.items|
    && last.Some? && last.value.0 == done.items[done.written] && frame == IntoFrame(last.value.1)
  }

  /** Every replay and command frame of the trace came after authorisation in
      its own session, every replay frame is the next listed subscription's, and
      every command frame came after a complete replay. */
  predicate Guarded(t: Trace) {
    match t
    case Start => true
    case Then(p, Wrote(ForReplay, frame, _)) => Guarded(p) && Authorised(p) && NextReplayFrame(p, frame)
    case Then(p, Wrote(ForCommand, _, _)) => Guarded(p) && Authorised(p) && ReplayLeft(p, [])
    case Then(p, _) => Guarded(p)
  }

  predicate GateMeans(g: Gate, t: Trace) {
    match g
    case Unlocked => Authorised(t)
    case Replaying(left, next) =>
      && Authorised(t) && left != [] && ReplayLeft(t, left)
      && (next.Some? ==> Serialized(t) == Some((left[0], next.value)))
    case Ready => Authorised(t) && ReplayLeft(t, [])
    case _ => true
  }

  lemma {:induction false} GateGuards(t: Trace)
    requires GateOf(t) != Breached
    ensures Guarded(t) && GateMeans(GateOf(t), t)
  {
    hide IntoFrame;
    if t.Then? {
      GateGuards(t.prior);
    }
  }

  // ---- Notifications ----

  datatype Notification = Open(isReconnect: bool) | Lost(willReconnect: bool)

  function Notifications(t: Trace): seq<Notification> {
    match t
    case Start => []
    case Then(p, Opened(again, _)) => Notifications(p) + [Open(again)]
    case Then(p, Disconnection(_, will, _)) => Notifications(p) + [Lost(will)]
    case Then(p, _) => Notifications(p)
  }

  /** (Open? Lost(true))* */
  predicate Rounds(ns: seq<Notification>) {
    var n := |ns|;
    n == 0
    || (ns[n - 1] == Lost(true) && (Rounds(ns[..n - 1]) || (n >= 2 && ns[n - 2].Open? && Rounds(ns[..n - 2]))))
  }

  /** Rounds followed by Open? Lost(false). */
  predicate GaveUp(ns: seq<Notification>) {
    var n := |ns|;
    n >= 1 && ns[n - 1] == Lost(false)
    && (Rounds(ns[..n - 1]) || (n >= 2 && ns[n - 2].Open? && Rounds(ns[..n - 2])))
  }

  predicate OpenLast(ns: seq<Notification>) {
    |ns| >= 1 && ns[|ns| - 1].Open? && Rounds(ns[..|ns| - 1])
  }

  /** (Open? Lost(true))* followed by nothing, Open, or Open? Lost(false). */
  predicate Regular(ns: seq<Notification>) {
    Rounds(ns) || OpenLast(ns) || GaveUp(ns)
  }

  /** Connect attempts made so far. */
  function Tries(t: Trace): nat {
    match t
    case Start => 0
    case Then(p, ConnectTried(_)) => Tries(p) + 1
    case Then(p, _) => Tries(p)
  }

  /** Open says "not a reconnect" exactly on the first connect attempt. */
  predicate FlagsRight(t: Trace) {
    match t
    case Start => true
    case Then(p, Opened(again, _)) => FlagsRight(p) && again == (Tries(p) > 1)
    case Then(p, _) => FlagsRight(p)
  }

  lemma {:induction false} LifeIsRegular(t: Trace)
    requires Life(t).stage != Malformed
    ensures Life(t).tries == Tries(t) && FlagsRight(t)
    ensures var ns := Notifications(t);
            match Life(t).stage
            case Idle => Rounds(ns)
            case InConnection => OpenLast(ns)
            case _ => GaveUp(ns)
  {
    if t.Then? {
      LifeIsRegular(t.prior);
      var ns := Notifications(t.prior);
      if t.last.Opened? {
        assert (ns + [Open(t.last.isReconnect)])[..|ns|] == ns;
      } else if t.last.Disconnection? {
        var after := ns + [Lost(t.last.willReconnect)];
        assert after[..|ns|] == ns;
        if |ns| >= 1 {
          assert after[..|ns| - 1] == ns[..|ns| - 1];
        }
      }
    }
  }
}
