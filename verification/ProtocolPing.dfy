/** `ProtocolPingPong`: control-frame pings, one outstanding at a time. */
module ProtocolPing {
  import opened Prelude
  import opened Wire
  import opened Ping

  function LastPing(h: PingHistory): Option<Instant> {
    if h == [] then None
    else
      match h[|h| - 1]
      case StrategyCleared => None
      case PingCreated(at, _) => Some(at)
      case FrameExamined(_, _, _) => LastPing(h[..|h| - 1])
  }

  function LastPong(h: PingHistory): Option<Instant> {
    if h == [] then None
    else
      match h[|h| - 1]
      case StrategyCleared => None
      case PingCreated(_, _) => LastPong(h[..|h| - 1])
      case FrameExamined(frame, at, _) => if frame.Pong? then Some(at) else LastPong(h[..|h| - 1])
  }

  predicate ProtocolStale(timeout: nat, h: PingHistory, now: Instant) {
    var ping, pong := LastPing(h), LastPong(h);
    ping.Some? && now - ping.value > timeout && (pong.None? || pong.value < ping.value)
  }

  function Elapsed(since: Option<Instant>, now: Instant): Option<nat> {
    if since.None? then None else Some(if now < since.value then 0 else now - since.value)
  }

  function Answer(h: PingHistory, frame: Frame, now: Instant): PongResult {
    match frame
    case Pong(_) => PongReceived(Elapsed(LastPing(h), now))
    case Ping(payload) => ReplyWith(Pong(payload))
    case _ => NotPong
  }

  function ProtocolStrategy(timeout: nat): Strategy {
    Strategy((h: PingHistory, now: Instant) => ProtocolStale(timeout, h, now),
             (h: PingHistory, now: Instant) => Some(Frame.Ping([])),
             (h: PingHistory, frame: Frame, now: Instant) => Answer(h, frame, now))
  }

  class ProtocolPingPong {
    const timeout: nat
    var lastPing: Option<Instant>
    var lastPong: Option<Instant>
    ghost var history: PingHistory

    ghost predicate Valid()
      reads this
    {
      lastPing == LastPing(history) && lastPong == LastPong(history)
    }

    constructor (timeout: nat)
      ensures Valid() && history == [] && this.timeout == timeout
    {
      this.timeout := timeout;
      lastPing, lastPong := None, None;
      history := [];
    }

    method CreatePing(now: Instant) returns (frame: Option<Frame>)
      requires Valid()
      modifies this
      ensures Valid() && history == old(history) + [PingCreated(now, frame)]
      ensures frame == ProtocolStrategy(timeout).create(old(history), now)
    {
      lastPing := Some(now);
      frame := Some(Frame.Ping([]));
      history := history + [PingCreated(now, frame)];
      assert history[..|history| - 1] == old(history);
    }

    method HandleInbound(frame: Frame, now: Instant) returns (result: PongResult)
      requires Valid()
      modifies this
      ensures Valid() && history == old(history) + [FrameExamined(frame, now, result)]
      ensures result == ProtocolStrategy(timeout).examine(old(history), frame, now)
    {
      match frame {
        case Pong(_) =>
          result := PongReceived(Elapsed(lastPing, now));
          lastPong := Some(now);
        case Ping(payload) =>
          result := ReplyWith(Pong(payload));
        case _ =>
          result := NotPong;
      }
      history := history + [FrameExamined(frame, now, result)];
      assert history[..|history| - 1] == old(history);
    }

    function IsStale(now: Instant): (stale: bool)
      requires Valid()
      reads this
      ensures stale == ProtocolStrategy(timeout).stale(history, now)
    {
      if lastPing.None? || now - lastPing.value <= timeout then false
      else lastPong.None? || lastPong.value < lastPing.value
    }

    method Reset()
      requires Valid()
      modifies this
      ensures Valid() && history == old(history) + [StrategyCleared]
    {
      lastPing, lastPong := None, None;
      history := history + [StrategyCleared];
    }
  }

  // ---- Staleness in terms of the calls themselves ----

  function TimeOf(call: PingCall): Instant {
    if call.StrategyCleared? then 0 else call.at
  }

  /** No clearing since position `i`. */
  predicate Current(h: PingHistory, i: int) {
    0 <= i < |h| && forall j :: i <= j < |h| ==> !h[j].StrategyCleared?
  }

  /** `i` is the latest ping since the last clearing. */
  predicate LatestPing(h: PingHistory, i: int) {
    Current(h, i) && h[i].PingCreated? && forall j :: i < j < |h| ==> !h[j].PingCreated?
  }

  predicate PongAt(h: PingHistory, j: int) {
    0 <= j < |h| && h[j].FrameExamined? && h[j].frame.Pong?
  }

  /** Times never go back within the current session. */
  predicate Chronological(h: PingHistory) {
    forall i, j :: 0 <= i < j < |h| && Current(h, i) ==> TimeOf(h[i]) <= TimeOf(h[j])
  }

  lemma CurrentPrefix(h: PingHistory, i: int)
    requires h != [] && !h[|h| - 1].StrategyCleared? && i < |h| - 1
    ensures Current(h, i) <==> Current(h[..|h| - 1], i)
  {
    assert forall j :: 0 <= j < |h| - 1 ==> h[j] == h[..|h| - 1][j];
  }

  lemma {:induction false} LastPingIsLatest(h: PingHistory)
    ensures LastPing(h).Some? ==> exists i :: LatestPing(h, i) && h[i].at == LastPing(h).value
    ensures LastPing(h).None? ==> forall i :: !LatestPing(h, i)
  {
    if h != [] {
      var n := |h| - 1;
      var p := h[..n];
      LastPingIsLatest(p);
      if h[n].FrameExamined? {
        forall i | i < n
          ensures LatestPing(h, i) <==> LatestPing(p, i)
        {
          CurrentPrefix(h, i);
          assert forall j :: 0 <= j < n ==> h[j] == p[j];
        }
        assert !LatestPing(h, n);
        if LastPing(p).Some? {
          var i :| LatestPing(p, i) && p[i].at == LastPing(p).value;
          assert LatestPing(h, i);
        }
      } else if h[n].PingCreated? {
        assert LatestPing(h, n);
      }
    }
  }

  lemma {:induction false} LastPongIsLatest(h: PingHistory)
    requires Chronological(h)
    ensures forall j :: PongAt(h, j) && Current(h, j) ==> LastPong(h).Some? && h[j].at <= LastPong(h).value
    ensures LastPong(h).Some? ==> exists j :: PongAt(h, j) && Current(h, j) && h[j].at == LastPong(h).value
  {
    if h != [] && !h[|h| - 1].StrategyCleared? {
      var n := |h| - 1;
      var p := h[..n];
      assert Chronological(p) by {
        forall i, j | 0 <= i < j < n && Current(p, i)
          ensures TimeOf(p[i]) <= TimeOf(p[j])
        {
          CurrentPrefix(h, i);
          assert h[i] == p[i] && h[j] == p[j];
        }
      }
      LastPongIsLatest(p);
      forall j | PongAt(h, j) && Current(h, j)
        ensures LastPong(h).Some? && h[j].at <= LastPong(h).value
      {
        if j < n {
          CurrentPrefix(h, j);
          assert PongAt(p, j);
          assert TimeOf(h[j]) <= TimeOf(h[n]);
        }
      }
      if PongAt(h, n) {
        assert Current(h, n);
      } else if LastPong(p).Some? {
        var j :| PongAt(p, j) && Current(p, j) && p[j].at == LastPong(p).value;
        CurrentPrefix(h, j);
        assert PongAt(h, j) && Current(h, j);
      }
    }
  }

  /** Stale exactly when the latest ping is older than the timeout and no pong came at its time or later. */
  lemma StaleIffUnanswered(timeout: nat, h: PingHistory, now: Instant)
    requires Chronological(h)
    ensures ProtocolStale(timeout, h, now) <==>
            exists i :: LatestPing(h, i) && now - h[i].at > timeout &&
                        forall j :: PongAt(h, j) && Current(h, j) ==> h[j].at < h[i].at
  {
    hide LastPing, LastPong;
    LastPingIsLatest(h);
    LastPongIsLatest(h);
    assert forall i, j :: LatestPing(h, i) && LatestPing(h, j) ==> i == j;
  }

  /** What is said on the wire: a ping is an empty ping frame, a ping of the peer
      is answered with its own payload, anything but pings and pongs is passed on. */
  lemma SaysOnTheWire(timeout: nat, h: PingHistory, frame: Frame, now: Instant)
    ensures var s := ProtocolStrategy(timeout);
            && s.create(h, now) == Some(Frame.Ping([]))
            && (forall reply :: s.examine(h, frame, now) == ReplyWith(reply) <==> frame.Ping? && reply == Pong(frame.payload))
            && (s.examine(h, frame, now) == NotPong <==> !frame.Ping? && !frame.Pong?)
  {
  }

  /** A pong reports the time since the latest ping of the session, and no time
      when there was none. */
  lemma RoundTripSinceLatestPing(timeout: nat, h: PingHistory, payload: Bytes, now: Instant)
    ensures var result := ProtocolStrategy(timeout).examine(h, Pong(payload), now);
            && result.PongReceived?
            && (result.rtt.None? <==> forall i :: !LatestPing(h, i))
            && (forall i :: LatestPing(h, i) && h[i].at <= now ==> result.rtt == Some(now - h[i].at))
  {
    hide LastPing, LastPong;
    LastPingIsLatest(h);
    assert forall i, j :: LatestPing(h, i) && LatestPing(h, j) ==> i == j;
  }
}
