/** `WsHealthMonitor` of src/core/health.rs. */
module HealthMonitor {
  import opened Prelude
  import opened CircularBuffers
  import Utf8
  import L = ClientLoop

  const MAX_RECENT_ERRORS: nat := 100
  const MIN_RTT_US: nat := 1
  const MAX_RTT_US: nat := 60_000_000

  datatype ServerErrorRec = ServerErrorRec(at: Instant, code: Option<int>, message: Bytes)
  datatype InternalErrorRec = InternalErrorRec(at: Instant, context: Bytes, error: Bytes)

  function Clamped(micros: nat): nat {
    if micros < MIN_RTT_US then MIN_RTT_US else if micros > MAX_RTT_US then MAX_RTT_US else micros
  }

  predicate ShortText(s: Bytes) {
    |s| <= Utf8.MAX_ERROR_TEXT_BYTES && Utf8.Valid(s)
  }

  class WsHealthMonitor {
    const staleThreshold: nat
    var connectionStarted: Instant
    var lastMessageReceived: Instant
    var lastMessageSent: Instant
    var messageCount: nat
    var errorCount: nat
    var connectAttempts: nat
    var connectSuccesses: nat
    var reconnectCount: nat
    const serverErrors: CircularBuffer<ServerErrorRec>
    const internalErrors: CircularBuffer<InternalErrorRec>
    var samples: seq<nat>            // what the latency histogram has recorded
    var rttClampedSamples: nat

    /** The part the health-checked client loop drives. */
    ghost function Counters(): L.Counters
      reads this
    {
      L.Counters(connectAttempts, connectSuccesses, reconnectCount, messageCount, errorCount, lastMessageReceived)
    }

    /** Memory stays bounded: few errors, short valid texts, samples within the histogram's range. */
    ghost predicate Valid()
      reads this, serverErrors, internalErrors
    {
      && serverErrors.Valid() && serverErrors.capacity == MAX_RECENT_ERRORS
      && internalErrors.Valid() && internalErrors.capacity == MAX_RECENT_ERRORS
      && (forall i :: 0 <= i < |serverErrors.buffer| ==> ShortText(serverErrors.buffer[i].message))
      && (forall i :: 0 <= i < |internalErrors.buffer| ==>
                        ShortText(internalErrors.buffer[i].context) && ShortText(internalErrors.buffer[i].error))
      && (forall i :: 0 <= i < |samples| ==> MIN_RTT_US <= samples[i] <= MAX_RTT_US)
      && rttClampedSamples <= |samples|
    }

    constructor (staleThreshold: nat, now: Instant)
      ensures Valid() && fresh(serverErrors) && fresh(internalErrors)
      ensures Counters() == L.Counters(0, 0, 0, 0, 0, now) && this.staleThreshold == staleThreshold
    {
      this.staleThreshold := staleThreshold;
      connectionStarted, lastMessageReceived, lastMessageSent := now, now, now;
      messageCount, errorCount := 0, 0;
      connectAttempts, connectSuccesses, reconnectCount := 0, 0, 0;
      serverErrors := new CircularBuffer(MAX_RECENT_ERRORS);
      internalErrors := new CircularBuffer(MAX_RECENT_ERRORS);
      samples, rttClampedSamples := [], 0;
    }

    /** Forget the connection; keep the attempt, success and reconnect counts. */
    method ResetConnection(now: Instant)
      requires Valid()
      modifies this, serverErrors, internalErrors
      ensures Valid() && Counters() == L.ResetConnection(old(Counters()), now)
      ensures serverErrors.buffer == [] && internalErrors.buffer == [] && samples == [] && rttClampedSamples == 0
      ensures connectionStarted == lastMessageSent == now
    {
      connectionStarted, lastMessageReceived, lastMessageSent := now, now, now;
      messageCount, errorCount := 0, 0;
      serverErrors.Clear();
      internalErrors.Clear();
      samples, rttClampedSamples := [], 0;
    }

    method RecordConnectAttempt()
      requires Valid()
      modifies this`connectAttempts
      ensures Valid() && Counters() == L.CountAttempt(old(Counters()))
    {
      connectAttempts := SaturatingInc(connectAttempts, U64_MAX);
    }

    method RecordConnectSuccess()
      requires Valid()
      modifies this`connectSuccesses
      ensures Valid() && Counters() == L.CountSuccess(old(Counters()))
    {
      connectSuccesses := SaturatingInc(connectSuccesses, U64_MAX);
    }

    method IncrementReconnect()
      requires Valid()
      modifies this`reconnectCount
      ensures Valid() && Counters() == L.CountReconnect(old(Counters()))
    {
      reconnectCount := SaturatingInc(reconnectCount, U64_MAX);
    }

    method RecordMessage(now: Instant)
      requires Valid()
      modifies this`lastMessageReceived, this`messageCount
      ensures Valid() && Counters() == L.CountMessage(old(Counters()), now)
    {
      lastMessageReceived := now;
      messageCount := SaturatingInc(messageCount, U64_MAX);
    }

    method RecordError()
      requires Valid()
      modifies this`errorCount
      ensures Valid() && Counters() == L.CountError(old(Counters()))
    {
      errorCount := SaturatingInc(errorCount, U64_MAX);
    }

    /** Counted, and kept among the latest hundred with its text cut to size. */
    method RecordServerError(code: Option<int>, message: Bytes, now: Instant)
      requires Valid() && Utf8.Valid(message)
      modifies this`errorCount, serverErrors
      ensures Valid() && Counters() == L.CountError(old(Counters()))
      ensures exists text :: Utf8.IsTruncation(message, text) &&
                serverErrors.buffer == Pushed(old(serverErrors.buffer), MAX_RECENT_ERRORS, ServerErrorRec(now, code, text))
    {
      RecordError();
      var text, _ := Utf8.TruncateString(message);
      serverErrors.Push(ServerErrorRec(now, code, text));
    }

    method RecordInternalError(context: Bytes, error: Bytes, now: Instant)
      requires Valid() && Utf8.Valid(context) && Utf8.Valid(error)
      modifies this`errorCount, internalErrors
      ensures Valid() && Counters() == L.CountError(old(Counters()))
      ensures exists c, e :: Utf8.IsTruncation(context, c) && Utf8.IsTruncation(error, e) &&
                internalErrors.buffer == Pushed(old(internalErrors.buffer), MAX_RECENT_ERRORS, InternalErrorRec(now, c, e))
    {
      RecordError();
      var c, _ := Utf8.TruncateString(context);
      var e, _ := Utf8.TruncateString(error);
      internalErrors.Push(InternalErrorRec(now, c, e));
    }

    /** A sample is always recorded, moved into range if need be and then counted as clamped. */
    method RecordRtt(latencyMicros: nat)
      requires Valid()
      modifies this`samples, this`rttClampedSamples
      ensures Valid() && samples == old(samples) + [Clamped(latencyMicros)]
      ensures rttClampedSamples == if Clamped(latencyMicros) == latencyMicros then old(rttClampedSamples)
                                   else SaturatingInc(old(rttClampedSamples), U64_MAX)
    {
      var micros := if latencyMicros > U64_MAX then U64_MAX else latencyMicros;
      var clamped := false;
      if micros < MIN_RTT_US {
        micros := MIN_RTT_US;
        clamped := true;
      }
      if micros > MAX_RTT_US {
        micros := MAX_RTT_US;
        clamped := true;
      }
      if clamped {
        rttClampedSamples := SaturatingInc(rttClampedSamples, U64_MAX);
      }
      samples := samples + [micros];
    }

    /** What the loop's tick asks. */
    predicate IsStale(now: Instant)
      reads this
      ensures IsStale(now) <==> L.MonitorStale(staleThreshold, Counters(), now)
    {
      now - lastMessageReceived > staleThreshold
    }
  }
}
