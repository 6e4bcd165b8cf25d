/** The protocol heartbeat inside the health-checked loop: when it declares a
    pong timeout, over whole runs. */
module ClientHeartbeat {
  import opened Prelude
  import opened Wire
  import opened ClientTrace
  import opened Ping
  import opened ProtocolPing
  import opened ClientLoop
  import opened ClientInvariant
  import opened ClientTheorems

  // ---- The calls the loop makes on its ping strategy ----

  function PingsMade(health: Health, h: Checked, input: Input): PingHistory {
    if h.client.phase == Dialing && input.ConnectOk? then [StrategyCleared]
    else if h.client.phase != InSession then []
    else
      match input
      case PingTick(checkAt, pingAt) =>
        if health.strategy.stale(h.pings, checkAt) || MonitorStale(health.staleThreshold, h.counters, checkAt) then []
        else [PingCreated(pingAt, health.strategy.create(h.pings, pingAt))]
      case Inbound(frame, at) => [FrameExamined(frame, at, health.strategy.examine(h.pings, frame, at))]
      case _ => []
  }

  lemma LeavingKeepsPings()
    ensures forall w: World, h: Checked, cause: Cause, statusFirst: bool, afterSession: bool
              {:trigger HealthLeave(w, h, cause, statusFirst, afterSession)} ::
              HealthLeave(w, h, cause, statusFirst, afterSession).pings == h.pings
    ensures forall w: World, h: Checked, cause: Cause {:trigger HealthBreak(w, h, cause)} ::
              HealthBreak(w, h, cause).pings == h.pings
  {
    hide Leave;
  }

  lemma ActionKeepsPings(w: World, h: Checked, action: MessageAction)
    ensures HealthOnAction(w, h, action).pings == h.pings
  {
    hide HealthLeave, HealthBreak, SendFrame, ReplaySubscriptions, ApplyPending, Emit, Stop;
    LeavingKeepsPings();
  }

  lemma OutcomeKeepsPings(w: World, h: Checked, frame: Frame)
    ensures HealthOnOutcome(w, h, frame).pings == h.pings
  {
    hide HealthLeave, HealthBreak, HealthOnAction, Emit;
    LeavingKeepsPings();
    var outcome := w.parse(h.client.trace, frame);
    if outcome.Parsed? {
      ActionKeepsPings(w, Note(h, Emit(h.client.trace, FrameParsed(frame, outcome))), outcome.action);
    }
  }

  lemma CommandKeepsPings(w: World, h: Checked, command: Option<Command>)
    ensures HealthOnCommand(w, h, command).pings == h.pings
  {
    hide HealthLeave, HealthBreak, AttemptCommand, Emit, Stop;
    LeavingKeepsPings();
  }

  lemma OpenClearsPings(w: World, h: Checked, at: Instant)
    ensures HealthOpen(w, h, at).pings == h.pings + [StrategyCleared]
  {
    hide HealthLeave, Greet, ReplaySubscriptions, Emit;
    LeavingKeepsPings();
  }

  lemma FramePings(w: World, health: Health, h: Checked, frame: Frame, at: Instant)
    ensures HealthOnFrame(w, health, h, frame, at).pings ==
            h.pings + [FrameExamined(frame, at, health.strategy.examine(h.pings, frame, at))]
  {
    hide HealthBreak, SendFrame, Emit, HealthOnOutcome;
    LeavingKeepsPings();
    var result := health.strategy.examine(h.pings, frame, at);
    OutcomeKeepsPings(w, Note(h, Emit(h.client.trace, InboundHook(frame)))
                         .(counters := CountMessage(h.counters, at),
                           pings := h.pings + [FrameExamined(frame, at, result)]), frame);
  }

  lemma StepPings(w: World, health: Health, h: Checked, input: Input)
    ensures HealthStep(w, health, h, input).pings == h.pings + PingsMade(health, h, input)
  {
    hide HealthLeave, HealthBreak, SendFrame, Emit, HealthOnFrame, HealthOnCommand, HealthOpen, WaitStep;
    LeavingKeepsPings();
    match input
    case ConnectOk(at) => OpenClearsPings(w, Note(h, Emit(h.client.trace, ConnectTried(None))), at);
    case Received(command) => CommandKeepsPings(w, h, command);
    case Inbound(frame, at) => FramePings(w, health, h, frame, at);
    case _ =>
  }

  // ---- Time ----

  predicate Stamped(input: Input) {
    input.ConnectOk? || input.Inbound? || input.PingTick?
  }

  function Begin(input: Input): Instant {
    if input.PingTick? then input.checkAt else if Stamped(input) then input.at else 0
  }

  function End(input: Input): Instant {
    if input.PingTick? then input.pingAt else Begin(input)
  }

  /** The clock never goes back. */
  predicate TimesRise(script: seq<Input>) {
    && (forall i :: 0 <= i < |script| ==> Begin(script[i]) <= End(script[i]))
    && (forall i, j :: 0 <= i < j < |script| && Stamped(script[j]) ==> End(script[i]) <= Begin(script[j]))
  }

  /** No call of the current session lies after `now`. */
  ghost predicate UpTo(h: PingHistory, now: Instant) {
    forall i :: Current(h, i) ==> TimeOf(h[i]) <= now
  }

  lemma AppendCall(h: PingHistory, call: PingCall)
    requires Chronological(h) && UpTo(h, TimeOf(call))
    ensures Chronological(h + [call]) && UpTo(h + [call], TimeOf(call))
  {
    var r := h + [call];
    forall i | Current(r, i) && i < |h|
      ensures Current(h, i) && r[i] == h[i]
    {
      assert forall j :: i <= j < |h| ==> r[j] == h[j];
    }
  }

  lemma ClearedCall(h: PingHistory)
    ensures Chronological(h + [StrategyCleared]) && forall now :: UpTo(h + [StrategyCleared], now)
  {
    var r := h + [StrategyCleared];
    assert r[|h|] == StrategyCleared;
    assert forall i :: !Current(r, i);
  }

  lemma {:induction false} PingsChronological(w: World, health: Health, created: Instant, script: seq<Input>, now: Instant)
    requires TimesRise(script) && forall i :: 0 <= i < |script| ==> End(script[i]) <= now
    ensures var pings := HealthRun(w, health, created, script).pings; Chronological(pings) && UpTo(pings, now)
  {
    hide HealthStep, Chronological, Current;
    if script == [] {
      NothingYet(now);
    } else {
      var n := |script| - 1;
      var h := HealthRun(w, health, created, script[..n]);
      PingsChronological(w, health, created, script[..n], if Stamped(script[n]) then Begin(script[n]) else now);
      StepPings(w, health, h, script[n]);
      var made := PingsMade(health, h, script[n]);
      if made == [StrategyCleared] {
        ClearedCall(h.pings);
      } else if made != [] {
        AppendCall(h.pings, made[0]);
      } else {
        assert h.pings + made == h.pings;
      }
    }
  }

  lemma NothingYet(now: Instant)
    ensures Chronological([]) && UpTo([], now)
  {
  }

  // ---- When the alarm is raised ----

  function ProtocolHealth(timeout: nat, staleThreshold: nat): Health {
    Health(ProtocolStrategy(timeout), staleThreshold)
  }

  /** The latest ping of the session is older than the timeout, and no pong came at its time or later. */
  ghost predicate Unanswered(pings: PingHistory, timeout: nat, now: Instant) {
    exists i :: LatestPing(pings, i) && now - pings[i].at > timeout &&
                forall j :: PongAt(pings, j) && Current(pings, j) ==> pings[j].at < pings[i].at
  }

  /** A tick declares a pong timeout exactly when the ping before it went unanswered for too long. */
  lemma TickAlarmsIffUnanswered(w: World, timeout: nat, staleThreshold: nat, created: Instant,
                                script: seq<Input>, checkAt: Instant, pingAt: Instant)
    requires TimesRise(script)
    ensures var health := ProtocolHealth(timeout, staleThreshold);
            var h := HealthRun(w, health, created, script);
            h.client.phase == InSession ==>
              Alarms(HealthRun(w, health, created, script + [PingTick(checkAt, pingAt)]).client) ==
              Alarms(h.client) + (if Unanswered(h.pings, timeout, checkAt) then 1 else 0)
  {
    hide HealthStep, Alarms, Sound, Advances, KeepsSettled;
    var health := ProtocolHealth(timeout, staleThreshold);
    var h := HealthRun(w, health, created, script);
    var tick := PingTick(checkAt, pingAt);
    assert (script + [tick])[..|script|] == script;
    HealthRunSound(w, health, created, script);
    HealthStepSound(w, health, h, tick);
    StaleMeansUnanswered(w, timeout, staleThreshold, created, script, checkAt);
    hide Unanswered, ProtocolStale;
  }

  lemma StaleMeansUnanswered(w: World, timeout: nat, staleThreshold: nat, created: Instant,
                             script: seq<Input>, checkAt: Instant)
    requires TimesRise(script)
    ensures var pings := HealthRun(w, ProtocolHealth(timeout, staleThreshold), created, script).pings;
            ProtocolStale(timeout, pings, checkAt) <==> Unanswered(pings, timeout, checkAt)
  {
    hide HealthRun;
    var health := ProtocolHealth(timeout, staleThreshold);
    var now := LatestEnd(script);
    PingsChronological(w, health, created, script, now);
    StaleIffUnanswered(timeout, HealthRun(w, health, created, script).pings, checkAt);
  }

  lemma {:induction false} LatestEnd(script: seq<Input>) returns (now: Instant)
    ensures forall i :: 0 <= i < |script| ==> End(script[i]) <= now
  {
    now := 0;
    if script != [] {
      var n := |script| - 1;
      var before := LatestEnd(script[..n]);
      now := if before < End(script[n]) then End(script[n]) else before;
      assert forall i :: 0 <= i < n ==> script[i] == script[..n][i];
    }
  }

  // ---- Ticks that are too close never raise it ----

  function LastTick(script: seq<Input>): Option<Instant> {
    if script == [] then None
    else if script[|script| - 1].PingTick? then Some(script[|script| - 1].pingAt)
    else LastTick(script[..|script| - 1])
  }

  /** Every tick checks within `timeout` of the ping time of the tick before it. */
  predicate CloseTicks(script: seq<Input>, timeout: nat) {
    forall n :: 0 <= n < |script| && script[n].PingTick? && LastTick(script[..n]).Some? ==>
                  script[n].checkAt - LastTick(script[..n]).value <= timeout
  }

  lemma {:induction false} CloseTicksNeverAlarm(w: World, timeout: nat, staleThreshold: nat, created: Instant, script: seq<Input>)
    requires CloseTicks(script, timeout)
    ensures var h := HealthRun(w, ProtocolHealth(timeout, staleThreshold), created, script);
            && Alarms(h.client) == 0
            && (h.client.phase == InSession ==>
                  LastPing(h.pings) == None || LastPing(h.pings) == LastTick(script))
  {
    hide HealthStep, Sound, Advances, KeepsSettled, Emit;
    var health := ProtocolHealth(timeout, staleThreshold);
    if script != [] {
      var n := |script| - 1;
      var h := HealthRun(w, health, created, script[..n]);
      assert forall i :: 0 <= i <= n ==> script[..n][..i] == script[..i];
      CloseTicksNeverAlarm(w, timeout, staleThreshold, created, script[..n]);
      HealthRunSound(w, health, created, script[..n]);
      HealthStepSound(w, health, h, script[n]);
      assert !Alarming(health, h, script[n]);
      StepPings(w, health, h, script[n]);
      StepLastPing(health, h, script[n]);
      if HealthStep(w, health, h, script[n]).client.phase == InSession {
        SessionContinues(w, health, h, script[n]);
      }
    }
  }

  lemma StepLastPing(health: Health, h: Checked, input: Input)
    ensures var made := PingsMade(health, h, input);
            LastPing(h.pings + made) ==
            if made == [] || made[0].FrameExamined? then LastPing(h.pings)
            else if made[0].PingCreated? then Some(made[0].at) else None
  {
    var made := PingsMade(health, h, input);
    if made == [] {
      assert h.pings + made == h.pings;
    } else {
      assert (h.pings + made)[..|h.pings|] == h.pings;
    }
  }

  /** A step ends in a session only by opening one, or by staying in one past the checks of a tick. */
  lemma SessionContinues(w: World, health: Health, h: Checked, input: Input)
    requires HealthStep(w, health, h, input).client.phase == InSession
    ensures (h.client.phase == Dialing && input.ConnectOk?) || h.client.phase == InSession
    ensures h.client.phase == InSession && input.PingTick? ==> PingsMade(health, h, input) != []
  {
    hide HealthOpen, HealthOnCommand, HealthOnFrame, SendFrame, Emit, HealthLeave, HealthBreak, WaitStep;
    LeavingEndsTheSession();
    WaitOpensNothing(h.client, input);
  }

  lemma WaitOpensNothing(c: Client, input: Input)
    ensures c.phase == Waiting ==> WaitStep(c, input).phase != InSession
  {
    hide Emit;
  }

  lemma LeavingEndsTheSession()
    ensures forall w: World, h: Checked, cause: Cause, statusFirst: bool, afterSession: bool
              {:trigger HealthLeave(w, h, cause, statusFirst, afterSession)} ::
              HealthLeave(w, h, cause, statusFirst, afterSession).client.phase != InSession
    ensures forall w: World, h: Checked, cause: Cause {:trigger HealthBreak(w, h, cause)} ::
              HealthBreak(w, h, cause).client.phase != InSession
  {
    hide Emit, Depart;
  }

  // ---- A dead peer is caught at the next tick, or at none ----

  predicate IsPong(input: Input) { input.Inbound? && input.frame.Pong? }

  predicate HasPong(script: seq<Input>) {
    exists i :: 0 <= i < |script| && IsPong(script[i])
  }

  /** No tick and no new connection. */
  predicate Uneventful(script: seq<Input>) {
    forall i :: 0 <= i < |script| ==> !script[i].PingTick? && !script[i].ConnectOk?
  }

  /** The pong time a session remembers is that of a pong it was given. */
  lemma {:induction false} PongFromScript(w: World, health: Health, created: Instant, script: seq<Input>)
    ensures var pong := LastPong(HealthRun(w, health, created, script).pings);
            pong.Some? ==> exists i :: 0 <= i < |script| && IsPong(script[i]) && script[i].at == pong.value
  {
    hide HealthStep;
    if script != [] {
      var n := |script| - 1;
      var h := HealthRun(w, health, created, script[..n]);
      PongFromScript(w, health, created, script[..n]);
      StepPings(w, health, h, script[n]);
      StepLastPong(health, h, script[n]);
      assert forall i :: 0 <= i < n ==> script[..n][i] == script[i];
    }
  }

  lemma StepLastPong(health: Health, h: Checked, input: Input)
    ensures var made := PingsMade(health, h, input);
            LastPong(h.pings + made) ==
            if made == [] || made[0].PingCreated? then LastPong(h.pings)
            else if made[0].FrameExamined? then (if IsPong(input) then Some(input.at) else LastPong(h.pings))
            else None
  {
    var made := PingsMade(health, h, input);
    if made == [] {
      assert h.pings + made == h.pings;
    } else {
      assert (h.pings + made)[..|h.pings|] == h.pings;
    }
  }

  /** After a tick, while the session lasts and nothing but frames and commands
      arrives: its ping is the latest, and it is answered once a pong arrives. */
  lemma {:induction false} SincePing(w: World, health: Health, created: Instant, pre: seq<Input>, tick: Input, mid: seq<Input>)
    requires tick.PingTick? && Uneventful(mid)
    requires HealthRun(w, health, created, pre + [tick] + mid).client.phase == InSession
    requires forall i :: 0 <= i < |pre| && IsPong(pre[i]) ==> pre[i].at < tick.pingAt
    requires forall i :: 0 <= i < |mid| && IsPong(mid[i]) ==> tick.pingAt <= mid[i].at
    ensures var pings := HealthRun(w, health, created, pre + [tick] + mid).pings;
            && LastPing(pings) == Some(tick.pingAt)
            && ((LastPong(pings).Some? && LastPong(pings).value >= tick.pingAt) <==> HasPong(mid))
  {
    hide HealthStep, LastPing, LastPong;
    var script := pre + [tick] + mid;
    var n := |script| - 1;
    var h := HealthRun(w, health, created, script[..n]);
    StepPings(w, health, h, script[n]);
    SessionContinues(w, health, h, script[n]);
    StepLastPing(health, h, script[n]);
    StepLastPong(health, h, script[n]);
    if mid == [] {
      assert script[..n] == pre;
      PongFromScript(w, health, created, pre);
    } else {
      var m := |mid| - 1;
      assert script[..n] == pre + [tick] + mid[..m];
      SincePing(w, health, created, pre, tick, mid[..m]);
      assert HasPong(mid) <==> HasPong(mid[..m]) || IsPong(mid[m]) by {
        assert forall i :: 0 <= i < m ==> mid[..m][i] == mid[i];
      }
    }
  }

  /** Between two ticks of one session: the second declares a pong timeout if and
      only if it comes more than the timeout after the first one's ping and no
      pong arrived in between. */
  lemma NextTickCatchesIffUnanswered(w: World, timeout: nat, staleThreshold: nat, created: Instant,
                                     pre: seq<Input>, tick: Input, mid: seq<Input>, checkAt: Instant, pingAt: Instant)
    requires tick.PingTick? && Uneventful(mid) && TimesRise(pre + [tick] + mid)
    requires forall i :: 0 <= i < |pre| && IsPong(pre[i]) ==> pre[i].at < tick.pingAt
    ensures var health := ProtocolHealth(timeout, staleThreshold);
            var script := pre + [tick] + mid;
            var h := HealthRun(w, health, created, script);
            h.client.phase == InSession ==>
              Alarms(HealthRun(w, health, created, script + [PingTick(checkAt, pingAt)]).client) ==
              Alarms(h.client) + (if checkAt - tick.pingAt > timeout && !HasPong(mid) then 1 else 0)
  {
    hide HealthStep, Alarms, Sound, Advances, KeepsSettled, LastPing, LastPong;
    var health := ProtocolHealth(timeout, staleThreshold);
    var script := pre + [tick] + mid;
    var h := HealthRun(w, health, created, script);
    if h.client.phase == InSession {
      var next := PingTick(checkAt, pingAt);
      assert (script + [next])[..|script|] == script;
      HealthRunSound(w, health, created, script);
      HealthStepSound(w, health, h, next);
      forall i | 0 <= i < |mid| && IsPong(mid[i]) ensures tick.pingAt <= mid[i].at {
        assert script[|pre|] == tick && script[|pre| + 1 + i] == mid[i];
        assert Stamped(script[|pre| + 1 + i]);
      }
      SincePing(w, health, created, pre, tick, mid);
    }
  }
}
