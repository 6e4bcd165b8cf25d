/** The health-checked loop against the plain one, and its connection counters. */
module ClientRefinement {
  import opened Prelude
  import opened Wire
  import opened ClientTrace
  import opened Ping
  import opened ClientLoop
  import opened ClientInvariant

  // ---- Refinement: with an inert health object the two loops are one ----

  ghost predicate Inert(strategy: Strategy) {
    && (forall h, now :: !strategy.stale(h, now))
    && (forall h, now :: strategy.create(h, now) == None)
    && (forall h, frame, now :: strategy.examine(h, frame, now) == NotPong)
  }

  /** No tick along the script finds the data stale. */
  predicate NeverStale(w: World, health: Health, created: Instant, script: seq<Input>) {
    forall n :: 0 <= n < |script| && script[n].PingTick? ==>
                  !MonitorStale(health.staleThreshold, HealthRun(w, health, created, script[..n]).counters, script[n].checkAt)
  }

  /** Same handler calls, writes and status stores; ticks are stutter steps. */
  lemma {:induction false} InertHealthRefinesPlain(w: World, health: Health, created: Instant, script: seq<Input>)
    requires Inert(health.strategy) && NeverStale(w, health, created, script)
    ensures HealthRun(w, health, created, script).client == Run(w, script)
  {
    hide HealthStep, Step;
    if script != [] {
      var n := |script| - 1;
      assert forall i :: 0 <= i <= n ==> script[..n][..i] == script[..i];
      InertHealthRefinesPlain(w, health, created, script[..n]);
      StepProjects(w, health, HealthRun(w, health, created, script[..n]), script[n]);
    }
  }

  function WithoutTicks(script: seq<Input>): seq<Input> {
    if script == [] then []
    else
      var rest, last := WithoutTicks(script[..|script| - 1]), script[|script| - 1];
      if last.PingTick? then rest else rest + [last]
  }

  lemma TickChangesNothing(w: World, c: Client, tick: Input)
    requires tick.PingTick?
    ensures Step(w, c, tick) == c
  {
    hide Open, OnCommand, OnFrame, Leave, Resume;
  }

  /** A run of the plain loop does not depend on the ticks in its schedule. */
  lemma {:induction false} TicksAreStutter(w: World, script: seq<Input>)
    ensures Run(w, script) == Run(w, WithoutTicks(script))
  {
    hide Step;
    if script != [] {
      var n := |script| - 1;
      TicksAreStutter(w, script[..n]);
      if script[n].PingTick? {
        TickChangesNothing(w, Run(w, script[..n]), script[n]);
      } else {
        var rest := WithoutTicks(script[..n]);
        assert (rest + [script[n]])[..|rest|] == rest;
      }
    }
  }

  /** With an inert health object the health-checked loop is the plain loop on
      the schedule without ticks. */
  lemma InertHealthIgnoresTicks(w: World, health: Health, created: Instant, script: seq<Input>)
    requires Inert(health.strategy) && NeverStale(w, health, created, script)
    ensures HealthRun(w, health, created, script).client == Run(w, WithoutTicks(script))
  {
    hide HealthRun, Run, Inert, NeverStale;
    InertHealthRefinesPlain(w, health, created, script);
    TicksAreStutter(w, script);
  }

  // ---- Connection counters, saturation included ----

  predicate CountersSound(h: Checked) {
    var k := h.counters;
    && k.reconnects <= k.successes <= k.attempts <= U64_MAX
    && (h.client.phase == Dialing ==> SaturatingInc(k.successes, U64_MAX) <= k.attempts)
    && (h.client.phase == InSession || (h.client.phase == Waiting && h.countReconnect) ==>
          SaturatingInc(k.reconnects, U64_MAX) <= k.successes)
  }

  lemma LeaveCounts(w: World, h: Checked, cause: Cause, statusFirst: bool, afterSession: bool)
    requires h.counters.reconnects <= h.counters.successes <= h.counters.attempts <= U64_MAX
    requires afterSession ==> SaturatingInc(h.counters.reconnects, U64_MAX) <= h.counters.successes
    ensures CountersSound(HealthLeave(w, h, cause, statusFirst, afterSession))
  {
    hide Depart, Emit;
  }

  lemma OpenCounts(w: World, h: Checked, at: Instant)
    requires CountersSound(h) && h.client.phase == Dialing
    ensures CountersSound(HealthOpen(w, h, at))
  {
    hide Greet, ReplaySubscriptions, Emit, HealthLeave;
    var c := h.client;
    var greeted := Greet(w, c);
    var c1 := c.(status := Connected, trace := greeted.trace);
    var h1 := h.(client := c1, counters := CountError(ResetConnection(CountSuccess(h.counters), at)),
                 pings := h.pings + [StrategyCleared]);
    if greeted.error.Some? {
      LeaveCounts(w, h1, InternalError(AuthSendContext, greeted.error.value), false, false);
    } else {
      var replayed := ReplaySubscriptions(w, Emit(greeted.trace, ModeRead(w.mode(greeted.trace))));
      if replayed.error.Some? {
        LeaveCounts(w, h1.(client := c1.(authenticated := true, trace := replayed.trace)),
                    InternalError(ReplayContext, replayed.error.value), false, false);
      }
    }
  }

  /** The counters of a session: its own success is not yet matched by a reconnect. */
  predicate SessionCounters(k: Counters) {
    k.reconnects <= SaturatingInc(k.reconnects, U64_MAX) <= k.successes <= k.attempts <= U64_MAX
  }

  lemma LeavingCounts(w: World)
    ensures forall h: Checked, cause: Cause :: SessionCounters(h.counters) ==>
                                                 CountersSound(HealthLeave(w, h, cause, true, true))
    ensures forall h: Checked, cause: Cause :: SessionCounters(h.counters) ==> CountersSound(HealthBreak(w, h, cause))
  {
    hide Leave, CountersSound;
    forall h: Checked, cause: Cause | SessionCounters(h.counters)
      ensures CountersSound(HealthLeave(w, h, cause, true, true))
    {
      LeaveCounts(w, h, cause, true, true);
    }
  }

  lemma ActionCounts(w: World, h: Checked, action: MessageAction)
    requires SessionCounters(h.counters) && h.client.phase == InSession
    ensures CountersSound(HealthOnAction(w, h, action))
  {
    hide Emit, SendFrame, ReplaySubscriptions, ApplyPending, HealthBreak, StoreStatus;
    LeavingCounts(w);
  }

  lemma OutcomeCounts(w: World, h: Checked, frame: Frame)
    requires SessionCounters(h.counters) && h.client.phase == InSession
    ensures CountersSound(HealthOnOutcome(w, h, frame))
  {
    hide Emit, HealthOnAction, HealthLeave;
    LeavingCounts(w);
    var outcome := w.parse(h.client.trace, frame);
    if outcome.Parsed? {
      ActionCounts(w, Note(h, Emit(h.client.trace, FrameParsed(frame, outcome))), outcome.action);
    }
  }

  lemma CommandCounts(w: World, h: Checked, command: Option<Command>)
    requires SessionCounters(h.counters) && h.client.phase == InSession
    ensures CountersSound(HealthOnCommand(w, h, command))
  {
    hide Emit, AttemptCommand, HealthBreak, StoreStatus;
    LeavingCounts(w);
  }

  lemma TickCounts(w: World, health: Health, h: Checked, checkAt: Instant, pingAt: Instant)
    requires SessionCounters(h.counters) && h.client.phase == InSession
    ensures CountersSound(HealthOnTick(w, health, h, checkAt, pingAt))
  {
    hide SendFrame, HealthBreak;
    LeavingCounts(w);
  }

  lemma FrameCounts(w: World, health: Health, h: Checked, frame: Frame, at: Instant)
    requires SessionCounters(h.counters) && h.client.phase == InSession
    ensures CountersSound(HealthOnFrame(w, health, h, frame, at))
  {
    hide Emit, SendFrame, HealthBreak, HealthOnOutcome;
    LeavingCounts(w);
    var result := health.strategy.examine(h.pings, frame, at);
    OutcomeCounts(w, Note(h, Emit(h.client.trace, InboundHook(frame)))
                     .(counters := CountMessage(h.counters, at), pings := h.pings + [FrameExamined(frame, at, result)]),
                  frame);
  }

  lemma SessionCounts(w: World, health: Health, h: Checked, input: Input)
    requires CountersSound(h) && h.client.phase == InSession
    ensures CountersSound(HealthSessionStep(w, health, h, input))
  {
    hide HealthOnCommand, HealthOnTick, HealthOnFrame, HealthBreak;
    match input
    case Received(command) => CommandCounts(w, h, command);
    case PingTick(checkAt, pingAt) => TickCounts(w, health, h, checkAt, pingAt);
    case Inbound(frame, at) => FrameCounts(w, health, h, frame, at);
    case _ => LeavingCounts(w);
  }

  lemma StepCounts(w: World, health: Health, h: Checked, input: Input)
    requires CountersSound(h)
    ensures CountersSound(HealthStep(w, health, h, input))
  {
    hide HealthOpen, HealthSessionStep, Emit, Depart;
    match h.client.phase
    case Dialing =>
      if input.ConnectOk? {
        OpenCounts(w, Note(h, Emit(h.client.trace, ConnectTried(None))), input.at);
      } else if input.ConnectFailed? {
        LeaveCounts(w, Note(h, Emit(h.client.trace, ConnectTried(Some(input.error)))).(counters := CountError(h.counters)),
                    InternalError(ConnectContext, input.error), true, false);
      }
    case InSession => SessionCounts(w, health, h, input);
    case _ =>
  }

  lemma {:induction false} ReconnectsNeverExceedSuccesses(w: World, health: Health, created: Instant, script: seq<Input>)
    ensures var k := HealthRun(w, health, created, script).counters; k.reconnects <= k.successes <= k.attempts
    ensures CountersSound(HealthRun(w, health, created, script))
  {
    hide HealthStep;
    if script != [] {
      var n := |script| - 1;
      ReconnectsNeverExceedSuccesses(w, health, created, script[..n]);
      StepCounts(w, health, HealthRun(w, health, created, script[..n]), script[n]);
    }
  }
}
