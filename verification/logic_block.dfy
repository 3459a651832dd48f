/** One block of the runtime: its engine, its health and its live-execution
    rate window. */
module LogicBlocks {
  import opened Values
  import opened TransientState
  import opened LuaConversion
  import opened Engines

  const FAILURE_SUSPENSION_THRESHOLD: nat := 5
  const RATE_WINDOW_MS: nat := 1000

  datatype BlockHealth = Disabled | Active | SuspendedScriptFailures | SuspendedEventRate
  datatype BlockSuspension = ScriptFailures | EventRate

  /** The mutable part of a block. */
  datatype BlockState = BlockState(
    enabled: bool,
    engine: EngineState,
    health: BlockHealth,
    failures: nat,
    window: seq<MonotonicMs>,
    lastSuspension: Option<BlockSuspension>)

  // ----- transitions ----------------------------------------------------------------

  predicate Expired(started: MonotonicMs, now: MonotonicMs) {
    now >= started + RATE_WINDOW_MS
  }

  /** How many starts at the front have left the window. */
  ghost function LeadingExpired(window: seq<MonotonicMs>, now: MonotonicMs): (n: nat)
    ensures n <= |window| && forall i :: 0 <= i < n ==> Expired(window[i], now)
    ensures n < |window| ==> !Expired(window[n], now)
  {
    if window != [] && Expired(window[0], now) then LeadingExpired(window[1..], now) + 1 else 0
  }

  ghost function Pruned(window: seq<MonotonicMs>, now: MonotonicMs): seq<MonotonicMs> {
    window[LeadingExpired(window, now)..]
  }

  /** Admits one live handler call, or suspends the block. */
  ghost function Admit(b: BlockState, now: MonotonicMs, maximum: nat): (BlockState, bool) {
    if b.health != Active then (b, false)
    else
      var window := Pruned(b.window, now);
      if |window| >= maximum then
        (b.(window := window, health := SuspendedEventRate, lastSuspension := Some(EventRate), failures := 0,
            engine := b.engine.(timers := map[])), false)
      else (b.(window := window + [now]), true)
  }

  /** Whether an outcome counts towards suspension. */
  predicate CountsAsFailure(outcome: Result<Transition, LogicErrorKind>) {
    outcome.Err? && outcome.error in {RuntimeFailure, InstructionLimit, MemoryLimit, HandlerTimeLimit, InvalidResult}
  }

  function Record(b: BlockState, outcome: Result<Transition, LogicErrorKind>): BlockState {
    if CountsAsFailure(outcome) then
      var failures := if b.failures < U32_MAX then b.failures + 1 else b.failures;
      if failures >= FAILURE_SUSPENSION_THRESHOLD then
        b.(failures := failures, health := SuspendedScriptFailures, lastSuspension := Some(ScriptFailures), window := [],
           engine := b.engine.(timers := map[]))
      else b.(failures := failures)
    else if outcome.Ok? then b.(failures := 0)
    else b
  }

  function ResetHealth(b: BlockState): BlockState {
    b.(health := if b.enabled then Active else Disabled, failures := 0, window := [], lastSuspension := None)
  }

  function SetEnabled(b: BlockState, enabled: bool): BlockState {
    ResetHealth(b.(enabled := enabled, engine := if enabled then b.engine else b.engine.(timers := map[])))
  }

  /** A source with a new revision replaces the program and cancels timers. */
  function ActivateProgram(b: BlockState, program: LogicProgram): BlockState {
    if program.revision == b.engine.logic.revision then b
    else ResetHealth(b.(engine := b.engine.(logic := program, timers := map[])))
  }

  // ----- what always holds of a block -------------------------------------------------

  ghost predicate Ordered(times: seq<MonotonicMs>) {
    forall i, j :: 0 <= i < j < |times| ==> times[i] <= times[j]
  }

  ghost predicate WindowOk(window: seq<MonotonicMs>, maximum: nat, clock: Option<MonotonicMs>) {
    Ordered(window) && |window| <= maximum && forall i :: 0 <= i < |window| ==> NotAfter(Some(window[i]), clock)
  }

  ghost predicate HealthOk(b: BlockState) {
    && (b.health == Disabled <==> !b.enabled)
    && (b.health == Active ==> b.failures < FAILURE_SUSPENSION_THRESHOLD)
    && (b.engine.timers != map[] ==> b.enabled && b.health == Active)
  }

  /** The reachable-state invariant of a block whose runtime clock is `clock`. */
  ghost predicate BlockInv(limits: Limits, endpoints: seq<Endpoint>, b: BlockState, clock: Option<MonotonicMs>) {
    && EngineInv(limits, endpoints, b.engine)
    && NotAfter(b.engine.lastAcceptedAt, clock)
    && HealthOk(b)
    && WindowOk(b.window, limits.maxLiveExecutionsPerBlockPerSecond, clock)
  }

  lemma LaterClockKeepsInv(limits: Limits, endpoints: seq<Endpoint>, b: BlockState, clock: Option<MonotonicMs>, now: MonotonicMs)
    requires BlockInv(limits, endpoints, b, clock) && NotAfter(clock, Some(now))
    ensures BlockInv(limits, endpoints, b, Some(now))
  {
  }

  /** Cancelling timers never hurts. */
  lemma NoTimersKeepsInv(limits: Limits, endpoints: seq<Endpoint>, e: EngineState)
    requires EngineInv(limits, endpoints, e)
    ensures EngineInv(limits, endpoints, e.(timers := map[]))
  {
  }

  lemma AdmitKeepsInv(limits: Limits, endpoints: seq<Endpoint>, b: BlockState, now: MonotonicMs)
    requires BlockInv(limits, endpoints, b, Some(now))
    ensures var (after, admitted) := Admit(b, now, limits.maxLiveExecutionsPerBlockPerSecond);
            && BlockInv(limits, endpoints, after, Some(now))
            && (admitted <==> b.health == Active && after.health == Active)
            && after.enabled == b.enabled
            && (admitted ==> after.engine == b.engine)
            && (!admitted ==> after.engine == b.engine || after.engine == b.engine.(timers := map[]))
  {
    NoTimersKeepsInv(limits, endpoints, b.engine);
    var window := Pruned(b.window, now);
    assert Ordered(window + [now]);
  }

  lemma RecordKeepsInv(limits: Limits, endpoints: seq<Endpoint>, b: BlockState, outcome: Result<Transition, LogicErrorKind>, clock: Option<MonotonicMs>)
    requires BlockInv(limits, endpoints, b, clock) && b.health == Active
    ensures BlockInv(limits, endpoints, Record(b, outcome), clock)
    ensures Record(b, outcome).engine == b.engine || Record(b, outcome).engine == b.engine.(timers := map[])
  {
    NoTimersKeepsInv(limits, endpoints, b.engine);
  }

  lemma ResetKeepsInv(limits: Limits, endpoints: seq<Endpoint>, b: BlockState, clock: Option<MonotonicMs>)
    requires BlockInv(limits, endpoints, b, clock)
    ensures BlockInv(limits, endpoints, ResetHealth(b), clock)
    ensures forall enabled :: BlockInv(limits, endpoints, SetEnabled(b, enabled), clock)
    ensures forall program :: BlockInv(limits, endpoints, ActivateProgram(b, program), clock)
  {
    NoTimersKeepsInv(limits, endpoints, b.engine);
  }

  // ----- when a block is suspended -------------------------------------------------------

  /** The starts less than one window old. */
  function RecentStarts(window: seq<MonotonicMs>, now: MonotonicMs): seq<MonotonicMs> {
    if window == [] then []
    else (if Expired(window[0], now) then [] else [window[0]]) + RecentStarts(window[1..], now)
  }

  /** In order, pruning the front drops every expired start and no other. */
  lemma {:induction false} PrunedIsRecent(window: seq<MonotonicMs>, now: MonotonicMs)
    requires Ordered(window)
    ensures Pruned(window, now) == RecentStarts(window, now)
    decreases |window|
  {
    if window != [] {
      PrunedIsRecent(window[1..], now);
      if Expired(window[0], now) {
        assert window[1..][LeadingExpired(window[1..], now)..] == window[LeadingExpired(window, now)..];
      } else {
        NoneExpired(window, now);
      }
    }
  }

  lemma {:induction false} NoneExpired(window: seq<MonotonicMs>, now: MonotonicMs)
    requires Ordered(window) && (window != [] ==> !Expired(window[0], now))
    ensures RecentStarts(window, now) == window
    decreases |window|
  {
    if window != [] {
      var rest := window[1..];
      assert rest != [] ==> rest[0] == window[1] && window[0] <= window[1];
      NoneExpired(rest, now);
      assert window == [window[0]] + rest;
    }
  }

  /** The starts less than a second ago, by their place in the window. */
  ghost function LastSecond(window: seq<MonotonicMs>, now: MonotonicMs): set<nat> { set i | 0 <= i < |window| && now < window[i] + 1000 }

  lemma {:induction false} RecentIsLastSecond(window: seq<MonotonicMs>, now: MonotonicMs)
    ensures |RecentStarts(window, now)| == |LastSecond(window, now)|
    decreases |window|
  {
    if window != [] {
      var n := |window| - 1;
      var front := window[..n];
      RecentIsLastSecond(front, now);
      RecentLast(window, now);
      assert LastSecond(window, now) == LastSecond(front, now) + if now < window[n] + 1000 then {n} else {};
    }
  }

  lemma {:induction false} RecentLast(window: seq<MonotonicMs>, now: MonotonicMs)
    requires window != []
    ensures var last := window[|window| - 1];
            RecentStarts(window, now) == RecentStarts(window[..|window| - 1], now) + if Expired(last, now) then [] else [last]
  {
    if |window| > 1 {
      RecentLast(window[1..], now);
      assert window[1..][..|window| - 2] == window[..|window| - 1][1..];
    }
  }

  /** An active block is admitted exactly while fewer than `maximum` executions
      started within the last window; otherwise it is suspended. */
  lemma AdmissionRule(b: BlockState, now: MonotonicMs, maximum: nat)
    requires Ordered(b.window)
    ensures var (after, admitted) := Admit(b, now, maximum);
            && (admitted <==> b.health == Active && |RecentStarts(b.window, now)| < maximum)
            && (b.health == Active && !admitted ==>
                  after.health == SuspendedEventRate && after.lastSuspension == Some(EventRate) && after.engine.timers == map[])
  {
    PrunedIsRecent(b.window, now);
  }

  /** Every failure counts but those of a program that does not load, and
      nothing else does. */
  lemma CountedFailures(outcome: Result<Transition, LogicErrorKind>)
    ensures CountsAsFailure(outcome) <==> outcome.Err? && outcome.error != Syntax && outcome.error != Load
  {
  }

  ghost function RecordAll(b: BlockState, outcomes: seq<Result<Transition, LogicErrorKind>>): BlockState
    decreases |outcomes|
  {
    if outcomes == [] then b else RecordAll(Record(b, outcomes[0]), outcomes[1..])
  }

  /** Consecutive counted failures suspend an active block at the fifth, and not
      before. */
  lemma {:induction false} FifthFailureSuspends(b: BlockState, outcomes: seq<Result<Transition, LogicErrorKind>>)
    requires b.health == Active && b.failures < FAILURE_SUSPENSION_THRESHOLD
    requires forall o :: o in outcomes ==> CountsAsFailure(o)
    ensures b.failures + |outcomes| < FAILURE_SUSPENSION_THRESHOLD ==>
              RecordAll(b, outcomes).health == Active && RecordAll(b, outcomes).failures == b.failures + |outcomes|
    ensures b.failures + |outcomes| == FAILURE_SUSPENSION_THRESHOLD ==>
              var after := RecordAll(b, outcomes);
              after.health == SuspendedScriptFailures && after.lastSuspension == Some(ScriptFailures) && after.engine.timers == map[]
    decreases |outcomes|
  {
    if outcomes != [] {
      assert outcomes[0] in outcomes;
      var next := Record(b, outcomes[0]);
      if next.health == Active {
        FifthFailureSuspends(next, outcomes[1..]);
      } else {
        assert b.failures + 1 == FAILURE_SUSPENSION_THRESHOLD;
      }
    }
  }

  /** The counted failures since the last success, `start` of them before the
      first outcome; outcomes of neither kind leave the streak as it is. */
  function Streak(start: nat, outcomes: seq<Result<Transition, LogicErrorKind>>): nat {
    if outcomes == [] then start
    else
      var front, last := outcomes[..|outcomes| - 1], outcomes[|outcomes| - 1];
      if last.Ok? then 0 else Streak(start, front) + if CountsAsFailure(last) then 1 else 0
  }

  lemma {:induction false} RecordAllEnds(b: BlockState, outcomes: seq<Result<Transition, LogicErrorKind>>)
    requires outcomes != []
    ensures RecordAll(b, outcomes) == Record(RecordAll(b, outcomes[..|outcomes| - 1]), outcomes[|outcomes| - 1])
    decreases |outcomes|
  {
    hide Record;
    if |outcomes| > 1 {
      RecordAllEnds(Record(b, outcomes[0]), outcomes[1..]);
      assert outcomes[1..][..|outcomes| - 2] == outcomes[..|outcomes| - 1][1..];
    } else {
      assert outcomes[..0] == [] && outcomes[1..] == [];
    }
  }

  /** Over every run of outcomes an active block is suspended exactly when some
      streak of failures without a success in between reaches the threshold. */
  lemma {:induction false} SuspendedExactlyByAStreak(b: BlockState, outcomes: seq<Result<Transition, LogicErrorKind>>)
    requires b.health == Active && b.failures < FAILURE_SUSPENSION_THRESHOLD
    ensures RecordAll(b, outcomes).health == Active
       <==> forall n :: 0 <= n <= |outcomes| ==> Streak(b.failures, outcomes[..n]) < FAILURE_SUSPENSION_THRESHOLD
    ensures RecordAll(b, outcomes).health == Active ==> RecordAll(b, outcomes).failures == Streak(b.failures, outcomes)
    decreases |outcomes|
  {
    assert outcomes[..|outcomes|] == outcomes;
    if outcomes != [] {
      var front := outcomes[..|outcomes| - 1];
      SuspendedExactlyByAStreak(b, front);
      RecordAllEnds(b, outcomes);
      assert forall n :: 0 <= n <= |front| ==> outcomes[..n] == front[..n];
    }
  }

  // ----- the sliding-window guarantee ---------------------------------------------------

  datatype BlockEvent = Attempt(now: MonotonicMs) | Finish(outcome: Result<Transition, LogicErrorKind>) | Reset | Enable(enabled: bool)

  /** Runs events. `expired` collects the admissions the window has dropped
      since it was last cleared, so `expired + window` lists them all. */
  ghost function Run(b: BlockState, expired: seq<MonotonicMs>, events: seq<BlockEvent>, maximum: nat): (BlockState, seq<MonotonicMs>)
    decreases |events|
  {
    if events == [] then (b, expired)
    else
      var (next, more) := RunOne(b, expired, events[0], maximum);
      Run(next, more, events[1..], maximum)
  }

  ghost function RunOne(b: BlockState, expired: seq<MonotonicMs>, event: BlockEvent, maximum: nat): (BlockState, seq<MonotonicMs>) {
    match event
    case Attempt(now) =>
      (Admit(b, now, maximum).0,
       if b.health == Active then expired + b.window[..LeadingExpired(b.window, now)] else expired)
    case Finish(outcome) =>
      var after := Record(b, outcome);
      (after, if after.window == b.window then expired else [])
    case Reset => (ResetHealth(b), [])
    case Enable(enabled) => (SetEnabled(b, enabled), [])
  }

  /** Attempt times never go backwards, starting from `clock`. */
  ghost predicate TimesForward(events: seq<BlockEvent>, clock: MonotonicMs)
    decreases |events|
  {
    events == [] || (match events[0]
                     case Attempt(now) => clock <= now && TimesForward(events[1..], now)
                     case _ => TimesForward(events[1..], clock))
  }

  /** `maximum` admissions later, at least one window has passed. */
  ghost predicate Spaced(admitted: seq<MonotonicMs>, maximum: nat) {
    forall i, j :: 0 <= i < j < |admitted| && j == i + maximum ==> Expired(admitted[i], admitted[j])
  }

  ghost predicate AllExpired(times: seq<MonotonicMs>, now: MonotonicMs) {
    forall i :: 0 <= i < |times| ==> Expired(times[i], now)
  }

  ghost predicate WindowTracks(b: BlockState, expired: seq<MonotonicMs>, maximum: nat, clock: MonotonicMs) {
    && WindowOk(b.window, maximum, Some(clock))
    && Spaced(expired + b.window, maximum)
    && AllExpired(expired, clock)
  }

  lemma AttemptTracked(b: BlockState, expired: seq<MonotonicMs>, now: MonotonicMs, maximum: nat, clock: MonotonicMs)
    requires WindowTracks(b, expired, maximum, clock) && clock <= now
    ensures var (after, more) := RunOne(b, expired, Attempt(now), maximum); WindowTracks(after, more, maximum, now)
  {
    var window, dropped := PruneSplits(b.window, expired, now, maximum, clock);
    if b.health == Active && |window| < maximum {
      AdmissionSpaced(expired + dropped, window, now, maximum);
    }
  }

  lemma {:induction false} PruneSplits(window: seq<MonotonicMs>, expired: seq<MonotonicMs>, now: MonotonicMs, maximum: nat, clock: MonotonicMs)
    returns (kept: seq<MonotonicMs>, dropped: seq<MonotonicMs>)
    requires WindowOk(window, maximum, Some(clock)) && AllExpired(expired, clock) && clock <= now
    ensures kept == Pruned(window, now) && dropped == window[..LeadingExpired(window, now)]
    ensures (expired + dropped) + kept == expired + window
    ensures AllExpired(expired + dropped, now) && AllExpired(expired, now)
    ensures WindowOk(kept, maximum, Some(now)) && WindowOk(window, maximum, Some(now))
    ensures |kept| < maximum ==> WindowOk(kept + [now], maximum, Some(now))
  {
    var n := LeadingExpired(window, now);
    kept, dropped := window[n..], window[..n];
    FrontExpired(window, now);
    hide LeadingExpired, WindowOk, AllExpired;
    SuffixOk(window, n, maximum, clock, now);
    ExpiredTogether(expired, dropped, clock, now);
    Rejoined(expired, window, n);
  }

  lemma {:induction false} FrontExpired(window: seq<MonotonicMs>, now: MonotonicMs)
    ensures AllExpired(window[..LeadingExpired(window, now)], now)
  {
  }

  lemma {:induction false} Rejoined(before: seq<MonotonicMs>, window: seq<MonotonicMs>, n: nat)
    requires n <= |window|
    ensures (before + window[..n]) + window[n..] == before + window
  {
    assert window == window[..n] + window[n..];
  }

  /** The rest of a window is in order, and so is the rest with one more start. */
  lemma {:induction false} SuffixOk(window: seq<MonotonicMs>, n: nat, maximum: nat, clock: MonotonicMs, now: MonotonicMs)
    requires n <= |window| && WindowOk(window, maximum, Some(clock)) && clock <= now
    ensures WindowOk(window[n..], maximum, Some(now)) && WindowOk(window, maximum, Some(now))
    ensures |window[n..]| < maximum ==> WindowOk(window[n..] + [now], maximum, Some(now))
  {
  }

  lemma {:induction false} ExpiredTogether(expired: seq<MonotonicMs>, dropped: seq<MonotonicMs>, clock: MonotonicMs, now: MonotonicMs)
    requires AllExpired(expired, clock) && AllExpired(dropped, now) && clock <= now
    ensures AllExpired(expired + dropped, now) && AllExpired(expired, now)
  {
  }

  lemma AdmissionSpaced(expired: seq<MonotonicMs>, window: seq<MonotonicMs>, now: MonotonicMs, maximum: nat)
    requires Spaced(expired + window, maximum) && AllExpired(expired, now) && |window| < maximum
    ensures Spaced(expired + (window + [now]), maximum)
  {
    var before, after := expired + window, expired + (window + [now]);
    assert after == before + [now];
    forall i, j | 0 <= i < j < |after| && j == i + maximum ensures Expired(after[i], after[j]) {
      if j < |before| {
        assert after[i] == before[i] && after[j] == before[j];
      } else {
        assert after[i] == expired[i];
      }
    }
  }

  /** Between two clearings of the window, the `maximum`-th next admission
      comes at least a second later, over every run. */
  lemma {:induction false} AdmissionsAreSpaced(b: BlockState, expired: seq<MonotonicMs>, events: seq<BlockEvent>, maximum: nat, clock: MonotonicMs)
    requires WindowTracks(b, expired, maximum, clock) && TimesForward(events, clock)
    ensures var (after, more) := Run(b, expired, events, maximum);
            Spaced(more + after.window, maximum) && Ordered(after.window) && |after.window| <= maximum
    decreases |events|
  {
    if events != [] {
      var (next, more) := RunOne(b, expired, events[0], maximum);
      match events[0] {
        case Attempt(now) =>
          AttemptTracked(b, expired, now, maximum, clock);
          AdmissionsAreSpaced(next, more, events[1..], maximum, now);
        case Finish(outcome) =>
          assert next.window == [] || next.window == b.window;
          AdmissionsAreSpaced(next, more, events[1..], maximum, clock);
        case Reset =>
          AdmissionsAreSpaced(next, more, events[1..], maximum, clock);
        case Enable(_) =>
          AdmissionsAreSpaced(next, more, events[1..], maximum, clock);
      }
    }
  }

  // ----- the block object -----------------------------------------------------------------

  class LogicBlock {
    const engine: Engine
    var enabled: bool
    var health: BlockHealth
    var failures: nat
    var window: seq<MonotonicMs>
    var lastSuspension: Option<BlockSuspension>

    function Value(): BlockState
      reads this, engine
    {
      BlockState(enabled, engine.Value(), health, failures, window, lastSuspension)
    }

    constructor (host: Host, endpoints: seq<Endpoint>, logic: LogicProgram, enabled: bool)
      ensures fresh(engine) && engine.Valid() && engine.host == host && engine.endpoints == endpoints
      ensures Value() == BlockState(enabled, EngineState(logic, seq(|endpoints|, _ => InputState(None, None)), map[], map[], None),
                                    if enabled then Active else Disabled, 0, [], None)
    {
      engine := new Engine(host, endpoints, logic);
      this.enabled := enabled;
      health := if enabled then Active else Disabled;
      failures, window, lastSuspension := 0, [], None;
    }

    method Restore(saved: BlockState)
      requires EngineInv(engine.host.limits, engine.endpoints, saved.engine)
      modifies this, engine
      ensures Value() == saved && engine.Valid()
    {
      engine.Restore(saved.engine);
      enabled, health, failures := saved.enabled, saved.health, saved.failures;
      window, lastSuspension := saved.window, saved.lastSuspension;
    }

    method PruneLiveExecutionWindow(now: MonotonicMs)
      modifies this`window
      ensures window == Pruned(old(window), now)
    {
      while window != [] && Expired(window[0], now)
        invariant Pruned(window, now) == Pruned(old(window), now)
        decreases |window|
      {
        assert window[1..][LeadingExpired(window[1..], now)..] == window[LeadingExpired(window, now)..];
        window := window[1..];
      }
    }

    method AdmitLiveExecution(now: MonotonicMs, maximum: nat) returns (admitted: bool)
      requires engine.Valid()
      modifies this, engine
      ensures engine.Valid() && (Value(), admitted) == Admit(old(Value()), now, maximum)
    {
      if health != Active { return false; }
      PruneLiveExecutionWindow(now);
      if |window| >= maximum {
        health := SuspendedEventRate;
        lastSuspension := Some(EventRate);
        failures := 0;
        engine.CancelTimers();
        return false;
      }
      window := window + [now];
      admitted := true;
    }

    method RecordLiveExecution(outcome: Result<Transition, LogicErrorKind>)
      requires engine.Valid()
      modifies this, engine
      ensures engine.Valid() && Value() == Record(old(Value()), outcome)
    {
      if CountsAsFailure(outcome) {
        if failures < U32_MAX { failures := failures + 1; }
        if failures >= FAILURE_SUSPENSION_THRESHOLD {
          health := SuspendedScriptFailures;
          lastSuspension := Some(ScriptFailures);
          window := [];
          engine.CancelTimers();
        }
      } else if outcome.Ok? {
        failures := 0;
      }
    }

    method ResetBlockHealth()
      modifies this
      ensures Value() == ResetHealth(old(Value()))
    {
      health := if enabled then Active else Disabled;
      failures, window, lastSuspension := 0, [], None;
    }

    method SwitchEnabled(on: bool)
      requires engine.Valid()
      modifies this, engine
      ensures engine.Valid() && Value() == SetEnabled(old(Value()), on)
    {
      enabled := on;
      if !on { engine.CancelTimers(); }
      ResetBlockHealth();
    }

    method InstallProgram(program: LogicProgram) returns (changed: bool, cancelled: set<TimerName>)
      requires engine.Valid()
      modifies this, engine
      ensures engine.Valid() && Value() == ActivateProgram(old(Value()), program)
      ensures changed == (program.revision != old(Value()).engine.logic.revision)
      ensures cancelled == if changed then old(Value()).engine.timers.Keys else {}
    {
      changed, cancelled := engine.ActivateSource(program);
      if changed { ResetBlockHealth(); }
    }
  }
}
