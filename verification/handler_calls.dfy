/** What a handler is given, and what its answer becomes: for every live
    execution, by input, timer, schedule or signal. */
module HandlerCalls {
  import opened Values
  import opened SignalGraph
  import opened Configuration
  import opened TransientState
  import opened LuaConversion
  import opened ConversionMeaning
  import opened Engines
  import opened LogicBlocks
  import opened Cascades
  import opened CascadeOrder
  import opened PlanFacts
  import opened CascadeSafety
  import opened RuntimeEvents
  import opened RuntimeSafety
  import opened CascadeInduction

  // ----- the inputs a handler sees ------------------------------------------------------------

  /** The snapshot of one stored input. */
  predicate Shows(endpoint: Endpoint, input: InputState, now: MonotonicMs, x: InputSnapshot) {
    && x.endpoint == endpoint.name && x.dpt == endpoint.dpt && x.value == input.value
    && (x.valid <==> input.value.Some? && input.observedAt.Some?)
    && (input.observedAt.None? ==> x.age.None?)
    && (input.observedAt.Some? ==> x.age == Some(if input.observedAt.value <= now then now - input.observedAt.value else 0))
  }

  /** `at` lists the input endpoints before `n` in declaration order, and the
      snapshots show them. */
  ghost predicate ShowsAt(endpoints: seq<Endpoint>, inputs: seq<InputState>, now: MonotonicMs, shown: seq<InputSnapshot>, at: seq<nat>, n: nat) {
    && |at| == |shown| && |inputs| == |endpoints| && n <= |endpoints|
    && (forall j :: 0 <= j < |at| ==> at[j] < n && endpoints[at[j]].direction == Input && Shows(endpoints[at[j]], inputs[at[j]], now, shown[j]))
    && (forall j, k :: 0 <= j < k < |at| ==> at[j] < at[k])
    && forall i :: 0 <= i < n && endpoints[i].direction == Input ==> i in at
  }

  ghost predicate ShowsAll(endpoints: seq<Endpoint>, inputs: seq<InputState>, now: MonotonicMs, shown: seq<InputSnapshot>) {
    exists at :: ShowsAt(endpoints, inputs, now, shown, at, |endpoints|)
  }

  lemma {:induction false} SnapshotsShow(endpoints: seq<Endpoint>, inputs: seq<InputState>, now: MonotonicMs, n: nat) returns (at: seq<nat>)
    requires |inputs| == |endpoints| && n <= |endpoints|
    ensures ShowsAt(endpoints, inputs, now, Snapshots(endpoints, inputs, now, n), at, n)
  {
    hide ShowsAt, SnapshotOf;
    if n == 0 {
      at := [];
      NothingShown(endpoints, inputs, now);
    } else {
      var before := SnapshotsShow(endpoints, inputs, now, n - 1);
      var input := endpoints[n - 1].direction == Input;
      at := before + if input then [n - 1] else [];
      OneMoreShown(endpoints, inputs, now, Snapshots(endpoints, inputs, now, n - 1), before, n - 1);
    }
  }

  lemma NothingShown(endpoints: seq<Endpoint>, inputs: seq<InputState>, now: MonotonicMs)
    requires |inputs| == |endpoints|
    ensures ShowsAt(endpoints, inputs, now, [], [], 0)
  {
  }

  lemma {:induction false} OneMoreShown(endpoints: seq<Endpoint>, inputs: seq<InputState>, now: MonotonicMs, shown: seq<InputSnapshot>, at: seq<nat>, n: nat)
    requires n < |endpoints| && ShowsAt(endpoints, inputs, now, shown, at, n)
    ensures var input := endpoints[n].direction == Input;
            ShowsAt(endpoints, inputs, now, shown + if input then [SnapshotOf(endpoints[n], inputs[n], now)] else [], at + if input then [n] else [], n + 1)
  {
    SnapshotShows(endpoints[n], inputs[n], now);
    hide Shows, SnapshotOf;
    var input := endpoints[n].direction == Input;
    var more := at + if input then [n] else [];
    forall i | 0 <= i < n + 1 && endpoints[i].direction == Input ensures i in more {
      if i < n { assert i in at; } else { assert more[|at|] == n; }
    }
  }

  lemma SnapshotShows(endpoint: Endpoint, input: InputState, now: MonotonicMs)
    ensures Shows(endpoint, input, now, SnapshotOf(endpoint, input, now))
  {
  }

  // ----- one execution ------------------------------------------------------------------------------

  /** The outcome is the handler's failure, or the conversion of what it
      returned. */
  ghost predicate Answers(host: Host, call: HandlerCall, outcome: Result<Transition, LogicErrorKind>) {
    match host.handler(call)
    case Raised(kind) => outcome == Err(kind)
    case Returned(values) =>
      var t := if |values| > 1 then None
               else Converted(call.endpoints, host.naming, if values == [] then LuaNil else values[0],
                              call.state, call.timers, call.now, host.limits);
      outcome == if t.None? then Err(InvalidResult) else Ok(t.value)
  }

  /** `x` ran the program of `e` on the state, inputs and timers of `e`. */
  ghost predicate Ran(host: Host, endpoints: seq<Endpoint>, e: EngineState, now: MonotonicMs, time: TimeContext, x: Execution) {
    && ShowsAll(endpoints, e.inputs, now, x.inputs)
    && x.stateBefore == e.state && x.revision == e.logic.revision && x.time == time
    && Answers(host, HandlerCall(endpoints, e.logic, x.inputs, x.trigger, x.stateBefore, e.timers, now, x.time), x.outcome)
  }

  /** Each entry of the patch is stored, and every other entry kept. */
  ghost predicate Overlaid(before: State, patch: State, after: State) {
    forall k ::
      && (k in after <==> k in before || k in patch)
      && (k in patch ==> after[k] == patch[k])
      && (k in before && k !in patch ==> after[k] == before[k])
  }

  /** Each timer is what the last effect on it says. */
  ghost predicate TimersFollow(before: Timers, effects: seq<TimerEffect>, after: Timers, now: MonotonicMs, revision: LogicRevision) {
    && (forall n :: Untouched(effects, n) ==> (n in after <==> n in before) && (n in after ==> after[n] == before[n]))
    && forall n, i: nat :: IsLast(effects, n, i) ==> Obeys(after, n, effects[i].action, now, revision)
  }

  /** What `x` leaves: its transition if it has one, and nothing otherwise. */
  ghost predicate Leaves(e: EngineState, now: MonotonicMs, x: Execution) {
    if x.outcome.Err? then x.stateAfter == e.state && x.pendingTimers == e.timers
    else Overlaid(e.state, x.outcome.value.state, x.stateAfter)
         && TimersFollow(e.timers, x.outcome.value.timers, x.pendingTimers, now, e.logic.revision)
  }

  lemma EffectsFollow(before: Timers, effects: seq<TimerEffect>, now: MonotonicMs, revision: LogicRevision)
    ensures TimersFollow(before, effects, ApplyEffects(before, effects, now, revision), now, revision)
  {
    hide ApplyEffects;
    var after := ApplyEffects(before, effects, now, revision);
    forall n | Untouched(effects, n) ensures (n in after <==> n in before) && (n in after ==> after[n] == before[n]) {
      UntouchedStays(before, effects, now, revision, n);
    }
    forall n, i: nat | IsLast(effects, n, i) ensures Obeys(after, n, effects[i].action, now, revision) {
      LastEffectDecides(before, effects, now, revision, n, i);
    }
  }

  /** Evaluating calls the handler with what the engine holds, and commits
      exactly what it answers. */
  lemma EvaluateRuns(host: Host, endpoints: seq<Endpoint>, e: EngineState, trigger: Trigger, now: MonotonicMs, utc: Option<int>)
    requires |e.inputs| == |endpoints|
    ensures var (after, x) := Evaluate(host, endpoints, e, trigger, now, utc);
            && Ran(host, endpoints, e, now, Capture(utc), x) && Leaves(e, now, x) && x.trigger == trigger
            && after == e.(state := x.stateAfter, timers := x.pendingTimers)
  {
    hide Snapshots, Converted, TimersFollow, ShowsAt;
    var at := SnapshotsShow(endpoints, e.inputs, now, |endpoints|);
    var (after, x) := Evaluate(host, endpoints, e, trigger, now, utc);
    if x.outcome.Ok? { EffectsFollow(e.timers, x.outcome.value.timers, now, e.logic.revision); }
  }

  /** A trigger tells the value, the one before it, and how they differ. */
  ghost predicate Tells(t: InputTrigger, name: EndpointName, value: TypedValue, previous: Option<TypedValue>) {
    && t.endpoint == name && t.value == value && t.previous == previous
    && (t.changed <==> previous.Some? && previous.value != value)
    && (t.rising <==> previous == Some(BoolValue(false)) && value == BoolValue(true))
    && (t.falling <==> previous == Some(BoolValue(true)) && value == BoolValue(false))
  }

  /** `e` after `value` has been stored at its endpoint `at`. */
  function WithInput(e: EngineState, at: nat, value: TypedValue, now: MonotonicMs): EngineState
    requires at < |e.inputs|
  {
    e.(inputs := e.inputs[at := InputState(Some(value), Some(now))], lastAcceptedAt := Some(now))
  }

  /** `x` answers `value` at endpoint `name` of engine `e`. */
  ghost predicate RanByInput(host: Host, endpoints: seq<Endpoint>, e: EngineState, name: EndpointName, value: TypedValue, now: MonotonicMs,
                             time: TimeContext, x: Execution)
  {
    var at := EndpointPosition(endpoints, name);
    && at.Some? && |e.inputs| == |endpoints|
    && x.trigger.ByInput? && Tells(x.trigger.input, name, value, e.inputs[at.value].value)
    && Ran(host, endpoints, WithInput(e, at.value, value, now), now, time, x)
    && Leaves(WithInput(e, at.value, value, now), now, x)
  }

  lemma UpdateRuns(host: Host, endpoints: seq<Endpoint>, e: EngineState, name: EndpointName, update: InputUpdate, now: MonotonicMs, utc: Option<int>)
    requires |e.inputs| == |endpoints|
    ensures var step := ProcessUpdate(host, endpoints, e, name, update, now, utc);
            step.result.Ok? ==>
              && (step.result.value.Some? <==> update.TriggerWith?)
              && (update.TriggerWith? ==>
                    var x := step.result.value.value;
                    && RanByInput(host, endpoints, e, name, update.value, now, Capture(utc), x)
                    && step.engine.state == x.stateAfter && step.engine.timers == x.pendingTimers && step.engine.logic == e.logic)
  {
    hide Evaluate, Ran, Leaves;
    var at := ValidateUpdate(endpoints, name, update);
    if at.Ok? && update.TriggerWith? {
      EvaluateRuns(host, endpoints, WithInput(e, at.value, update.value, now),
                   ByInput(MakeInputTrigger(name, update.value, e.inputs[at.value].value)), now, utc);
    }
  }

  /** `x` answers the pending timer `n` of engine `e`, which no longer pends. */
  ghost predicate RanByTimer(host: Host, endpoints: seq<Endpoint>, e: EngineState, n: TimerName, now: MonotonicMs, time: TimeContext, x: Execution) {
    && n in e.timers
    && x.trigger == ByTimer(TimerTrigger(n, e.timers[n].scheduledAt, e.timers[n].dueAt, now, e.timers[n].revision))
    && Ran(host, endpoints, e.(timers := e.timers - {n}, lastAcceptedAt := Some(now)), now, time, x)
    && Leaves(e.(timers := e.timers - {n}, lastAcceptedAt := Some(now)), now, x)
  }

  lemma TimerRuns(host: Host, endpoints: seq<Endpoint>, e: EngineState, now: MonotonicMs, utc: Option<int>)
    requires |e.inputs| == |endpoints|
    ensures var step := ProcessTimer(host, endpoints, e, now, utc);
            step.result.Ok? ==>
              && (step.result.value.Some? <==> NextDue(e.timers, now).Some?)
              && (step.result.value.Some? ==>
                    var x := step.result.value.value;
                    && RanByTimer(host, endpoints, e, NextDue(e.timers, now).value, now, Capture(utc), x)
                    && step.engine.state == x.stateAfter && step.engine.timers == x.pendingTimers && step.engine.logic == e.logic)
  {
    hide Evaluate, Ran, Leaves;
    var next := NextDue(e.timers, now);
    if next.Some? {
      var timer := e.timers[next.value];
      EvaluateRuns(host, endpoints, e.(timers := e.timers - {next.value}, lastAcceptedAt := Some(now)),
                   ByTimer(TimerTrigger(next.value, timer.scheduledAt, timer.dueAt, now, timer.revision)), now, utc);
    }
  }

  // ----- what a handler asks of its timers -------------------------------------------------------------

  predicate NamesTimer(naming: Naming, entry: (Lua, Lua), n: TimerName) { entry.0.LuaString? && naming.timer(entry.0.s) == Some(n) }

  lemma {:induction false} LastOf(effects: seq<TimerEffect>, n: TimerName) returns (i: nat)
    requires !Untouched(effects, n)
    ensures IsLast(effects, n, i)
    decreases |effects|
  {
    var last := |effects| - 1;
    if effects[last].name == n {
      i := last;
    } else {
      var e :| e in effects && e.name == n;
      assert e in effects[..last];
      i := LastOf(effects[..last], n);
    }
  }

  /** A timer that one entry names is afterwards as that entry asks: cancelled, or
      due its delay from now. One that no entry names stays as it was. */
  lemma TimersAsAsked(pending: Timers, naming: Naming, entries: Entries, effects: seq<TimerEffect>, after: Timers, now: MonotonicMs,
                      revision: LogicRevision, n: TimerName)
    requires EachAsks(pending, naming, entries, now) && AsksFor(pending, naming, entries, effects, now)
    requires TimersFollow(pending, effects, after, now, revision)
    ensures (forall i :: 0 <= i < |entries| ==> !NamesTimer(naming, entries[i], n)) ==>
              (n in after <==> n in pending) && (n in after ==> after[n] == pending[n])
    ensures forall i :: 0 <= i < |entries| && NamesTimer(naming, entries[i], n)
                        && (forall j :: 0 <= j < |entries| && j != i ==> !NamesTimer(naming, entries[j], n)) ==>
              && (entries[i].1 == LuaBoolean(false) ==> n !in after)
              && forall ms :: Delays(entries[i].1, ms) ==> n in after && after[n] == PendingTimer(n, now, now + ms, revision)
  {
    hide Delays, SortedByName;
    forall i | 0 <= i < |entries| && NamesTimer(naming, entries[i], n) && forall j :: 0 <= j < |entries| && j != i ==> !NamesTimer(naming, entries[j], n)
      ensures entries[i].1 == LuaBoolean(false) ==> n !in after
      ensures forall ms :: Delays(entries[i].1, ms) ==> n in after && after[n] == PendingTimer(n, now, now + ms, revision)
    {
      assert AsksSome(pending, naming, entries[i], now);
      var asked :| Asks(pending, naming, entries[i], asked, now);
      assert asked in effects && asked.name == n;
      var k := LastOf(effects, n);
      assert effects[k] in effects;
      var j :| 0 <= j < |entries| && Asks(pending, naming, entries[j], effects[k], now);
      assert NamesTimer(naming, entries[j], n);
      assert j == i && Obeys(after, n, effects[k].action, now, revision);
      DelaysOne(entries[i].1);
    }
  }

  /** A table asks for one delay, and `false` for none. */
  lemma DelaysOne(value: Lua)
    ensures forall a: nat, b: nat :: Delays(value, a) && Delays(value, b) ==> a == b
    ensures value == LuaBoolean(false) ==> forall a: nat :: !Delays(value, a)
  {
    forall a: nat, b: nat | Delays(value, a) && Delays(value, b) ensures a == b {
      assert value.entries[0].1 == LuaInteger(a) || value.entries[0].1 == LuaNumber(a as real);
      assert value.entries[0].1 == LuaInteger(b) || value.entries[0].1 == LuaNumber(b as real);
      assert (a as real).Floor == a && (b as real).Floor == b;
    }
  }
}
