/** Turning the raw result of one handler call into a validated transition.

    Every rejection is the same `InvalidResult` failure, so a conversion gives
    `None` for it. */
module LuaConversion {
  import opened Values
  import opened TransientState

  /** A raw Lua value. A table lists its entries in iteration order;
      `LuaOther` covers functions, user data and non-UTF-8 strings. */
  datatype Lua =
    | LuaNil
    | LuaBoolean(b: bool)
    | LuaInteger(i: int)
    | LuaNumber(n: real)
    | LuaNonFinite
    | LuaString(s: seq<char>)
    | LuaTable(entries: seq<(Lua, Lua)>)
    | LuaOther

  /** How raw names map to the typed names of the core; `None` is a name the
      grammar rejects or no endpoint carries. */
  datatype Naming = Naming(endpoint: seq<char> -> Option<EndpointName>, timer: seq<char> -> Option<TimerName>)

  datatype OutputEffect = OutputEffect(endpoint: EndpointName, value: TypedValue)
  datatype Transition = Transition(state: State, outputs: seq<OutputEffect>, timers: seq<TimerEffect>)

  type Entries = seq<(Lua, Lua)>
  datatype Fields = Fields(state: Option<Entries>, outputs: Option<Entries>, timers: Option<Entries>)

  // ----- scalars ----------------------------------------------------------------

  /** A positive whole number of milliseconds that fits 32 bits. */
  function DurationMs(value: Lua): (r: Option<nat>)
    ensures r.Some? ==> 1 <= r.value <= U32_MAX
  {
    match value
    case LuaInteger(i) => if 1 <= i <= U32_MAX then Some(i) else None
    case LuaNumber(n) => if n > 0.0 && n == n.Floor as real && n.Floor <= U32_MAX then Some(n.Floor) else None
    case _ => None
  }

  function RoundHalfAway(x: real): int {
    if x >= 0.0 then (x + 0.5).Floor else -((0.5 - x).Floor)
  }

  /** A number of hundredths that is whole up to the noise of its scaling. */
  function Hundredths(scaled: real): Option<TypedValue> {
    var rounded := RoundHalfAway(scaled);
    var noise := scaled - rounded as real;
    if noise > 0.000000001 || noise < -0.000000001 || rounded < I32_MIN || rounded > I32_MAX then None
    else Some(TemperatureValue(rounded))
  }

  /** Degrees with at most two decimals, as hundredths. */
  function Temperature(degrees: real): Option<TypedValue> { Hundredths(degrees * 100.0) }

  function ToTyped(dpt: Dpt, value: Lua): (r: Option<TypedValue>)
    ensures r.Some? ==> r.value.GetDpt() == dpt
  {
    if dpt == DPT_BOOL then
      if value.LuaBoolean? then Some(BoolValue(value.b)) else None
    else if dpt == DPT_PERCENT then
      if value.LuaInteger? && 0 <= value.i <= 100 then Some(PercentValue(value.i)) else None
    else if dpt == DPT_TEMPERATURE then
      match value
      case LuaInteger(i) => Temperature(i as real)
      case LuaNumber(n) => Temperature(n)
      case _ => None
    else None
  }

  function ToStateValue(key: seq<char>, value: Lua): (r: Option<StateValue>)
    ensures r.Some? ==> ValidEntry(key, r.value)
  {
    var converted := match value
      case LuaBoolean(b) => Some(BoolState(b))
      case LuaInteger(i) => Some(IntegerState(i))
      case LuaNumber(n) => Some(NumberState(n))
      case LuaString(s) => Some(StringState(s))
      case _ => None;
    if converted.Some? && ValidEntry(key, converted.value) then converted else None
  }

  // ----- tables -----------------------------------------------------------------

  function TakeField(fields: Fields, entry: (Lua, Lua)): Option<Fields> {
    if !entry.0.LuaString? || !entry.1.LuaTable? then None
    else if entry.0.s == "state" && fields.state.None? then Some(fields.(state := Some(entry.1.entries)))
    else if entry.0.s == "outputs" && fields.outputs.None? then Some(fields.(outputs := Some(entry.1.entries)))
    else if entry.0.s == "timers" && fields.timers.None? then Some(fields.(timers := Some(entry.1.entries)))
    else None
  }

  ghost function TakeFields(fields: Fields, entries: Entries): Option<Fields>
    decreases |entries|
  {
    if entries == [] then Some(fields)
    else
      var next := TakeField(fields, entries[0]);
      if next.None? then None else TakeFields(next.value, entries[1..])
  }

  function TakeState(patch: State, entry: (Lua, Lua)): Option<State> {
    if !entry.0.LuaString? || entry.0.s in patch then None
    else
      var value := ToStateValue(entry.0.s, entry.1);
      if value.None? then None else Some(patch[entry.0.s := value.value])
  }

  ghost function TakeStates(patch: State, entries: Entries): Option<State>
    decreases |entries|
  {
    if entries == [] then Some(patch)
    else
      var next := TakeState(patch, entries[0]);
      if next.None? then None else TakeStates(next.value, entries[1..])
  }

  /** One slot per endpoint, so that outputs come out in declaration order. */
  type Slots = seq<Option<TypedValue>>

  function TakeOutput(endpoints: seq<Endpoint>, naming: Naming, slots: Slots, entry: (Lua, Lua)): (r: Option<Slots>)
    requires |slots| == |endpoints|
    ensures r.Some? ==> |r.value| == |endpoints|
  {
    if !entry.0.LuaString? then None
    else
      var name := naming.endpoint(entry.0.s);
      if name.None? then None
      else
        var at := EndpointPosition(endpoints, name.value);
        if at.None? || endpoints[at.value].direction != Output || slots[at.value].Some? then None
        else
          var value := ToTyped(endpoints[at.value].dpt, entry.1);
          if value.None? then None else Some(slots[at.value := value])
  }

  ghost function TakeOutputs(endpoints: seq<Endpoint>, naming: Naming, slots: Slots, entries: Entries): (r: Option<Slots>)
    requires |slots| == |endpoints|
    ensures r.Some? ==> |r.value| == |endpoints|
    decreases |entries|
  {
    if entries == [] then Some(slots)
    else
      var next := TakeOutput(endpoints, naming, slots, entries[0]);
      if next.None? then None else TakeOutputs(endpoints, naming, next.value, entries[1..])
  }

  function FilledOutputs(endpoints: seq<Endpoint>, slots: Slots, n: nat): seq<OutputEffect>
    requires |slots| == |endpoints| && n <= |endpoints|
  {
    if n == 0 then []
    else
      FilledOutputs(endpoints, slots, n - 1)
      + if endpoints[n - 1].direction == Output && slots[n - 1].Some?
        then [OutputEffect(endpoints[n - 1].name, slots[n - 1].value)] else []
  }

  function TakeAfter(after: Option<nat>, entry: (Lua, Lua)): Option<Option<nat>> {
    if entry.0 != LuaString("after") || after.Some? then None
    else
      var value := DurationMs(entry.1);
      if value.None? then None else Some(value)
  }

  ghost function TakeAfters(after: Option<nat>, entries: Entries): Option<Option<nat>>
    decreases |entries|
  {
    if entries == [] then Some(after)
    else
      var next := TakeAfter(after, entries[0]);
      if next.None? then None else TakeAfters(next.value, entries[1..])
  }

  ghost function AfterOf(value: Lua): Option<nat> {
    if !value.LuaTable? then None
    else
      var after := TakeAfters(None, value.entries);
      if after.None? then None else after.value
  }

  function ArmAction(pending: Timers, name: TimerName, after: nat, now: MonotonicMs): Option<TimerAction> {
    if now + after > U64_MAX then None
    else if name in pending then Some(Replaced(pending[name].dueAt, after, now + after))
    else Some(Scheduled(after, now + after))
  }

  ghost function ActionOf(pending: Timers, name: TimerName, value: Lua, now: MonotonicMs): Option<TimerAction> {
    if value == LuaBoolean(false) then
      Some(if name in pending then Cancelled(pending[name].dueAt) else CancelNoop)
    else
      var after := AfterOf(value);
      if after.None? then None else ArmAction(pending, name, after.value, now)
  }

  ghost function TakeTimer(pending: Timers, naming: Naming, entry: (Lua, Lua), now: MonotonicMs): Option<TimerEffect> {
    if !entry.0.LuaString? then None
    else
      var name := naming.timer(entry.0.s);
      if name.None? then None
      else
        var action := ActionOf(pending, name.value, entry.1, now);
        if action.None? then None else Some(TimerEffect(name.value, action.value))
  }

  ghost function TakeTimers(pending: Timers, naming: Naming, entries: Entries, raw: seq<TimerEffect>, now: MonotonicMs): Option<seq<TimerEffect>>
    decreases |entries|
  {
    if entries == [] then Some(raw)
    else
      var effect := TakeTimer(pending, naming, entries[0], now);
      if effect.None? then None else TakeTimers(pending, naming, entries[1..], InsertByName(raw, effect.value), now)
  }

  /** Puts an effect behind every effect whose name is not larger. */
  function InsertByName(sorted: seq<TimerEffect>, effect: TimerEffect): (r: seq<TimerEffect>)
    ensures forall e :: e in r <==> e in sorted || e == effect
    ensures |r| == |sorted| + 1
  {
    if sorted == [] then [effect]
    else
      var last, front := sorted[|sorted| - 1], sorted[..|sorted| - 1];
      assert sorted == front + [last];
      if last.name <= effect.name then sorted + [effect] else InsertByName(front, effect) + [last]
  }

  ghost predicate SortedByName(effects: seq<TimerEffect>) {
    forall i, j :: 0 <= i < j < |effects| ==> effects[i].name <= effects[j].name
  }

  lemma {:induction false} InsertKeepsOrder(sorted: seq<TimerEffect>, effect: TimerEffect)
    requires SortedByName(sorted)
    ensures SortedByName(InsertByName(sorted, effect))
    decreases |sorted|
  {
    if sorted != [] {
      var last, front := sorted[|sorted| - 1], sorted[..|sorted| - 1];
      if last.name > effect.name {
        InsertKeepsOrder(front, effect);
        var r := InsertByName(front, effect);
        forall i | 0 <= i < |r| ensures r[i].name <= last.name {
          assert r[i] in r;
        }
      }
    }
  }

  ghost function ConvertedTimers(timers: Option<Entries>, pending: Timers, naming: Naming, now: MonotonicMs, limits: Limits): Option<seq<TimerEffect>> {
    if timers.None? then Some([])
    else
      var raw := TakeTimers(pending, naming, timers.value, [], now);
      if raw.None? || |raw.value| > limits.maxTimerEffectsPerExecution
         || |ApplyEffects(pending, raw.value, now, 0)| > limits.maxPendingTimersPerBlock then None
      else raw
  }

  predicate EffectsWithin(state: nat, outputs: nat, timers: nat, limits: Limits) {
    outputs <= limits.maxOutputEffectsPerExecution && state + outputs + timers <= limits.maxCombinedEffectsPerExecution
  }

  function EmptySlots(n: nat): (r: Slots)
    ensures |r| == n
  {
    seq(n, _ => None)
  }

  ghost function ConvertedOutputs(endpoints: seq<Endpoint>, naming: Naming, outputs: Option<Entries>): Option<seq<OutputEffect>> {
    if outputs.None? then Some([])
    else
      var slots := TakeOutputs(endpoints, naming, EmptySlots(|endpoints|), outputs.value);
      if slots.None? then None else Some(FilledOutputs(endpoints, slots.value, |endpoints|))
  }

  /** The transition a raw handler result stands for. */
  ghost function Converted(endpoints: seq<Endpoint>, naming: Naming, result: Lua, state: State, pending: Timers,
                           now: MonotonicMs, limits: Limits): Option<Transition>
  {
    if result.LuaNil? then Some(Transition(map[], [], []))
    else if !result.LuaTable? then None
    else
      var fields := TakeFields(Fields(None, None, None), result.entries);
      if fields.None? then None
      else
        var patch := TakeStates(map[], fields.value.state.GetOr([]));
        var outputs := ConvertedOutputs(endpoints, naming, fields.value.outputs);
        var timers := ConvertedTimers(fields.value.timers, pending, naming, now, limits);
        if patch.None? || |patch.value| > limits.maxStatePatchEntriesPerExecution
           || !StateWithin(state + patch.value, limits) || outputs.None? || timers.None?
           || !EffectsWithin(|patch.value|, |outputs.value|, |timers.value|, limits)
        then None
        else Some(Transition(patch.value, outputs.value, timers.value))
  }

  // ----- the conversion as it runs ------------------------------------------------

  method ConvertTimers(timers: Option<Entries>, pending: Timers, naming: Naming, now: MonotonicMs, limits: Limits)
    returns (r: Option<seq<TimerEffect>>)
    ensures r == ConvertedTimers(timers, pending, naming, now, limits)
  {
    if timers.None? { return Some([]); }
    var entries := timers.value;
    var raw := [];
    var i := 0;
    while i < |entries|
      invariant 0 <= i <= |entries|
      invariant TakeTimers(pending, naming, entries[i..], raw, now) == TakeTimers(pending, naming, entries, [], now)
    {
      assert entries[i..][1..] == entries[i + 1..];
      var effect := ConvertTimer(pending, naming, entries[i], now);
      if effect.None? { return None; }
      raw := InsertByName(raw, effect.value);
      i := i + 1;
    }
    var candidate := ApplyTimerEffects(pending, raw, now, 0);
    if |raw| > limits.maxTimerEffectsPerExecution || |candidate| > limits.maxPendingTimersPerBlock { return None; }
    r := Some(raw);
  }

  method ConvertTimer(pending: Timers, naming: Naming, entry: (Lua, Lua), now: MonotonicMs) returns (r: Option<TimerEffect>)
    ensures r == TakeTimer(pending, naming, entry, now)
  {
    if !entry.0.LuaString? { return None; }
    var name := naming.timer(entry.0.s);
    if name.None? { return None; }
    if entry.1 == LuaBoolean(false) {
      var action := if name.value in pending then Cancelled(pending[name.value].dueAt) else CancelNoop;
      return Some(TimerEffect(name.value, action));
    }
    if !entry.1.LuaTable? { return None; }
    var fields := entry.1.entries;
    var after: Option<nat> := None;
    var i := 0;
    while i < |fields|
      invariant 0 <= i <= |fields|
      invariant TakeAfters(after, fields[i..]) == TakeAfters(None, fields)
    {
      assert fields[i..][1..] == fields[i + 1..];
      var next := TakeAfter(after, fields[i]);
      if next.None? { return None; }
      after := next.value;
      i := i + 1;
    }
    if after.None? { return None; }
    var action := ArmAction(pending, name.value, after.value, now);
    r := if action.None? then None else Some(TimerEffect(name.value, action.value));
  }

  /** Every entry is a valid one under a string key, and no key comes twice. */
  ghost predicate StateEntriesValid(entries: Entries) {
    && (forall i :: 0 <= i < |entries| ==> entries[i].0.LuaString? && ToStateValue(entries[i].0.s, entries[i].1).Some?)
    && forall i, j :: 0 <= i < j < |entries| ==> entries[i].0 != entries[j].0
  }

  /** `patch` maps the key of each entry to its converted value, and holds no
      other key. */
  ghost predicate Patches(patch: State, entries: Entries) {
    && (forall i :: 0 <= i < |entries| ==>
          entries[i].0.LuaString? && entries[i].0.s in patch && ToStateValue(entries[i].0.s, entries[i].1) == Some(patch[entries[i].0.s]))
    && forall key :: key in patch ==> LuaString(key) in Keys(entries)
  }

  function Keys(entries: Entries): seq<Lua> { seq(|entries|, i requires 0 <= i < |entries| => entries[i].0) }

  /** Taking one more entry after those of `taken`. */
  lemma StateTaken(patch: State, taken: Entries, entry: (Lua, Lua))
    requires StateEntriesValid(taken) && Patches(patch, taken)
    ensures TakeState(patch, entry).Some? <==> StateEntriesValid(taken + [entry])
    ensures TakeState(patch, entry).Some? ==> Patches(TakeState(patch, entry).value, taken + [entry])
  {
    hide ToStateValue;
    var all := taken + [entry];
    assert Keys(all) == Keys(taken) + [entry.0];
    if entry.0.LuaString? && entry.0.s in patch {
      var i :| 0 <= i < |taken| && Keys(taken)[i] == LuaString(entry.0.s);
      assert all[i].0 == all[|taken|].0;
    }
    if StateEntriesValid(all) {
      assert all[|taken|] == entry;
      forall i | 0 <= i < |taken| ensures Keys(taken)[i] != entry.0 { assert all[i].0 != all[|taken|].0; }
    }
    var next := TakeState(patch, entry);
    if next.Some? {
      forall i | 0 <= i < |taken| ensures taken[i].0 != entry.0 { assert taken[i].0.s in patch; }
    }
  }

  /** The patch, from the entries taken so far on. */
  lemma {:induction false} StatesTaken(patch: State, taken: Entries, rest: Entries)
    requires StateEntriesValid(taken) && Patches(patch, taken)
    ensures TakeStates(patch, rest).Some? <==> StateEntriesValid(taken + rest)
    ensures TakeStates(patch, rest).Some? ==> Patches(TakeStates(patch, rest).value, taken + rest)
    decreases |rest|
  {
    hide StateEntriesValid, Patches, TakeState;
    if rest == [] {
      assert taken + rest == taken;
    } else {
      StateTaken(patch, taken, rest[0]);
      assert taken + rest == (taken + [rest[0]]) + rest[1..];
      ValidPrefix(taken + [rest[0]], rest[1..]);
      var next := TakeState(patch, rest[0]);
      if next.Some? { StatesTaken(next.value, taken + [rest[0]], rest[1..]); }
    }
  }

  lemma ValidPrefix(front: Entries, rest: Entries)
    ensures StateEntriesValid(front + rest) ==> StateEntriesValid(front)
  {
    assert forall i :: 0 <= i < |front| ==> front[i] == (front + rest)[i];
  }

  /** A table converts exactly when its entries are valid and their keys
      distinct; the patch then holds each converted entry and nothing else. */
  lemma StatePatchIs(entries: Entries)
    ensures TakeStates(map[], entries).Some? <==> StateEntriesValid(entries)
    ensures TakeStates(map[], entries).Some? ==> Patches(TakeStates(map[], entries).value, entries)
  {
    StatesTaken(map[], [], entries);
    assert [] + entries == entries;
  }

  method ConvertState(entries: Entries) returns (r: Option<State>)
    ensures r == TakeStates(map[], entries)
    ensures r.Some? <==> StateEntriesValid(entries)
    ensures r.Some? ==> Patches(r.value, entries)
  {
    StatePatchIs(entries);
    var patch: State := map[];
    var i := 0;
    while i < |entries|
      invariant 0 <= i <= |entries|
      invariant TakeStates(patch, entries[i..]) == TakeStates(map[], entries)
    {
      assert entries[i..][1..] == entries[i + 1..];
      var next := TakeState(patch, entries[i]);
      if next.None? { return None; }
      patch := next.value;
      i := i + 1;
    }
    r := Some(patch);
  }

  method ConvertOutputs(endpoints: seq<Endpoint>, naming: Naming, outputs: Option<Entries>) returns (r: Option<seq<OutputEffect>>)
    ensures r == ConvertedOutputs(endpoints, naming, outputs)
  {
    if outputs.None? { return Some([]); }
    var entries := outputs.value;
    var slots := EmptySlots(|endpoints|);
    var i := 0;
    while i < |entries|
      invariant 0 <= i <= |entries| && |slots| == |endpoints|
      invariant TakeOutputs(endpoints, naming, slots, entries[i..])
             == TakeOutputs(endpoints, naming, EmptySlots(|endpoints|), entries)
    {
      assert entries[i..][1..] == entries[i + 1..];
      var next := TakeOutput(endpoints, naming, slots, entries[i]);
      if next.None? { return None; }
      slots := next.value;
      i := i + 1;
    }
    r := Some(FilledOutputs(endpoints, slots, |endpoints|));
  }

  method SplitFields(entries: Entries) returns (r: Option<Fields>)
    ensures r == TakeFields(Fields(None, None, None), entries)
  {
    var fields := Fields(None, None, None);
    var i := 0;
    while i < |entries|
      invariant 0 <= i <= |entries|
      invariant TakeFields(fields, entries[i..]) == TakeFields(Fields(None, None, None), entries)
    {
      assert entries[i..][1..] == entries[i + 1..];
      var next := TakeField(fields, entries[i]);
      if next.None? { return None; }
      fields := next.value;
      i := i + 1;
    }
    r := Some(fields);
  }

  method ConvertResult(endpoints: seq<Endpoint>, naming: Naming, result: Lua, state: State, pending: Timers,
                       now: MonotonicMs, limits: Limits) returns (r: Option<Transition>)
    ensures r == Converted(endpoints, naming, result, state, pending, now, limits)
  {
    if result.LuaNil? { return Some(Transition(map[], [], [])); }
    if !result.LuaTable? { return None; }
    var fields := SplitFields(result.entries);
    if fields.None? { return None; }
    var patch := ConvertState(fields.value.state.GetOr([]));
    if patch.None? || |patch.value| > limits.maxStatePatchEntriesPerExecution { return None; }
    var merged := MergeState(state, patch.value, limits);
    if merged.Err? { return None; }
    var outputs := ConvertOutputs(endpoints, naming, fields.value.outputs);
    if outputs.None? { return None; }
    var timers := ConvertTimers(fields.value.timers, pending, naming, now, limits);
    if timers.None? || !EffectsWithin(|patch.value|, |outputs.value|, |timers.value|, limits) { return None; }
    r := Some(Transition(patch.value, outputs.value, timers.value));
  }

  // ----- what a converted transition guarantees -------------------------------------

  /** Outputs name distinct output endpoints, in declaration order, each with a
      value of the endpoint's type. */
  ghost predicate OutputsTyped(endpoints: seq<Endpoint>, outputs: seq<OutputEffect>) {
    && (forall i :: 0 <= i < |outputs| ==> OutputTyped(endpoints, outputs[i]))
    && (forall i, j :: 0 <= i < j < |outputs| ==>
          EndpointPosition(endpoints, outputs[i].endpoint).value < EndpointPosition(endpoints, outputs[j].endpoint).value)
  }

  ghost predicate OutputTyped(endpoints: seq<Endpoint>, output: OutputEffect) {
    var at := EndpointPosition(endpoints, output.endpoint);
    at.Some? && endpoints[at.value].direction == Output && endpoints[at.value].dpt == output.value.GetDpt()
  }

  ghost predicate SlotsTyped(endpoints: seq<Endpoint>, slots: Slots)
    requires |slots| == |endpoints|
  {
    forall i :: 0 <= i < |slots| && slots[i].Some? ==>
      EndpointPosition(endpoints, endpoints[i].name) == Some(i) && slots[i].value.GetDpt() == endpoints[i].dpt
  }

  lemma {:induction false} OutputSlotsTyped(endpoints: seq<Endpoint>, naming: Naming, slots: Slots, entries: Entries)
    requires |slots| == |endpoints| && SlotsTyped(endpoints, slots)
    ensures TakeOutputs(endpoints, naming, slots, entries).Some? ==>
              SlotsTyped(endpoints, TakeOutputs(endpoints, naming, slots, entries).value)
    decreases |entries|
  {
    if entries != [] {
      var next := TakeOutput(endpoints, naming, slots, entries[0]);
      if next.Some? { OutputSlotsTyped(endpoints, naming, next.value, entries[1..]); }
    }
  }

  ghost predicate NamedBefore(endpoints: seq<Endpoint>, outputs: seq<OutputEffect>, n: nat) {
    forall i :: 0 <= i < |outputs| ==> EndpointPosition(endpoints, outputs[i].endpoint).GetOr(n) < n
  }

  lemma {:induction false} FilledOutputsTyped(endpoints: seq<Endpoint>, slots: Slots, n: nat)
    requires |slots| == |endpoints| && n <= |endpoints| && SlotsTyped(endpoints, slots)
    ensures OutputsTyped(endpoints, FilledOutputs(endpoints, slots, n))
    ensures NamedBefore(endpoints, FilledOutputs(endpoints, slots, n), n)
  {
    hide OutputsTyped, NamedBefore;
    if n == 0 {
      NothingFilled(endpoints);
    } else {
      FilledOutputsTyped(endpoints, slots, n - 1);
      var front := FilledOutputs(endpoints, slots, n - 1);
      FilledOutputTyped(endpoints, slots, n - 1, front);
      assert front + [] == front;
    }
  }

  lemma NothingFilled(endpoints: seq<Endpoint>)
    ensures OutputsTyped(endpoints, []) && NamedBefore(endpoints, [], 0)
  {
  }

  lemma FilledOutputTyped(endpoints: seq<Endpoint>, slots: Slots, n: nat, front: seq<OutputEffect>)
    requires |slots| == |endpoints| && n < |endpoints| && SlotsTyped(endpoints, slots)
    requires OutputsTyped(endpoints, front) && NamedBefore(endpoints, front, n)
    ensures NamedBefore(endpoints, front, n + 1)
    ensures endpoints[n].direction == Output && slots[n].Some? ==>
              var all := front + [OutputEffect(endpoints[n].name, slots[n].value)];
              OutputsTyped(endpoints, all) && NamedBefore(endpoints, all, n + 1)
  {
  }

  lemma {:induction false} TimersDueLater(pending: Timers, naming: Naming, entries: Entries, raw: seq<TimerEffect>, now: MonotonicMs)
    requires DueLater(raw, now) && SortedByName(raw)
    ensures var r := TakeTimers(pending, naming, entries, raw, now); r.Some? ==> DueLater(r.value, now) && SortedByName(r.value)
    decreases |entries|
  {
    if entries != [] {
      var effect := TakeTimer(pending, naming, entries[0], now);
      if effect.Some? {
        TimerDueLater(pending, naming, entries[0], now);
        assert effect.value in [effect.value];
        InsertKeepsOrder(raw, effect.value);
        TimersDueLater(pending, naming, entries[1..], InsertByName(raw, effect.value), now);
      }
    }
  }

  lemma TimerDueLater(pending: Timers, naming: Naming, entry: (Lua, Lua), now: MonotonicMs)
    ensures var r := TakeTimer(pending, naming, entry, now); r.Some? ==> DueLater([r.value], now)
  {
    if entry.1.LuaTable? { AfterIsPositive(None, entry.1.entries); }
  }

  lemma {:induction false} AfterIsPositive(after: Option<nat>, entries: Entries)
    requires after.Some? ==> after.value > 0
    ensures var r := TakeAfters(after, entries); r.Some? && r.value.Some? ==> r.value.value > 0
    decreases |entries|
  {
    if entries != [] {
      var next := TakeAfter(after, entries[0]);
      if next.Some? { AfterIsPositive(next.value, entries[1..]); }
    }
  }

  /** Whatever the handler returns, the outputs it publishes are typed. */
  lemma ConvertedIsTyped(endpoints: seq<Endpoint>, naming: Naming, result: Lua, state: State, pending: Timers, now: MonotonicMs, limits: Limits)
    ensures var t := Converted(endpoints, naming, result, state, pending, now, limits);
            t.Some? ==> OutputsTyped(endpoints, t.value.outputs)
  {
    if result.LuaTable? {
      var fields := TakeFields(Fields(None, None, None), result.entries);
      if fields.Some? && fields.value.outputs.Some? {
        var slots := TakeOutputs(endpoints, naming, EmptySlots(|endpoints|), fields.value.outputs.value);
        OutputSlotsTyped(endpoints, naming, EmptySlots(|endpoints|), fields.value.outputs.value);
        if slots.Some? { FilledOutputsTyped(endpoints, slots.value, |endpoints|); }
      }
    }
  }

  /** What every accepted transition guarantees to the engine that commits it:
      the merge that the engine expects to succeed does succeed, timers stay
      within their limit and are armed strictly later. */
  lemma ConvertedIsCommittable(endpoints: seq<Endpoint>, naming: Naming, result: Lua, state: State, pending: Timers,
                               now: MonotonicMs, limits: Limits, revision: LogicRevision)
    requires StateWithin(state, limits) && |pending| <= limits.maxPendingTimersPerBlock
    requires Converted(endpoints, naming, result, state, pending, now, limits).Some?
    ensures var t := Converted(endpoints, naming, result, state, pending, now, limits).value;
            && StateWithin(state + t.state, limits)
            && DueLater(t.timers, now) && SortedByName(t.timers)
            && |ApplyEffects(pending, t.timers, now, revision)| <= limits.maxPendingTimersPerBlock
  {
    var t := Converted(endpoints, naming, result, state, pending, now, limits).value;
    if result.LuaNil? {
      assert state + t.state == state;
    } else {
      var fields := TakeFields(Fields(None, None, None), result.entries).value;
      if fields.timers.Some? {
        TimersDueLater(pending, naming, fields.timers.value, [], now);
        EffectKeys(pending, pending, t.timers, now, revision, 0);
        SameKeysSameSize(ApplyEffects(pending, t.timers, now, revision), ApplyEffects(pending, t.timers, now, 0));
      }
    }
  }

  lemma SameKeysSameSize(a: Timers, b: Timers)
    requires a.Keys == b.Keys
    ensures |a| == |b|
  {
    assert |a| == |a.Keys| && |b| == |b.Keys|;
  }
}
