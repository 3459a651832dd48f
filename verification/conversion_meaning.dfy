/** What a converted handler result means: which raw tables are accepted, and
    that the transition says what the handler wrote. */
module ConversionMeaning {
  import opened Values
  import opened TransientState
  import opened LuaConversion

  // ----- scalars -------------------------------------------------------------------------------

  /** A Lua value that stands for a typed value. */
  predicate Denotes(value: Lua, typed: TypedValue) {
    match typed
    case BoolValue(on) => value == LuaBoolean(on)
    case PercentValue(percent) => value == LuaInteger(percent)
    case TemperatureValue(centi) =>
      || (value.LuaInteger? && centi == 100 * value.i)
      || (value.LuaNumber? && -0.000000001 <= 100.0 * value.n - centi as real <= 0.000000001)
  }

  predicate Representable(typed: TypedValue) {
    && (typed.PercentValue? ==> typed.percent <= 100)
    && (typed.TemperatureValue? ==> I32_MIN <= typed.centi <= I32_MAX)
  }

  /** A value converts to exactly the typed value it stands for. */
  lemma TypedMeans(dpt: Dpt, value: Lua, typed: TypedValue)
    ensures ToTyped(dpt, value) == Some(typed) <==> typed.GetDpt() == dpt && Representable(typed) && Denotes(value, typed)
  {
    if value.LuaInteger? {
      HundredthsMean(value.i as real * 100.0, typed);
      if typed.TemperatureValue? { WholeHundredths(value.i, typed); }
    }
    if value.LuaNumber? { HundredthsMean(value.n * 100.0, typed); }
  }

  lemma HundredthsMean(scaled: real, typed: TypedValue)
    ensures Hundredths(scaled) == Some(typed)
       <==> typed.TemperatureValue? && Representable(typed) && -0.000000001 <= scaled - typed.centi as real <= 0.000000001
  {
    if typed.TemperatureValue? && -0.000000001 <= scaled - typed.centi as real <= 0.000000001 { Rounded(scaled, typed.centi); }
  }

  lemma Rounded(scaled: real, c: int)
    requires -0.000000001 <= scaled - c as real <= 0.000000001
    ensures RoundHalfAway(scaled) == c
  {
    if scaled >= 0.0 {
      assert c as real <= scaled + 0.5 < (c + 1) as real;
    } else {
      assert (-c) as real <= 0.5 - scaled < (-c + 1) as real;
    }
  }

  lemma WholeHundredths(i: int, typed: TypedValue)
    requires typed.TemperatureValue?
    ensures -0.000000001 <= i as real * 100.0 - typed.centi as real <= 0.000000001 <==> typed.centi == 100 * i
  {
    assert i as real * 100.0 - typed.centi as real == (100 * i - typed.centi) as real;
  }

  /** The Lua value that a handler is shown for a typed value. */
  function TypedToLua(typed: TypedValue): Lua {
    match typed
    case BoolValue(on) => LuaBoolean(on)
    case PercentValue(percent) => LuaInteger(percent)
    case TemperatureValue(centi) => LuaNumber(centi as real / 100.0)
  }

  /** What a handler is shown and returns unchanged is the value it was. */
  lemma TypedRoundTrip(typed: TypedValue)
    requires Representable(typed)
    ensures ToTyped(typed.GetDpt(), TypedToLua(typed)) == Some(typed)
  {
    TypedMeans(typed.GetDpt(), TypedToLua(typed), typed);
  }

  /** The Lua value that a handler is shown for a state entry. */
  function ReadBack(value: StateValue): Lua {
    match value
    case BoolState(b) => LuaBoolean(b)
    case IntegerState(i) => LuaInteger(i)
    case NumberState(n) => LuaNumber(n)
    case StringState(s) => LuaString(s)
  }

  /** An entry converts to exactly the value it reads back as. */
  lemma StateValueMeans(key: seq<char>, raw: Lua, value: StateValue)
    ensures ToStateValue(key, raw) == Some(value) <==> ValidEntry(key, value) && ReadBack(value) == raw
  {
  }

  lemma DurationMeans(raw: Lua, ms: nat)
    ensures DurationMs(raw) == Some(ms) <==> 1 <= ms <= U32_MAX && (raw == LuaInteger(ms) || raw == LuaNumber(ms as real))
  {
  }

  // ----- the three tables of a result ------------------------------------------------------------

  predicate IsField(entry: (Lua, Lua)) {
    entry.0 in [LuaString("state"), LuaString("outputs"), LuaString("timers")] && entry.1.LuaTable?
  }

  ghost predicate DistinctKeys(entries: Entries) { forall i, j :: 0 <= i < j < |entries| ==> entries[i].0 != entries[j].0 }

  /** `table` is what `entries` hold under `key`, if anything. */
  ghost predicate Under(entries: Entries, key: seq<char>, table: Option<Entries>) {
    && (table.Some? ==> (LuaString(key), LuaTable(table.value)) in entries)
    && (table.None? ==> forall entry :: entry in entries ==> entry.0 != LuaString(key))
  }

  ghost predicate FieldsOf(entries: Entries, fields: Fields) {
    Under(entries, "state", fields.state) && Under(entries, "outputs", fields.outputs) && Under(entries, "timers", fields.timers)
  }

  ghost predicate FieldsValid(entries: Entries) { (forall entry :: entry in entries ==> IsField(entry)) && DistinctKeys(entries) }

  lemma FieldTaken(fields: Fields, taken: Entries, entry: (Lua, Lua))
    requires FieldsValid(taken) && FieldsOf(taken, fields)
    ensures TakeField(fields, entry).Some? <==> FieldsValid(taken + [entry])
    ensures TakeField(fields, entry).Some? ==> FieldsOf(taken + [entry], TakeField(fields, entry).value)
  {
    var all := taken + [entry];
    assert all[|taken|] == entry;
    forall x ensures x in all <==> x in taken || x == entry {}
    if IsField(entry) {
      if exists x :: x in taken && x.0 == entry.0 {
        var x :| x in taken && x.0 == entry.0;
        var i :| 0 <= i < |taken| && taken[i] == x;
        assert all[i].0 == all[|taken|].0;
      }
    }
  }

  lemma FieldsPrefix(front: Entries, rest: Entries)
    requires FieldsValid(front + rest)
    ensures FieldsValid(front)
  {
    var all := front + rest;
    forall entry | entry in front ensures IsField(entry) { assert entry in all; }
    assert forall i :: 0 <= i < |front| ==> front[i] == all[i];
  }

  lemma {:induction false} FieldsTaken(fields: Fields, taken: Entries, rest: Entries)
    requires FieldsValid(taken) && FieldsOf(taken, fields)
    ensures TakeFields(fields, rest).Some? <==> FieldsValid(taken + rest)
    ensures TakeFields(fields, rest).Some? ==> FieldsOf(taken + rest, TakeFields(fields, rest).value)
    decreases |rest|
  {
    hide FieldsValid, FieldsOf, TakeField;
    if rest == [] {
      assert taken + rest == taken;
    } else {
      FieldTaken(fields, taken, rest[0]);
      assert taken + rest == (taken + [rest[0]]) + rest[1..];
      if FieldsValid(taken + rest) { FieldsPrefix(taken + [rest[0]], rest[1..]); }
      var next := TakeField(fields, rest[0]);
      if next.Some? { FieldsTaken(next.value, taken + [rest[0]], rest[1..]); }
    }
  }

  /** A result table splits exactly if its keys are distinct and among the three
      known ones, each with a table; the fields are then those tables. */
  lemma FieldsMean(entries: Entries)
    ensures TakeFields(Fields(None, None, None), entries).Some? <==> FieldsValid(entries)
    ensures TakeFields(Fields(None, None, None), entries).Some? ==> FieldsOf(entries, TakeFields(Fields(None, None, None), entries).value)
  {
    FieldsTaken(Fields(None, None, None), [], entries);
    assert [] + entries == entries;
  }

  // ----- outputs --------------------------------------------------------------------------------------

  /** The entry names an output endpoint and gives it this value. */
  ghost predicate Writes(endpoints: seq<Endpoint>, naming: Naming, entry: (Lua, Lua), output: OutputEffect) {
    && entry.0.LuaString? && naming.endpoint(entry.0.s) == Some(output.endpoint)
    && OutputTyped(endpoints, output) && Representable(output.value) && Denotes(entry.1, output.value)
  }

  /** What one entry converts to. */
  function OutputOf(endpoints: seq<Endpoint>, naming: Naming, entry: (Lua, Lua)): Option<OutputEffect> {
    var name := if entry.0.LuaString? then naming.endpoint(entry.0.s) else None;
    var at := if name.None? then None else EndpointPosition(endpoints, name.value);
    var value := if at.None? || endpoints[at.value].direction != Output then None else ToTyped(endpoints[at.value].dpt, entry.1);
    if value.None? then None else Some(OutputEffect(name.value, value.value))
  }

  lemma OutputMeans(endpoints: seq<Endpoint>, naming: Naming, entry: (Lua, Lua), output: OutputEffect)
    ensures OutputOf(endpoints, naming, entry) == Some(output) <==> Writes(endpoints, naming, entry, output)
  {
    hide ToTyped, Denotes, Representable;
    var at := EndpointPosition(endpoints, output.endpoint);
    if at.Some? { TypedMeans(endpoints[at.value].dpt, entry.1, output.value); }
  }

  ghost predicate OutputEntriesValid(endpoints: seq<Endpoint>, naming: Naming, entries: Entries) {
    && (forall i :: 0 <= i < |entries| ==> OutputOf(endpoints, naming, entries[i]).Some?)
    && forall i, j :: 0 <= i < j < |entries| ==>
         OutputOf(endpoints, naming, entries[i]).value.endpoint != OutputOf(endpoints, naming, entries[j]).value.endpoint
  }

  ghost predicate Written(endpoints: seq<Endpoint>, naming: Naming, entries: Entries, e: nat, value: TypedValue)
    requires e < |endpoints|
  {
    exists i :: 0 <= i < |entries| && OutputOf(endpoints, naming, entries[i]) == Some(OutputEffect(endpoints[e].name, value))
  }

  /** Each slot that can be named holds what the entries wrote there. */
  ghost predicate SlotsHold(endpoints: seq<Endpoint>, naming: Naming, slots: Slots, taken: Entries) {
    && |slots| == |endpoints|
    && forall e :: 0 <= e < |slots| ==>
         && (slots[e].Some? ==> EndpointPosition(endpoints, endpoints[e].name) == Some(e) && endpoints[e].direction == Output
                                && Written(endpoints, naming, taken, e, slots[e].value))
         && (slots[e].None? && EndpointPosition(endpoints, endpoints[e].name) == Some(e) ==>
               forall i :: 0 <= i < |taken| && OutputOf(endpoints, naming, taken[i]).Some? ==>
                 OutputOf(endpoints, naming, taken[i]).value.endpoint != endpoints[e].name)
  }

  lemma {:induction false} WrittenStays(endpoints: seq<Endpoint>, naming: Naming, taken: Entries, entry: (Lua, Lua), e: nat, value: TypedValue)
    requires e < |endpoints| && Written(endpoints, naming, taken, e, value)
    ensures Written(endpoints, naming, taken + [entry], e, value)
  {
    var i :| 0 <= i < |taken| && OutputOf(endpoints, naming, taken[i]) == Some(OutputEffect(endpoints[e].name, value));
    assert (taken + [entry])[i] == taken[i];
  }

  lemma {:induction false} OutputTaken(endpoints: seq<Endpoint>, naming: Naming, slots: Slots, taken: Entries, entry: (Lua, Lua))
    requires SlotsHold(endpoints, naming, slots, taken) && OutputEntriesValid(endpoints, naming, taken)
    ensures TakeOutput(endpoints, naming, slots, entry).Some? <==> OutputEntriesValid(endpoints, naming, taken + [entry])
    ensures TakeOutput(endpoints, naming, slots, entry).Some? ==>
              SlotsHold(endpoints, naming, TakeOutput(endpoints, naming, slots, entry).value, taken + [entry])
  {
    hide ToTyped;
    var all := taken + [entry];
    assert all[|taken|] == entry;
    var output := OutputOf(endpoints, naming, entry);
    if output.Some? {
      var at := EndpointPosition(endpoints, output.value.endpoint).value;
      if slots[at].Some? {
        var i :| 0 <= i < |taken| && OutputOf(endpoints, naming, taken[i]) == Some(OutputEffect(endpoints[at].name, slots[at].value));
        assert all[i] == taken[i];
      } else {
        OneSlotTaken(endpoints, naming, slots, taken, entry, at);
      }
    }
  }

  lemma {:induction false} OneSlotTaken(endpoints: seq<Endpoint>, naming: Naming, slots: Slots, taken: Entries, entry: (Lua, Lua), at: nat)
    requires SlotsHold(endpoints, naming, slots, taken) && OutputEntriesValid(endpoints, naming, taken) && OutputOf(endpoints, naming, entry).Some?
    requires EndpointPosition(endpoints, OutputOf(endpoints, naming, entry).value.endpoint) == Some(at) && slots[at].None?
    requires endpoints[at].direction == Output
    ensures OutputEntriesValid(endpoints, naming, taken + [entry])
    ensures SlotsHold(endpoints, naming, slots[at := Some(OutputOf(endpoints, naming, entry).value.value)], taken + [entry])
  {
    hide OutputOf;
    var all, output := taken + [entry], OutputOf(endpoints, naming, entry).value;
    var after := slots[at := Some(output.value)];
    assert all[|taken|] == entry && forall i :: 0 <= i < |taken| ==> all[i] == taken[i];
    forall e | 0 <= e < |after| && after[e].Some?
      ensures Written(endpoints, naming, all, e, after[e].value)
    {
      if e == at {
        assert OutputOf(endpoints, naming, all[|taken|]) == Some(OutputEffect(endpoints[e].name, after[e].value));
      } else {
        WrittenStays(endpoints, naming, taken, entry, e, after[e].value);
      }
    }
  }

  lemma ValidOutputsPrefix(endpoints: seq<Endpoint>, naming: Naming, front: Entries, rest: Entries)
    requires OutputEntriesValid(endpoints, naming, front + rest)
    ensures OutputEntriesValid(endpoints, naming, front)
  {
    hide OutputOf;
    assert forall i :: 0 <= i < |front| ==> front[i] == (front + rest)[i];
  }

  lemma {:induction false} OutputsTaken(endpoints: seq<Endpoint>, naming: Naming, slots: Slots, taken: Entries, rest: Entries)
    requires SlotsHold(endpoints, naming, slots, taken) && OutputEntriesValid(endpoints, naming, taken)
    ensures TakeOutputs(endpoints, naming, slots, rest).Some? <==> OutputEntriesValid(endpoints, naming, taken + rest)
    ensures TakeOutputs(endpoints, naming, slots, rest).Some? ==>
              SlotsHold(endpoints, naming, TakeOutputs(endpoints, naming, slots, rest).value, taken + rest)
    decreases |rest|
  {
    HoldsShape(endpoints, naming, slots, taken);
    hide SlotsHold, OutputEntriesValid, TakeOutput;
    if rest == [] {
      assert taken + rest == taken;
    } else {
      OutputTaken(endpoints, naming, slots, taken, rest[0]);
      assert taken + rest == (taken + [rest[0]]) + rest[1..];
      if OutputEntriesValid(endpoints, naming, taken + rest) { ValidOutputsPrefix(endpoints, naming, taken + [rest[0]], rest[1..]); }
      var next := TakeOutput(endpoints, naming, slots, rest[0]);
      if next.Some? { OutputsTaken(endpoints, naming, next.value, taken + [rest[0]], rest[1..]); }
    }
  }

  lemma HoldsShape(endpoints: seq<Endpoint>, naming: Naming, slots: Slots, taken: Entries)
    requires SlotsHold(endpoints, naming, slots, taken)
    ensures |slots| == |endpoints|
  {
  }

  lemma {:induction false} FilledHolds(endpoints: seq<Endpoint>, slots: Slots, n: nat, output: OutputEffect)
    requires |slots| == |endpoints| && n <= |endpoints|
    ensures output in FilledOutputs(endpoints, slots, n) <==>
              exists e :: 0 <= e < n && endpoints[e].direction == Output && slots[e] == Some(output.value) && endpoints[e].name == output.endpoint
  {
    if n > 0 { FilledHolds(endpoints, slots, n - 1, output); }
  }

  /** An outputs table converts exactly if each entry gives a value that it can
      take to an output endpoint, and no endpoint is named twice. The outputs are
      then what the entries write: each entry, and nothing else. */
  lemma {:induction false} OutputsMean(endpoints: seq<Endpoint>, naming: Naming, entries: Entries)
    ensures var r := ConvertedOutputs(endpoints, naming, Some(entries));
            && (r.Some? <==> EachWrites(endpoints, naming, entries) && NamesDiffer(naming, entries))
            && (r.Some? ==> forall output :: output in r.value <==> exists i :: 0 <= i < |entries| && Writes(endpoints, naming, entries[i], output))
            && (r.Some? ==> OutputsTyped(endpoints, r.value))
  {
    hide Writes, OutputsTyped, SlotsHold, OutputOf, TakeOutputs;
    var slots := EmptySlots(|endpoints|);
    NothingHeld(endpoints, naming);
    OutputsTaken(endpoints, naming, slots, [], entries);
    assert [] + entries == entries;
    OutputEntriesMean(endpoints, naming, entries);
    var r := TakeOutputs(endpoints, naming, slots, entries);
    if r.Some? {
      NothingTyped(endpoints);
      OutputSlotsTyped(endpoints, naming, slots, entries);
      FilledOutputsTyped(endpoints, r.value, |endpoints|);
      forall output: OutputEffect
        ensures output in FilledOutputs(endpoints, r.value, |endpoints|) <==> exists i :: 0 <= i < |entries| && Writes(endpoints, naming, entries[i], output)
      {
        FilledMeans(endpoints, naming, r.value, entries, output);
      }
    }
  }

  lemma NothingHeld(endpoints: seq<Endpoint>, naming: Naming)
    ensures SlotsHold(endpoints, naming, EmptySlots(|endpoints|), []) && OutputEntriesValid(endpoints, naming, [])
  {
  }

  lemma NothingTyped(endpoints: seq<Endpoint>)
    ensures SlotsTyped(endpoints, EmptySlots(|endpoints|))
  {
  }

  ghost predicate WritesSome(endpoints: seq<Endpoint>, naming: Naming, entry: (Lua, Lua)) {
    exists output :: Writes(endpoints, naming, entry, output)
  }

  ghost predicate EachWrites(endpoints: seq<Endpoint>, naming: Naming, entries: Entries) {
    forall i :: 0 <= i < |entries| ==> WritesSome(endpoints, naming, entries[i])
  }

  ghost predicate NamesDiffer(naming: Naming, entries: Entries) {
    forall i, j :: 0 <= i < j < |entries| && entries[i].0.LuaString? && entries[j].0.LuaString? ==>
      naming.endpoint(entries[i].0.s) != naming.endpoint(entries[j].0.s)
  }

  lemma {:induction false} EntryWrites(endpoints: seq<Endpoint>, naming: Naming, entry: (Lua, Lua))
    ensures OutputOf(endpoints, naming, entry).Some? <==> WritesSome(endpoints, naming, entry)
    ensures OutputOf(endpoints, naming, entry).Some? ==>
              entry.0.LuaString? && naming.endpoint(entry.0.s) == Some(OutputOf(endpoints, naming, entry).value.endpoint)
  {
    forall output ensures OutputOf(endpoints, naming, entry) == Some(output) <==> Writes(endpoints, naming, entry, output) {
      OutputMeans(endpoints, naming, entry, output);
    }
    hide ToTyped, OutputTyped, Denotes, Representable;
    if OutputOf(endpoints, naming, entry).Some? { assert Writes(endpoints, naming, entry, OutputOf(endpoints, naming, entry).value); }
  }

  lemma {:induction false} OutputEntriesMean(endpoints: seq<Endpoint>, naming: Naming, entries: Entries)
    ensures OutputEntriesValid(endpoints, naming, entries) <==> EachWrites(endpoints, naming, entries) && NamesDiffer(naming, entries)
  {
    hide WritesSome, OutputOf;
    forall i | 0 <= i < |entries|
      ensures OutputOf(endpoints, naming, entries[i]).Some? <==> WritesSome(endpoints, naming, entries[i])
      ensures OutputOf(endpoints, naming, entries[i]).Some? ==>
                entries[i].0.LuaString? && naming.endpoint(entries[i].0.s) == Some(OutputOf(endpoints, naming, entries[i]).value.endpoint)
    {
      EntryWrites(endpoints, naming, entries[i]);
    }
    if OutputEntriesValid(endpoints, naming, entries) {
      forall i | 0 <= i < |entries| ensures WritesSome(endpoints, naming, entries[i]) {
        assert OutputOf(endpoints, naming, entries[i]).Some?;
      }
      forall i, j | 0 <= i < j < |entries| ensures naming.endpoint(entries[i].0.s) != naming.endpoint(entries[j].0.s) {
        assert OutputOf(endpoints, naming, entries[i]).Some? && OutputOf(endpoints, naming, entries[j]).Some?;
      }
    }
    if EachWrites(endpoints, naming, entries) && NamesDiffer(naming, entries) {
      forall i | 0 <= i < |entries| ensures OutputOf(endpoints, naming, entries[i]).Some? {
        assert WritesSome(endpoints, naming, entries[i]);
      }
      forall i, j | 0 <= i < j < |entries|
        ensures OutputOf(endpoints, naming, entries[i]).Some? && OutputOf(endpoints, naming, entries[j]).Some?
             && OutputOf(endpoints, naming, entries[i]).value.endpoint != OutputOf(endpoints, naming, entries[j]).value.endpoint
      {
        assert naming.endpoint(entries[i].0.s) != naming.endpoint(entries[j].0.s);
      }
    }
  }

  lemma {:induction false} FilledMeans(endpoints: seq<Endpoint>, naming: Naming, slots: Slots, entries: Entries, output: OutputEffect)
    requires SlotsHold(endpoints, naming, slots, entries) && OutputEntriesValid(endpoints, naming, entries)
    ensures output in FilledOutputs(endpoints, slots, |endpoints|) <==> exists i :: 0 <= i < |entries| && Writes(endpoints, naming, entries[i], output)
  {
    hide Writes, FilledOutputs;
    FilledHolds(endpoints, slots, |endpoints|, output);
    forall i | 0 <= i < |entries| ensures OutputOf(endpoints, naming, entries[i]) == Some(output) <==> Writes(endpoints, naming, entries[i], output) {
      OutputMeans(endpoints, naming, entries[i], output);
    }
    if i :| 0 <= i < |entries| && OutputOf(endpoints, naming, entries[i]) == Some(output) {
      SlotOfEntry(endpoints, naming, slots, entries, i);
    }
  }

  /** What an entry writes is in the slot of its endpoint. */
  lemma {:induction false} SlotOfEntry(endpoints: seq<Endpoint>, naming: Naming, slots: Slots, entries: Entries, i: nat)
    requires SlotsHold(endpoints, naming, slots, entries) && OutputEntriesValid(endpoints, naming, entries) && i < |entries|
    ensures var output := OutputOf(endpoints, naming, entries[i]).value; var at := EndpointPosition(endpoints, output.endpoint);
            at.Some? && slots[at.value] == Some(output.value) && endpoints[at.value].direction == Output
  {
    hide ToTyped;
    var output := OutputOf(endpoints, naming, entries[i]).value;
    var at := EndpointPosition(endpoints, output.endpoint).value;
    var j :| 0 <= j < |entries| && OutputOf(endpoints, naming, entries[j]) == Some(OutputEffect(endpoints[at].name, slots[at].value));
    assert j == i;
  }

  lemma {:induction false} FilledGrows(endpoints: seq<Endpoint>, slots: Slots, at: nat, value: TypedValue, n: nat)
    requires |slots| == |endpoints| && n <= |endpoints| && at < |endpoints| && slots[at].None? && endpoints[at].direction == Output
    ensures |FilledOutputs(endpoints, slots[at := Some(value)], n)| == |FilledOutputs(endpoints, slots, n)| + if at < n then 1 else 0
  {
    if n > 0 { FilledGrows(endpoints, slots, at, value, n - 1); }
  }

  lemma {:induction false} EachEntryFills(endpoints: seq<Endpoint>, naming: Naming, slots: Slots, entries: Entries)
    requires |slots| == |endpoints| && TakeOutputs(endpoints, naming, slots, entries).Some?
    ensures |FilledOutputs(endpoints, TakeOutputs(endpoints, naming, slots, entries).value, |endpoints|)|
         == |FilledOutputs(endpoints, slots, |endpoints|)| + |entries|
    decreases |entries|
  {
    hide FilledOutputs, ToTyped;
    if entries != [] {
      var next := TakeOutput(endpoints, naming, slots, entries[0]).value;
      var at := EndpointPosition(endpoints, naming.endpoint(entries[0].0.s).value).value;
      FilledGrows(endpoints, slots, at, next[at].value, |endpoints|);
      EachEntryFills(endpoints, naming, next, entries[1..]);
    }
  }

  lemma {:induction false} NothingFills(endpoints: seq<Endpoint>, n: nat)
    requires n <= |endpoints|
    ensures FilledOutputs(endpoints, EmptySlots(|endpoints|), n) == []
  {
    if n > 0 { NothingFills(endpoints, n - 1); }
  }

  /** As many outputs as entries. */
  lemma {:induction false} OutputCount(endpoints: seq<Endpoint>, naming: Naming, entries: Entries)
    requires ConvertedOutputs(endpoints, naming, Some(entries)).Some?
    ensures |ConvertedOutputs(endpoints, naming, Some(entries)).value| == |entries|
  {
    hide FilledOutputs, TakeOutputs;
    NothingFills(endpoints, |endpoints|);
    EachEntryFills(endpoints, naming, EmptySlots(|endpoints|), entries);
  }

  lemma {:induction false} PatchCount(patch: State, entries: Entries)
    requires TakeStates(patch, entries).Some?
    ensures |TakeStates(patch, entries).value| == |patch| + |entries|
    decreases |entries|
  {
    hide ToStateValue;
    if entries != [] {
      var next := TakeState(patch, entries[0]).value;
      assert next.Keys == patch.Keys + {entries[0].0.s};
      PatchCount(next, entries[1..]);
    }
  }

  // ----- timers ----------------------------------------------------------------------------------------

  /** The table that asks for a delay. */
  predicate Delays(value: Lua, after: nat) {
    && 1 <= after <= U32_MAX
    && (value == LuaTable([(LuaString("after"), LuaInteger(after))]) || value == LuaTable([(LuaString("after"), LuaNumber(after as real))]))
  }

  lemma {:induction false} DelayMeans(value: Lua, after: nat)
    ensures AfterOf(value) == Some(after) <==> Delays(value, after)
  {
    if value.LuaTable? && value.entries != [] {
      var first, rest := value.entries[0], value.entries[1..];
      DurationMeans(first.1, after);
      assert value.entries == [first] + rest;
      if rest != [] {
        var one := TakeAfter(None, first);
        if one.Some? { assert TakeAfter(one.value, rest[0]).None?; }
        assert TakeAfters(None, value.entries).None?;
        assert |[first]| == 1 < |value.entries|;
      } else {
        assert TakeAfters(None, [first]) == TakeAfter(None, first);
      }
    }
  }

  /** The effect that one entry asks for. */
  ghost predicate Asks(pending: Timers, naming: Naming, entry: (Lua, Lua), effect: TimerEffect, now: MonotonicMs) {
    && entry.0.LuaString? && naming.timer(entry.0.s) == Some(effect.name)
    && match effect.action
       case Cancelled(was) => entry.1 == LuaBoolean(false) && effect.name in pending && was == pending[effect.name].dueAt
       case CancelNoop => entry.1 == LuaBoolean(false) && effect.name !in pending
       case Scheduled(after, due) => Delays(entry.1, after) && due == now + after <= U64_MAX && effect.name !in pending
       case Replaced(was, after, due) =>
         Delays(entry.1, after) && due == now + after <= U64_MAX && effect.name in pending && was == pending[effect.name].dueAt
  }

  /** An entry converts to exactly the effect it asks for. */
  lemma {:induction false} TimerMeans(pending: Timers, naming: Naming, entry: (Lua, Lua), effect: TimerEffect, now: MonotonicMs)
    ensures TakeTimer(pending, naming, entry, now) == Some(effect) <==> Asks(pending, naming, entry, effect, now)
  {
    hide AfterOf, Delays;
    if entry.1 != LuaBoolean(false) {
      if AfterOf(entry.1).Some? { DelayMeans(entry.1, AfterOf(entry.1).value); }
      match effect.action {
        case Scheduled(after, _) => DelayMeans(entry.1, after);
        case Replaced(_, after, _) => DelayMeans(entry.1, after);
        case _ =>
      }
    } else {
      NoDelay();
    }
  }

  lemma NoDelay()
    ensures forall after: nat :: !Delays(LuaBoolean(false), after)
  {
  }

  ghost predicate AsksSome(pending: Timers, naming: Naming, entry: (Lua, Lua), now: MonotonicMs) {
    exists effect :: Asks(pending, naming, entry, effect, now)
  }

  ghost predicate EachAsks(pending: Timers, naming: Naming, entries: Entries, now: MonotonicMs) {
    forall i :: 0 <= i < |entries| ==> AsksSome(pending, naming, entries[i], now)
  }

  /** The effects are those that the entries ask for, one for each. */
  ghost predicate AsksFor(pending: Timers, naming: Naming, entries: Entries, effects: seq<TimerEffect>, now: MonotonicMs) {
    && |effects| == |entries| && SortedByName(effects)
    && forall effect :: effect in effects <==> exists i :: 0 <= i < |entries| && Asks(pending, naming, entries[i], effect, now)
  }

  lemma {:induction false} TimersTaken(pending: Timers, naming: Naming, entries: Entries, raw: seq<TimerEffect>, now: MonotonicMs)
    requires SortedByName(raw)
    ensures var r := TakeTimers(pending, naming, entries, raw, now);
            && (r.Some? <==> forall i :: 0 <= i < |entries| ==> TakeTimer(pending, naming, entries[i], now).Some?)
            && (r.Some? ==>
                  && |r.value| == |raw| + |entries| && SortedByName(r.value)
                  && forall effect :: effect in r.value <==>
                       effect in raw || exists i :: 0 <= i < |entries| && TakeTimer(pending, naming, entries[i], now) == Some(effect))
    decreases |entries|
  {
    hide TakeTimer, SortedByName, InsertByName;
    if entries != [] {
      var first, rest := entries[0], entries[1..];
      assert forall i :: 1 <= i < |entries| ==> entries[i] == rest[i - 1];
      assert forall i :: 0 <= i < |rest| ==> rest[i] == entries[i + 1];
      var effect := TakeTimer(pending, naming, first, now);
      if effect.Some? {
        InsertKeepsOrder(raw, effect.value);
        TimersTaken(pending, naming, rest, InsertByName(raw, effect.value), now);
        var r := TakeTimers(pending, naming, entries, raw, now);
        if r.Some? {
          forall x
            ensures x in r.value <==> x in raw || exists i :: 0 <= i < |entries| && TakeTimer(pending, naming, entries[i], now) == Some(x)
          {
            OneMoreEntry(pending, naming, entries, x, now);
          }
        }
      }
    }
  }

  lemma {:induction false} OneMoreEntry(pending: Timers, naming: Naming, entries: Entries, x: TimerEffect, now: MonotonicMs)
    requires entries != []
    ensures (exists i :: 0 <= i < |entries| && TakeTimer(pending, naming, entries[i], now) == Some(x))
       <==> TakeTimer(pending, naming, entries[0], now) == Some(x)
            || exists i :: 0 <= i < |entries[1..]| && TakeTimer(pending, naming, entries[1..][i], now) == Some(x)
  {
    hide TakeTimer;
    if i :| 0 < i < |entries| && TakeTimer(pending, naming, entries[i], now) == Some(x) {
      assert entries[1..][i - 1] == entries[i];
    }
    if i :| 0 <= i < |entries[1..]| && TakeTimer(pending, naming, entries[1..][i], now) == Some(x) {
      assert entries[1..][i] == entries[i + 1];
    }
  }

  /** A timers table converts exactly if each entry cancels or gives one delay
      that fits; the effects are then what the entries ask for, ordered by name. */
  lemma {:induction false} TimersMean(pending: Timers, naming: Naming, entries: Entries, now: MonotonicMs)
    ensures var r := TakeTimers(pending, naming, entries, [], now);
            && (r.Some? <==> EachAsks(pending, naming, entries, now))
            && (r.Some? ==> AsksFor(pending, naming, entries, r.value, now))
  {
    hide TakeTimer, Asks, AsksSome;
    TimersTaken(pending, naming, entries, [], now);
    forall i | 0 <= i < |entries|
      ensures TakeTimer(pending, naming, entries[i], now).Some? <==> AsksSome(pending, naming, entries[i], now)
      ensures forall effect :: TakeTimer(pending, naming, entries[i], now) == Some(effect) <==> Asks(pending, naming, entries[i], effect, now)
    {
      EntryAsks(pending, naming, entries[i], now);
    }
  }

  lemma {:induction false} EntryAsks(pending: Timers, naming: Naming, entry: (Lua, Lua), now: MonotonicMs)
    ensures TakeTimer(pending, naming, entry, now).Some? <==> AsksSome(pending, naming, entry, now)
    ensures forall effect :: TakeTimer(pending, naming, entry, now) == Some(effect) <==> Asks(pending, naming, entry, effect, now)
  {
    hide TakeTimer, Asks;
    forall effect ensures TakeTimer(pending, naming, entry, now) == Some(effect) <==> Asks(pending, naming, entry, effect, now) {
      TimerMeans(pending, naming, entry, effect, now);
    }
    var r := TakeTimer(pending, naming, entry, now);
    if r.Some? { assert r == Some(r.value); }
  }

  // ----- the whole result --------------------------------------------------------------------------------

  /** The tables of a result; an absent one is empty. */
  datatype Tables = Tables(state: Entries, outputs: Entries, timers: Entries)

  function TablesOf(fields: Fields): Tables { Tables(fields.state.GetOr([]), fields.outputs.GetOr([]), fields.timers.GetOr([])) }

  /** Every entry of every table can be converted. */
  ghost predicate TablesValid(endpoints: seq<Endpoint>, naming: Naming, tables: Tables, pending: Timers, now: MonotonicMs) {
    && StateEntriesValid(tables.state)
    && EachWrites(endpoints, naming, tables.outputs) && NamesDiffer(naming, tables.outputs)
    && EachAsks(pending, naming, tables.timers, now)
  }

  /** The patch holds the value of each entry under its key, and no other key. */
  ghost predicate ReadsBack(patch: State, entries: Entries) {
    && |patch| == |entries|
    && forall i :: 0 <= i < |entries| ==> entries[i].0.LuaString? && entries[i].0.s in patch && ReadBack(patch[entries[i].0.s]) == entries[i].1
  }

  /** The transition says what the tables say, and no more. */
  ghost predicate Says(endpoints: seq<Endpoint>, naming: Naming, tables: Tables, pending: Timers, now: MonotonicMs, t: Transition) {
    && ReadsBack(t.state, tables.state)
    && |t.outputs| == |tables.outputs| && OutputsTyped(endpoints, t.outputs)
    && (forall output :: output in t.outputs <==> exists i :: 0 <= i < |tables.outputs| && Writes(endpoints, naming, tables.outputs[i], output))
    && AsksFor(pending, naming, tables.timers, t.timers, now)
  }

  /** The budgets of one execution, and those of the block it is committed to. */
  ghost predicate Affordable(limits: Limits, state: State, pending: Timers, now: MonotonicMs, t: Transition) {
    && |t.state| <= limits.maxStatePatchEntriesPerExecution
    && |t.outputs| <= limits.maxOutputEffectsPerExecution
    && |t.timers| <= limits.maxTimerEffectsPerExecution
    && |t.state| + |t.outputs| + |t.timers| <= limits.maxCombinedEffectsPerExecution
    && StateWithin(state + t.state, limits)
    && |ApplyEffects(pending, t.timers, now, 0)| <= limits.maxPendingTimersPerBlock
  }

  lemma {:induction false} StateMeans(entries: Entries)
    ensures TakeStates(map[], entries).Some? ==> ReadsBack(TakeStates(map[], entries).value, entries)
  {
    StatePatchIs(entries);
    if TakeStates(map[], entries).Some? {
      PatchCount(map[], entries);
      var patch := TakeStates(map[], entries).value;
      forall i | 0 <= i < |entries| ensures ReadBack(patch[entries[i].0.s]) == entries[i].1 {
        StateValueMeans(entries[i].0.s, entries[i].1, patch[entries[i].0.s]);
      }
    }
  }

  /** What the tables convert to, before any budget. */
  ghost function Unlimited(endpoints: seq<Endpoint>, naming: Naming, tables: Tables, pending: Timers, now: MonotonicMs): Option<Transition> {
    var patch := TakeStates(map[], tables.state);
    var outputs := ConvertedOutputs(endpoints, naming, Some(tables.outputs));
    var timers := TakeTimers(pending, naming, tables.timers, [], now);
    if patch.None? || outputs.None? || timers.None? then None else Some(Transition(patch.value, outputs.value, timers.value))
  }

  lemma {:induction false} UnlimitedMeans(endpoints: seq<Endpoint>, naming: Naming, tables: Tables, pending: Timers, now: MonotonicMs)
    ensures var t := Unlimited(endpoints, naming, tables, pending, now);
            && (t.Some? <==> TablesValid(endpoints, naming, tables, pending, now))
            && (t.Some? ==> Says(endpoints, naming, tables, pending, now, t.value))
  {
    hide TakeStates, ConvertedOutputs, TakeTimers, StateEntriesValid, EachWrites, NamesDiffer, EachAsks, ReadsBack, AsksFor, Writes, OutputsTyped;
    StatePatchIs(tables.state);
    StateMeans(tables.state);
    OutputsMean(endpoints, naming, tables.outputs);
    if ConvertedOutputs(endpoints, naming, Some(tables.outputs)).Some? { OutputCount(endpoints, naming, tables.outputs); }
    TimersMean(pending, naming, tables.timers, now);
  }

  lemma {:induction false} AbsentOutputs(endpoints: seq<Endpoint>, naming: Naming)
    ensures ConvertedOutputs(endpoints, naming, Some([])) == Some([]) && ConvertedOutputs(endpoints, naming, None) == Some([])
  {
    NothingFills(endpoints, |endpoints|);
  }

  /** Converting the tables is converting them without budgets, and then asking
      for every budget. */
  lemma {:induction false} BudgetsLast(endpoints: seq<Endpoint>, naming: Naming, entries: Entries, state: State, pending: Timers, now: MonotonicMs, limits: Limits)
    requires TakeFields(Fields(None, None, None), entries).Some? && |pending| <= limits.maxPendingTimersPerBlock
    ensures var tables := TablesOf(TakeFields(Fields(None, None, None), entries).value);
            var t := Unlimited(endpoints, naming, tables, pending, now);
            Converted(endpoints, naming, LuaTable(entries), state, pending, now, limits)
            == if t.Some? && Affordable(limits, state, pending, now, t.value) then t else None
  {
    hide TakeStates, ConvertedOutputs, TakeTimers, TakeFields, StateWithin, ApplyEffects;
    AbsentOutputs(endpoints, naming);
    NoTimers(pending, naming, now);
  }

  lemma NoTimers(pending: Timers, naming: Naming, now: MonotonicMs)
    ensures TakeTimers(pending, naming, [], [], now) == Some([]) && ApplyEffects(pending, [], now, 0) == pending
  {
  }

  /** A handler result that is a table is accepted exactly if it has the known
      tables, every entry can be converted, and every budget is kept; the
      transition then says exactly what the tables say. No result is an empty
      transition, and anything else is rejected. */
  lemma {:induction false} ResultMeans(endpoints: seq<Endpoint>, naming: Naming, result: Lua, state: State, pending: Timers, now: MonotonicMs, limits: Limits, fields: Fields)
    requires |pending| <= limits.maxPendingTimersPerBlock
    requires result.LuaTable? ==> FieldsOf(result.entries, fields)
    ensures var r := Converted(endpoints, naming, result, state, pending, now, limits);
            && (result.LuaNil? ==> r == Some(Transition(map[], [], [])))
            && (!result.LuaNil? && !result.LuaTable? ==> r.None?)
            && (result.LuaTable? && (!FieldsValid(result.entries) || !TablesValid(endpoints, naming, TablesOf(fields), pending, now)) ==> r.None?)
            && (result.LuaTable? && FieldsValid(result.entries) && TablesValid(endpoints, naming, TablesOf(fields), pending, now) ==>
                  exists t :: Says(endpoints, naming, TablesOf(fields), pending, now, t)
                              && r == if Affordable(limits, state, pending, now, t) then Some(t) else None)
  {
    hide FieldsValid, FieldsOf, TakeFields, TablesValid, Says, Affordable, Unlimited;
    if result.LuaTable? {
      FieldsMean(result.entries);
      var taken := TakeFields(Fields(None, None, None), result.entries);
      if taken.Some? {
        FieldsUnique(result.entries, taken.value, fields);
        BudgetsLast(endpoints, naming, result.entries, state, pending, now, limits);
        UnlimitedMeans(endpoints, naming, TablesOf(fields), pending, now);
        var t := Unlimited(endpoints, naming, TablesOf(fields), pending, now);
        if t.Some? { assert Says(endpoints, naming, TablesOf(fields), pending, now, t.value); }
      }
    }
  }

  lemma FieldsUnique(entries: Entries, a: Fields, b: Fields)
    requires FieldsValid(entries) && FieldsOf(entries, a) && FieldsOf(entries, b)
    ensures a == b
  {
    OneUnder(entries, "state", a.state, b.state);
    OneUnder(entries, "outputs", a.outputs, b.outputs);
    OneUnder(entries, "timers", a.timers, b.timers);
  }

  lemma OneUnder(entries: Entries, key: seq<char>, a: Option<Entries>, b: Option<Entries>)
    requires DistinctKeys(entries) && Under(entries, key, a) && Under(entries, key, b)
    ensures a == b
  {
    if a.Some? && b.Some? {
      var i :| 0 <= i < |entries| && entries[i] == (LuaString(key), LuaTable(a.value));
      var j :| 0 <= j < |entries| && entries[j] == (LuaString(key), LuaTable(b.value));
      assert entries[i].0 == entries[j].0;
    }
  }
}
