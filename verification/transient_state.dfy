/** The transient state and named timers a handler keeps between calls. */
module TransientState {
  import opened Values

  const MAX_STATE_KEY_BYTES: nat := 64
  const MAX_STATE_STRING_BYTES: nat := 1024

  /** Numbers are finite: non-finite results never become state. */
  datatype StateValue = BoolState(b: bool) | IntegerState(i: int) | NumberState(n: real) | StringState(s: seq<char>)

  type State = map<seq<char>, StateValue>

  datatype PendingTimer = PendingTimer(name: TimerName, scheduledAt: MonotonicMs, dueAt: MonotonicMs, revision: LogicRevision)

  type Timers = map<TimerName, PendingTimer>

  datatype TimerAction =
    | Scheduled(afterMs: nat, dueAt: MonotonicMs)
    | Replaced(previousDueAt: MonotonicMs, afterMs: nat, dueAt: MonotonicMs)
    | Cancelled(previousDueAt: MonotonicMs)
    | CancelNoop

  datatype TimerEffect = TimerEffect(name: TimerName, action: TimerAction)

  datatype StateError = TooManyEntries(actual: nat, maximum: nat) | InvalidEntry | TotalTooLarge(actual: nat, maximum: nat)

  // ----- state ------------------------------------------------------------------

  predicate ValidEntry(key: seq<char>, value: StateValue) {
    0 < |key| <= MAX_STATE_KEY_BYTES && (value.StringState? ==> |value.s| <= MAX_STATE_STRING_BYTES)
  }

  function EntryBytes(key: seq<char>, value: StateValue): nat {
    |key| + if value.StringState? then |value.s| else 0
  }

  ghost function BytesOf(state: State, keys: set<seq<char>>): nat
    requires keys <= state.Keys
  {
    if keys == {} then 0
    else
      var k :| k in keys;
      EntryBytes(k, state[k]) + BytesOf(state, keys - {k})
  }

  /** The sum does not depend on the order keys are taken in. */
  lemma {:induction false} BytesRemove(state: State, keys: set<seq<char>>, k: seq<char>)
    requires keys <= state.Keys && k in keys
    ensures BytesOf(state, keys) == EntryBytes(k, state[k]) + BytesOf(state, keys - {k})
    decreases |keys|
  {
    var first :| first in keys && BytesOf(state, keys) == EntryBytes(first, state[first]) + BytesOf(state, keys - {first});
    if first != k {
      BytesRemove(state, keys - {first}, k);
      BytesRemove(state, keys - {k}, first);
      assert keys - {first} - {k} == keys - {k} - {first};
    }
  }

  ghost function TotalBytes(state: State): nat { BytesOf(state, state.Keys) }

  ghost predicate StateWithin(state: State, limits: Limits) {
    && |state| <= limits.maxStateEntriesPerBlock
    && (forall k :: k in state ==> ValidEntry(k, state[k]))
    && TotalBytes(state) <= limits.maxStateBytesPerBlock
  }

  method StateBytes(state: State) returns (total: nat)
    ensures total == TotalBytes(state)
  {
    total := 0;
    var rest := state.Keys;
    while rest != {}
      invariant rest <= state.Keys && total + BytesOf(state, rest) == TotalBytes(state)
      decreases rest
    {
      var k :| k in rest;
      BytesRemove(state, rest, k);
      total := total + EntryBytes(k, state[k]);
      rest := rest - {k};
    }
  }

  method ValidateState(state: State, limits: Limits) returns (error: Option<StateError>)
    ensures error.None? <==> StateWithin(state, limits)
  {
    if |state| > limits.maxStateEntriesPerBlock {
      return Some(TooManyEntries(|state|, limits.maxStateEntriesPerBlock));
    }
    var rest := state.Keys;
    while rest != {}
      invariant rest <= state.Keys
      invariant forall k :: k in state && k !in rest ==> ValidEntry(k, state[k])
      decreases rest
    {
      var k :| k in rest;
      if !ValidEntry(k, state[k]) { return Some(InvalidEntry); }
      rest := rest - {k};
    }
    var total := StateBytes(state);
    if total > limits.maxStateBytesPerBlock { return Some(TotalTooLarge(total, limits.maxStateBytesPerBlock)); }
    error := None;
  }

  method MergeState(current: State, patch: State, limits: Limits) returns (r: Result<State, StateError>)
    ensures r.Ok? <==> StateWithin(current + patch, limits)
    ensures r.Ok? ==> r.value == current + patch
  {
    var merged := Overlay(current, patch);
    var error := ValidateState(merged, limits);
    r := if error.None? then Ok(merged) else Err(error.value);
  }

  /** Inserts every entry of `patch` into a copy of `current`. */
  method Overlay(current: State, patch: State) returns (merged: State)
    ensures merged == current + patch
  {
    merged := current;
    var rest := patch.Keys;
    while rest != {}
      invariant rest <= patch.Keys
      invariant merged + patch == current + patch
      invariant patch.Keys - rest <= merged.Keys && forall k :: k in patch.Keys - rest ==> merged[k] == patch[k]
      decreases rest
    {
      var k :| k in rest;
      merged := merged[k := patch[k]];
      rest := rest - {k};
    }
    assert merged + patch == merged;
  }

  // ----- timers -----------------------------------------------------------------

  function ApplyEffect(pending: Timers, effect: TimerEffect, now: MonotonicMs, revision: LogicRevision): Timers {
    match effect.action
    case Scheduled(_, due) => pending[effect.name := PendingTimer(effect.name, now, due, revision)]
    case Replaced(_, _, due) => pending[effect.name := PendingTimer(effect.name, now, due, revision)]
    case Cancelled(_) => pending - {effect.name}
    case CancelNoop => pending - {effect.name}
  }

  ghost function ApplyEffects(pending: Timers, effects: seq<TimerEffect>, now: MonotonicMs, revision: LogicRevision): Timers
    decreases |effects|
  {
    if |effects| == 0 then pending
    else ApplyEffects(ApplyEffect(pending, effects[0], now, revision), effects[1..], now, revision)
  }

  method ApplyTimerEffects(pending: Timers, effects: seq<TimerEffect>, now: MonotonicMs, revision: LogicRevision)
    returns (candidate: Timers)
    ensures candidate == ApplyEffects(pending, effects, now, revision)
  {
    candidate := pending;
    var i := 0;
    while i < |effects|
      invariant 0 <= i <= |effects|
      invariant ApplyEffects(candidate, effects[i..], now, revision) == ApplyEffects(pending, effects, now, revision)
    {
      assert effects[i..][1..] == effects[i + 1..];
      candidate := ApplyEffect(candidate, effects[i], now, revision);
      i := i + 1;
    }
  }

  /** Every deadline an effect sets lies strictly after `now`. */
  ghost predicate DueLater(effects: seq<TimerEffect>, now: MonotonicMs) {
    forall e :: e in effects ==>
      match e.action
      case Scheduled(after, due) => due == now + after && after > 0
      case Replaced(_, after, due) => due == now + after && after > 0
      case Cancelled(_) => true
      case CancelNoop => true
  }

  /** Each timer is stored under its own name and carries `revision`. */
  ghost predicate TimersOf(timers: Timers, revision: LogicRevision) {
    forall n :: n in timers ==> timers[n].name == n && timers[n].revision == revision
  }

  /** Effects leave a timer alone or arm it strictly later than `now`. */
  lemma {:induction false} EffectsArmLater(pending: Timers, effects: seq<TimerEffect>, now: MonotonicMs, revision: LogicRevision)
    requires DueLater(effects, now) && TimersOf(pending, revision)
    ensures var after := ApplyEffects(pending, effects, now, revision);
            && TimersOf(after, revision)
            && forall n :: n in after ==> (n in pending && after[n] == pending[n]) || after[n].dueAt > now
    decreases |effects|
  {
    if effects != [] {
      EffectsArmLater(ApplyEffect(pending, effects[0], now, revision), effects[1..], now, revision);
    }
  }

  /** `i` is the last effect on timer `n`. */
  ghost predicate IsLast(effects: seq<TimerEffect>, n: TimerName, i: nat) {
    i < |effects| && effects[i].name == n && forall j :: i < j < |effects| ==> effects[j].name != n
  }

  ghost predicate Untouched(effects: seq<TimerEffect>, n: TimerName) { forall e :: e in effects ==> e.name != n }

  /** A timer without an effect stays as it was. */
  lemma {:induction false} UntouchedStays(pending: Timers, effects: seq<TimerEffect>, now: MonotonicMs, revision: LogicRevision, n: TimerName)
    requires Untouched(effects, n)
    ensures var after := ApplyEffects(pending, effects, now, revision);
            (n in after <==> n in pending) && (n in after ==> after[n] == pending[n])
    decreases |effects|
  {
    if effects != [] {
      assert effects[0] in effects;
      UntouchedStays(ApplyEffect(pending, effects[0], now, revision), effects[1..], now, revision, n);
    }
  }

  /** Timer `n` is as `action` says: gone, or armed anew with its deadline. */
  ghost predicate Obeys(timers: Timers, n: TimerName, action: TimerAction, now: MonotonicMs, revision: LogicRevision) {
    match action
    case Scheduled(_, due) => n in timers && timers[n] == PendingTimer(n, now, due, revision)
    case Replaced(_, _, due) => n in timers && timers[n] == PendingTimer(n, now, due, revision)
    case Cancelled(_) => n !in timers
    case CancelNoop => n !in timers
  }

  /** The last effect on a timer decides. */
  lemma {:induction false} LastEffectDecides(pending: Timers, effects: seq<TimerEffect>, now: MonotonicMs, revision: LogicRevision, n: TimerName, i: nat)
    requires IsLast(effects, n, i)
    ensures Obeys(ApplyEffects(pending, effects, now, revision), n, effects[i].action, now, revision)
    decreases |effects|
  {
    var next, rest := ApplyEffect(pending, effects[0], now, revision), effects[1..];
    if i == 0 {
      forall e | e in rest ensures e.name != n {
        var j :| 0 <= j < |rest| && rest[j] == e;
        assert effects[j + 1] == e;
      }
      UntouchedStays(next, rest, now, revision, n);
    } else {
      assert forall j :: 0 <= j < |rest| ==> rest[j] == effects[j + 1];
      LastEffectDecides(next, rest, now, revision, n, i - 1);
    }
  }

  /** Which timers exist afterwards does not depend on the revision they carry. */
  lemma {:induction false} EffectKeys(a: Timers, b: Timers, effects: seq<TimerEffect>, now: MonotonicMs, ra: LogicRevision, rb: LogicRevision)
    requires a.Keys == b.Keys
    ensures ApplyEffects(a, effects, now, ra).Keys == ApplyEffects(b, effects, now, rb).Keys
    decreases |effects|
  {
    if effects != [] {
      EffectKeys(ApplyEffect(a, effects[0], now, ra), ApplyEffect(b, effects[0], now, rb), effects[1..], now, ra, rb);
    }
  }
}
