/** Draining due timers at one instant: it ends, and timers fire in order. */
module TimerDrain {
  import opened Values
  import opened SignalGraph
  import opened Configuration
  import opened TransientState
  import opened LuaConversion
  import opened Engines
  import opened LogicBlocks
  import opened ScheduleCursors
  import opened Cascades
  import opened CascadeOrder
  import opened PlanFacts
  import opened CascadeSafety
  import opened RuntimeEvents
  import opened RuntimeSafety

  /** Timer `n` of block `c` is due, whether or not its block may run. */
  ghost predicate IsDue(s: RuntimeState, now: MonotonicMs, c: nat, n: TimerName) {
    c < |s.blocks| && n in s.blocks[c].engine.timers && s.blocks[c].engine.timers[n].dueAt <= now
  }

  /** The keys of every due timer. */
  ghost function DueKeys(p: Plan, s: RuntimeState, now: MonotonicMs): set<TimerKey>
    requires Shaped(p, s)
  {
    set c, n | 0 <= c < |s.blocks| && n in s.blocks[c].engine.timers.Keys && IsDue(s, now, c, n) :: KeyOf(p, s, c, n)
  }

  lemma DueKeyAt(p: Plan, s: RuntimeState, now: MonotonicMs, k: TimerKey) returns (c: nat, n: TimerName)
    requires Shaped(p, s) && k in DueKeys(p, s, now)
    ensures IsDue(s, now, c, n) && k == KeyOf(p, s, c, n)
  {
    c, n :| 0 <= c < |s.blocks| && n in s.blocks[c].engine.timers.Keys && IsDue(s, now, c, n) && k == KeyOf(p, s, c, n);
  }

  lemma DueKeyOf(p: Plan, s: RuntimeState, now: MonotonicMs, c: nat, n: TimerName)
    requires Shaped(p, s) && IsDue(s, now, c, n)
    ensures KeyOf(p, s, c, n) in DueKeys(p, s, now)
  {
  }

  /** Only blocks that may run have timers, so every due timer can fire. */
  lemma DueCanFire(p: Plan, s: RuntimeState, now: MonotonicMs, c: nat, n: TimerName)
    requires Inv(p, s)
    ensures IsDue(s, now, c, n) <==> CanFire(s, now, c, n)
  {
    if IsDue(s, now, c, n) { BlockAtInv(p, s, c); }
  }

  // ----- the first due timer ----------------------------------------------------------------------

  lemma {:induction false} LeastKey(keys: set<TimerKey>) returns (k: TimerKey)
    requires keys != {}
    ensures k in keys && forall other :: other in keys && other != k ==> KeyBefore(k, other)
    decreases keys
  {
    var first :| first in keys;
    if keys == {first} {
      k := first;
    } else {
      var rest := LeastKey(keys - {first});
      k := if KeyBefore(first, rest) then first else rest;
      forall other | other in keys && other != k ensures KeyBefore(k, other) {
        assert other == first || other in keys - {first};
      }
    }
  }

  /** The runtime finds the least due key. */
  lemma FirstIsLeast(p: Plan, s: RuntimeState, now: MonotonicMs) returns (c: nat, n: TimerName)
    requires Inv(p, s) && DistinctBlocks(p.config.blocks) && DueKeys(p, s, now) != {}
    ensures FirstBlock(p, s, now) == Some(c) && IsFirst(p, s, now, c, n)
    ensures IsDue(s, now, c, n) && forall k :: k in DueKeys(p, s, now) && k != KeyOf(p, s, c, n) ==> KeyBefore(KeyOf(p, s, c, n), k)
  {
    hide BlocksOk, SignalsOk, DueKeys;
    var k := LeastKey(DueKeys(p, s, now));
    c, n := DueKeyAt(p, s, now, k);
    DueCanFire(p, s, now, c, n);
    forall d: nat, m: TimerName | CanFire(s, now, d, m) ensures (d == c && m == n) || KeyBefore(k, KeyOf(p, s, d, m)) {
      DueCanFire(p, s, now, d, m);
      DueKeyOf(p, s, now, d, m);
      if KeyOf(p, s, d, m) == k { assert p.config.blocks[d].id == p.config.blocks[c].id; }
    }
    FirstBlockIs(p, s, now, c, n);
  }

  /** No due timer has an earlier deadline; of those with the same none is in a
      block before, and of those none has a name before. */
  lemma FirstInOrder(p: Plan, s: RuntimeState, now: MonotonicMs, c: nat, n: TimerName, d: nat, m: TimerName)
    requires Inv(p, s) && DistinctBlocks(p.config.blocks) && IsFirst(p, s, now, c, n) && IsDue(s, now, d, m)
    ensures var due, other := s.blocks[c].engine.timers[n].dueAt, s.blocks[d].engine.timers[m].dueAt;
            && due <= other
            && (due == other ==> p.config.blocks[c].id <= p.config.blocks[d].id)
            && (due == other && c == d ==> n <= m)
  {
    DueCanFire(p, s, now, d, m);
  }

  /** The engine's own selection is the timer the runtime selected. */
  lemma EnginePicksTheSame(p: Plan, s: RuntimeState, now: MonotonicMs, c: nat, n: TimerName)
    requires Inv(p, s) && IsFirst(p, s, now, c, n)
    ensures NextDue(s.blocks[c].engine.timers, now) == Some(n)
  {
    hide SignalsOk;
    BlockAtInv(p, s, c);
    var timers := s.blocks[c].engine.timers;
    forall m | m in timers && timers[m].dueAt <= now ensures Sooner(timers[n], timers[m]) {
      assert CanFire(s, now, c, m);
      assert m == n || KeyBefore(KeyOf(p, s, c, n), KeyOf(p, s, c, m));
    }
    NextDueUnique(timers, s.blocks[c].engine.logic.revision, now, n);
  }

  // ----- one event ----------------------------------------------------------------------------------

  /** No due timer appears; timer `n` of block `c` is gone. */
  ghost predicate Consumes(s: RuntimeState, t: RuntimeState, now: MonotonicMs, c: nat, n: TimerName) {
    && |t.blocks| == |s.blocks|
    && !IsDue(t, now, c, n)
    && forall d: nat, m: TimerName :: IsDue(t, now, d, m) ==> IsDue(s, now, d, m) && t.blocks[d].engine.timers[m] == s.blocks[d].engine.timers[m]
  }

  /** The root names the timer it fired. */
  predicate FiresTimer(x: BlockExecution, key: TimerKey) {
    x.block == key.block && x.execution.trigger.ByTimer? && x.execution.trigger.timer.name == key.name && x.execution.trigger.timer.dueAt == key.due
  }

  /** The timer the engine consumes and what it then arms. */
  lemma TimerStepConsumes(host: Host, endpoints: seq<Endpoint>, e: EngineState, n: TimerName, now: MonotonicMs, utc: Option<int>)
    requires EngineInv(host.limits, endpoints, e) && NotAfter(e.lastAcceptedAt, Some(now)) && NextDue(e.timers, now) == Some(n)
    ensures var step := ProcessTimer(host, endpoints, e, now, utc);
            && step.result.Ok? && step.result.value.Some?
            && step.result.value.value.trigger.ByTimer? && step.result.value.value.trigger.timer.name == n
            && step.result.value.value.trigger.timer.dueAt == e.timers[n].dueAt
            && forall m :: m in step.engine.timers && step.engine.timers[m].dueAt <= now ==>
                 m != n && m in e.timers && step.engine.timers[m] == e.timers[m]
  {
    hide ExecuteLogic, StateWithin, InputsOk;
    TimerKeepsInv(host, endpoints, e, now, utc);
  }

  lemma FireConsumes(p: Plan, s: RuntimeState, c: nat, n: TimerName, now: MonotonicMs, utc: Option<int>)
    requires FullInv(p, s) && !Earlier(s, now) && IsFirst(p, s, now, c, n)
    ensures var root := FireBlock(p, s, c, now, utc);
            && Consumes(s, root.s, now, c, n) && root.result.Ok?
            && (root.result.value.Some? ==> FiresTimer(root.result.value.value, KeyOf(p, s, c, n)))
  {
    hide ProcessTimer, EngineInv, WindowOk, SignalOk, StateTotal, TimersTotal, TimersOf;
    EnginePicksTheSame(p, s, now, c, n);
    ClockAdvances(p, s, now);
    BlockAtInv(p, At(s, now), c);
    TimerStepConsumes(p.host, p.config.blocks[c].endpoints, s.blocks[c].engine, n, now, utc);
  }

  /** One successful timer event at `now`, from a state where some timer is due:
      the first due timer is consumed, and no due timer appears. */
  lemma EventConsumes(p: Plan, rank: BlockId -> nat, s: RuntimeState, now: MonotonicMs, utc: Option<int>) returns (c: nat, n: TimerName)
    requires SoundPlan(p, rank) && FullInv(p, s) && DueKeys(p, s, now) != {} && TimerEvent(p, s, now, utc).result.Ok?
    ensures IsDue(s, now, c, n) && forall k :: k in DueKeys(p, s, now) && k != KeyOf(p, s, c, n) ==> KeyBefore(KeyOf(p, s, c, n), k)
    ensures var r := TimerEvent(p, s, now, utc);
            && Consumes(s, r.s, now, c, n)
            && (r.result.value != [] ==> FiresTimer(r.result.value[0], KeyOf(p, s, c, n)))
  {
    hide FireBlock, BlocksOk, SignalsOk, CascadesWithin, Ranks, DueKeys, Propagate, UsageError, IsFirst, KeyBefore, ExecutionOk, StateTotal, TimersTotal;
    c, n := FirstIsLeast(p, s, now);
    RootsAreKnown(p, s);
    TimerRootSafe(p, s, now, utc);
    var root := TimerRoot(p, s, now, utc);
    assert !Earlier(s, now);
    FireConsumes(p, s, c, n, now, utc);
    if root.result.value.Some? {
      var x := root.result.value.value;
      RootCompletes(p, rank, s, root.s, x, now, utc);
      assert [x][0] == x;
      PropagateOrder(p, root.s, [x], 0, now, utc);
      CascadeConsumes(p, rank, s, root.s, x, c, n, now, utc);
    }
  }

  /** A cascade arms nothing that is due. */
  lemma CascadeConsumes(p: Plan, rank: BlockId -> nat, checkpoint: RuntimeState, s: RuntimeState, x: BlockExecution, c: nat, n: TimerName, now: MonotonicMs, utc: Option<int>)
    requires SoundPlan(p, rank) && Inv(p, s) && s.lastAcceptedAt == Some(now) && ExecOk(p, x) && Consumes(checkpoint, s, now, c, n)
    ensures Consumes(checkpoint, Propagate(p, s, [x], 0, now, utc).s, now, c, n)
  {
    hide BlocksOk, SignalsOk, CascadesWithin, Ranks, Propagate, ExecutionOk, ValidPlan;
    assert Evolves(p, s, s, now);
    RootCompletes(p, rank, s, s, x, now, utc);
    var t := Propagate(p, s, [x], 0, now, utc).s;
    forall d: nat, m: TimerName | IsDue(t, now, d, m) ensures IsDue(s, now, d, m) && t.blocks[d].engine.timers[m] == s.blocks[d].engine.timers[m] {
      assert BlockEvolves(s.blocks[d], t.blocks[d], now);
    }
  }

  /** In terms of keys: the least one is gone, and nothing joins. */
  lemma KeysShrink(p: Plan, s: RuntimeState, t: RuntimeState, now: MonotonicMs, c: nat, n: TimerName)
    requires Shaped(p, s) && Shaped(p, t) && DistinctBlocks(p.config.blocks) && IsDue(s, now, c, n) && Consumes(s, t, now, c, n)
    ensures DueKeys(p, t, now) <= DueKeys(p, s, now) - {KeyOf(p, s, c, n)} && KeyOf(p, s, c, n) in DueKeys(p, s, now)
  {
    DueKeyOf(p, s, now, c, n);
    forall k | k in DueKeys(p, t, now) ensures k in DueKeys(p, s, now) - {KeyOf(p, s, c, n)} {
      var d, m := DueKeyAt(p, t, now, k);
      DueKeyOf(p, s, now, d, m);
    }
  }

  // ----- the whole drain ------------------------------------------------------------------------------

  /** Timer events at one instant, each answering `Ok`. */
  ghost predicate IsDrain(p: Plan, now: MonotonicMs, utcs: seq<Option<int>>, states: seq<RuntimeState>) {
    && DistinctBlocks(p.config.blocks) && |states| == |utcs| + 1
    && forall i :: 0 <= i < |utcs| ==>
         Shaped(p, states[i]) && TimerEvent(p, states[i], now, utcs[i]).result.Ok? && states[i + 1] == TimerEvent(p, states[i], now, utcs[i]).s
  }

  /** What event `i` of a drain executed first. */
  ghost function Executed(p: Plan, now: MonotonicMs, utcs: seq<Option<int>>, states: seq<RuntimeState>, i: nat): seq<BlockExecution>
    requires IsDrain(p, now, utcs, states) && i < |utcs|
  {
    TimerEvent(p, states[i], now, utcs[i]).result.value
  }

  lemma DrainStep(p: Plan, rank: BlockId -> nat, now: MonotonicMs, utcs: seq<Option<int>>, states: seq<RuntimeState>, i: nat)
    returns (k: Option<TimerKey>)
    requires SoundPlan(p, rank) && IsDrain(p, now, utcs, states) && i < |utcs| && FullInv(p, states[i])
    ensures FullInv(p, states[i + 1])
    ensures k.None? <==> DueKeys(p, states[i], now) == {}
    ensures k.None? ==> DueKeys(p, states[i + 1], now) == {} && Executed(p, now, utcs, states, i) == []
    ensures k.Some? ==> && k.value in DueKeys(p, states[i], now) && DueKeys(p, states[i + 1], now) <= DueKeys(p, states[i], now) - {k.value}
                        && (forall other :: other in DueKeys(p, states[i + 1], now) ==> KeyBefore(k.value, other))
                        && (Executed(p, now, utcs, states, i) != [] ==> FiresTimer(Executed(p, now, utcs, states, i)[0], k.value))
  {
    hide BlocksOk, SignalsOk, CascadesWithin, Ranks, DueKeys, TimerEvent, KeyBefore, FiresTimer, StateTotal, TimersTotal;
    var s := states[i];
    TimerEventSafe(p, rank, s, now, utcs[i]);
    if DueKeys(p, s, now) == {} {
      k := None;
      NothingDue(p, s, now, utcs[i]);
    } else {
      var c, n := EventConsumes(p, rank, s, now, utcs[i]);
      k := Some(KeyOf(p, s, c, n));
      KeysShrink(p, s, states[i + 1], now, c, n);
    }
  }

  lemma NothingDue(p: Plan, s: RuntimeState, now: MonotonicMs, utc: Option<int>)
    requires FullInv(p, s) && DistinctBlocks(p.config.blocks) && DueKeys(p, s, now) == {} && TimerEvent(p, s, now, utc).result.Ok?
    ensures TimerEvent(p, s, now, utc).result.value == [] && DueKeys(p, TimerEvent(p, s, now, utc).s, now) == {}
  {
    hide FireBlock, BlocksOk, SignalsOk, Propagate, UsageError;
    RootsAreKnown(p, s);
    if FirstBlock(p, s, now).Some? {
      var n :| IsFirst(p, s, now, FirstBlock(p, s, now).value, n);
      DueCanFire(p, s, now, FirstBlock(p, s, now).value, n);
      DueKeyOf(p, s, now, FirstBlock(p, s, now).value, n);
      assert false;
    }
    var t := TimerEvent(p, s, now, utc).s;
    assert t.blocks == s.blocks;
    forall k | k in DueKeys(p, t, now) ensures false {
      var c, n := DueKeyAt(p, t, now, k);
      DueKeyOf(p, s, now, c, n);
    }
  }

  /** Draining ends within the number of timers due at the start. */
  lemma {:induction false} DrainEnds(p: Plan, rank: BlockId -> nat, now: MonotonicMs, utcs: seq<Option<int>>, states: seq<RuntimeState>, n: nat)
    requires SoundPlan(p, rank) && IsDrain(p, now, utcs, states) && n < |states| && FullInv(p, states[0])
    ensures FullInv(p, states[n]) && DueKeys(p, states[n], now) <= DueKeys(p, states[0], now)
    ensures DueKeys(p, states[n], now) == {} || |DueKeys(p, states[n], now)| + n <= |DueKeys(p, states[0], now)|
  {
    hide SoundPlan, FullInv, DueKeys, TimerEvent;
    if n > 0 {
      DrainEnds(p, rank, now, utcs, states, n - 1);
      var k := DrainStep(p, rank, now, utcs, states, n - 1);
      if k.Some? { SubsetSize(DueKeys(p, states[n], now), DueKeys(p, states[n - 1], now) - {k.value}); }
    }
  }

  lemma {:induction false} DueKeysOnlyLeave(p: Plan, rank: BlockId -> nat, now: MonotonicMs, utcs: seq<Option<int>>, states: seq<RuntimeState>, i: nat, j: nat)
    requires SoundPlan(p, rank) && IsDrain(p, now, utcs, states) && i <= j < |states| && FullInv(p, states[0])
    ensures FullInv(p, states[i]) && FullInv(p, states[j]) && DueKeys(p, states[j], now) <= DueKeys(p, states[i], now)
    decreases j
  {
    hide SoundPlan, FullInv, DueKeys, TimerEvent;
    DrainEnds(p, rank, now, utcs, states, i);
    DrainEnds(p, rank, now, utcs, states, j);
    if i < j {
      DueKeysOnlyLeave(p, rank, now, utcs, states, i, j - 1);
      var _ := DrainStep(p, rank, now, utcs, states, j - 1);
    }
  }

  /** Timers fire in strictly increasing `(deadline, block, name)` order. */
  lemma DrainFiresInOrder(p: Plan, rank: BlockId -> nat, now: MonotonicMs, utcs: seq<Option<int>>, states: seq<RuntimeState>, i: nat, j: nat)
    requires SoundPlan(p, rank) && IsDrain(p, now, utcs, states) && i < j < |utcs| && FullInv(p, states[0])
    requires Executed(p, now, utcs, states, i) != [] && Executed(p, now, utcs, states, j) != []
    ensures exists a, b :: FiresTimer(Executed(p, now, utcs, states, i)[0], a) && FiresTimer(Executed(p, now, utcs, states, j)[0], b) && KeyBefore(a, b)
  {
    hide SoundPlan, FullInv, DueKeys, TimerEvent, KeyBefore;
    DueKeysOnlyLeave(p, rank, now, utcs, states, i, i);
    DueKeysOnlyLeave(p, rank, now, utcs, states, i + 1, j);
    var a := DrainStep(p, rank, now, utcs, states, i);
    var b := DrainStep(p, rank, now, utcs, states, j);
    assert KeyBefore(a.value, b.value);
  }

  // ----- the next deadline ------------------------------------------------------------------------------

  /** Timer `n` of block `c` counts towards the deadline: its block is enabled. */
  ghost predicate Awaited(s: RuntimeState, c: nat, n: TimerName) {
    c < |s.blocks| && s.blocks[c].enabled && n in s.blocks[c].engine.timers
  }

  /** Some awaited timer is due at `d`. */
  ghost predicate AwaitedAt(s: RuntimeState, d: MonotonicMs) {
    exists c: nat, n: TimerName :: Awaited(s, c, n) && s.blocks[c].engine.timers[n].dueAt == d
  }

  /** `d` is the earliest deadline of any timer of an enabled block. */
  ghost predicate IsDeadline(s: RuntimeState, d: Option<MonotonicMs>) {
    && (d.Some? ==> AwaitedAt(s, d.value))
    && forall c: nat, n: TimerName :: Awaited(s, c, n) ==> d.Some? && d.value <= s.blocks[c].engine.timers[n].dueAt
  }

  /** In a reachable state, a timer event finds a timer to fire exactly from the
      announced deadline on. */
  lemma DeadlineWakes(p: Plan, s: RuntimeState, now: MonotonicMs, d: Option<MonotonicMs>)
    requires Inv(p, s) && DistinctBlocks(p.config.blocks) && IsDeadline(s, d)
    ensures FirstBlock(p, s, now).Some? <==> d.Some? && d.value <= now
  {
    hide SignalsOk;
    if FirstBlock(p, s, now).Some? {
      var n :| IsFirst(p, s, now, FirstBlock(p, s, now).value, n);
      assert Awaited(s, FirstBlock(p, s, now).value, n);
    }
    if d.Some? && d.value <= now {
      var c: nat, n: TimerName :| Awaited(s, c, n) && s.blocks[c].engine.timers[n].dueAt == d.value;
      DueKeyOf(p, s, now, c, n);
      var _, _ := FirstIsLeast(p, s, now);
    }
  }
}
