/** What the global budgets measure: the program text, the state and the timers
    that all blocks of a runtime hold together. */
module Budgets {
  import opened Values
  import opened SignalGraph
  import opened Configuration
  import opened TransientState
  import opened LuaConversion
  import opened Engines
  import opened LogicBlocks
  import opened Cascades
  import opened PlanFacts
  import opened CascadeSafety
  import opened RuntimeEvents
  import opened RuntimeSafety
  import opened RuntimeRuns

  // ----- everything a runtime holds ----------------------------------------------------------

  /** The text of a state entry: its key, and its value if that is a string. */
  function EntryText(key: seq<char>, value: StateValue): seq<char> { key + if value.StringState? then value.s else "" }

  /** Every byte of program text, by block and place. */
  ghost function SourceHeld(blocks: seq<BlockState>): set<(nat, nat)> {
    set c, i | 0 <= c < |blocks| && 0 <= i < |blocks[c].engine.logic.source| :: (c, i)
  }

  /** Every byte of state, by block, entry and place. */
  ghost function StateHeld(blocks: seq<BlockState>): set<(nat, seq<char>, nat)> {
    set c, k, i | 0 <= c < |blocks| && k in blocks[c].engine.state.Keys && 0 <= i < |EntryText(k, blocks[c].engine.state[k])| :: (c, k, i)
  }

  /** Every pending timer, by block and name. */
  ghost function TimersHeld(blocks: seq<BlockState>): set<(nat, TimerName)> {
    set c, n | 0 <= c < |blocks| && n in blocks[c].engine.timers.Keys :: (c, n)
  }

  // ----- the totals count it -----------------------------------------------------------------------

  ghost function Places(c: nat, n: nat): set<(nat, nat)> { set i | 0 <= i < n :: (c, i) }

  lemma {:induction false} PlacesCount(c: nat, n: nat)
    ensures |Places(c, n)| == n
  {
    if n > 0 {
      PlacesCount(c, n - 1);
      assert Places(c, n) == Places(c, n - 1) + {(c, n - 1)};
    }
  }

  lemma {:induction false} SourceTotalCounts(blocks: seq<BlockState>)
    ensures SourceTotal(blocks) == |SourceHeld(blocks)|
    decreases |blocks|
  {
    if blocks != [] {
      var n := |blocks| - 1;
      SourceTotalCounts(blocks[..n]);
      PlacesCount(n, |blocks[n].engine.logic.source|);
      assert SourceHeld(blocks) == SourceHeld(blocks[..n]) + Places(n, |blocks[n].engine.logic.source|);
    }
  }

  /** The bytes of the entries `keys` of block `c`. */
  ghost function EntriesHeld(c: nat, state: State, keys: set<seq<char>>): set<(nat, seq<char>, nat)>
    requires keys <= state.Keys
  {
    set k, i | k in keys && 0 <= i < |EntryText(k, state[k])| :: (c, k, i)
  }

  ghost function EntryHeld(c: nat, k: seq<char>, n: nat): set<(nat, seq<char>, nat)> { set i | 0 <= i < n :: (c, k, i) }

  lemma {:induction false} EntryCounts(c: nat, k: seq<char>, n: nat)
    ensures |EntryHeld(c, k, n)| == n
  {
    if n > 0 {
      EntryCounts(c, k, n - 1);
      assert EntryHeld(c, k, n) == EntryHeld(c, k, n - 1) + {(c, k, n - 1)};
    }
  }

  lemma {:induction false} BytesCount(c: nat, state: State, keys: set<seq<char>>)
    requires keys <= state.Keys
    ensures BytesOf(state, keys) == |EntriesHeld(c, state, keys)|
    decreases keys
  {
    if keys == {} {
      assert EntriesHeld(c, state, keys) == {};
    } else {
      var k :| k in keys;
      BytesRemove(state, keys, k);
      BytesCount(c, state, keys - {k});
      EntryCounts(c, k, |EntryText(k, state[k])|);
      assert EntriesHeld(c, state, keys) == EntriesHeld(c, state, keys - {k}) + EntryHeld(c, k, |EntryText(k, state[k])|);
    }
  }

  lemma {:induction false} StateTotalCounts(blocks: seq<BlockState>)
    ensures StateTotal(blocks) == |StateHeld(blocks)|
    decreases |blocks|
  {
    if blocks != [] {
      var n := |blocks| - 1;
      var state := blocks[n].engine.state;
      StateTotalCounts(blocks[..n]);
      BytesCount(n, state, state.Keys);
      StateSplits(blocks);
      hide StateHeld, EntriesHeld;
      BothCount(StateHeld(blocks[..n]), EntriesHeld(n, state, state.Keys));
    }
  }

  lemma StateSplits(blocks: seq<BlockState>)
    requires blocks != []
    ensures var n := |blocks| - 1;
            var front, last := StateHeld(blocks[..n]), EntriesHeld(n, blocks[n].engine.state, blocks[n].engine.state.Keys);
            StateHeld(blocks) == front + last && front !! last
  {
    var n := |blocks| - 1;
    forall c: nat, k, i: nat
      ensures (c, k, i) in StateHeld(blocks[..n]) <==> c < n && (c, k, i) in StateHeld(blocks)
      ensures (c, k, i) in EntriesHeld(n, blocks[n].engine.state, blocks[n].engine.state.Keys) <==> c == n && (c, k, i) in StateHeld(blocks)
    {
    }
  }

  lemma BothCount<T>(a: set<T>, b: set<T>)
    requires a !! b
    ensures |a + b| == |a| + |b|
  {
  }

  ghost function NamesHeld(c: nat, names: set<TimerName>): set<(nat, TimerName)> { set n | n in names :: (c, n) }

  lemma {:induction false} NamesCount(c: nat, names: set<TimerName>)
    ensures |NamesHeld(c, names)| == |names|
  {
    if names != {} {
      var n :| n in names;
      NamesCount(c, names - {n});
      assert NamesHeld(c, names) == NamesHeld(c, names - {n}) + {(c, n)};
    }
  }

  lemma {:induction false} TimersTotalCounts(blocks: seq<BlockState>)
    ensures TimersTotal(blocks) == |TimersHeld(blocks)|
    decreases |blocks|
  {
    if blocks != [] {
      var n := |blocks| - 1;
      TimersTotalCounts(blocks[..n]);
      NamesCount(n, blocks[n].engine.timers.Keys);
      TimersSplit(blocks);
      hide TimersHeld, NamesHeld;
      BothCount(TimersHeld(blocks[..n]), NamesHeld(n, blocks[n].engine.timers.Keys));
    }
  }

  lemma TimersSplit(blocks: seq<BlockState>)
    requires blocks != []
    ensures var n := |blocks| - 1;
            var front, last := TimersHeld(blocks[..n]), NamesHeld(n, blocks[n].engine.timers.Keys);
            TimersHeld(blocks) == front + last && front !! last
  {
    var n := |blocks| - 1;
    forall c: nat, name: TimerName
      ensures (c, name) in TimersHeld(blocks[..n]) <==> c < n && (c, name) in TimersHeld(blocks)
      ensures (c, name) in NamesHeld(n, blocks[n].engine.timers.Keys) <==> c == n && (c, name) in TimersHeld(blocks)
    {
    }
  }

  /** Replacing one block moves each total by what that block gains or loses. */
  lemma {:induction false} ReplacingMovesTotals(blocks: seq<BlockState>, c: nat, b: BlockState)
    requires c < |blocks|
    ensures StateTotal(blocks[c := b]) == StateTotal(blocks) - TotalBytes(blocks[c].engine.state) + TotalBytes(b.engine.state)
    ensures TimersTotal(blocks[c := b]) == TimersTotal(blocks) - |blocks[c].engine.timers| + |b.engine.timers|
    decreases |blocks|
  {
    var n := |blocks| - 1;
    if c == n {
      assert blocks[c := b][..n] == blocks[..n];
    } else {
      ReplacingMovesTotals(blocks[..n], c, b);
      assert blocks[c := b][..n] == blocks[..n][c := b];
    }
  }

  // ----- what validation counts ----------------------------------------------------------------------

  /** Validation counts every configured byte of program text, and a fresh runtime
      holds exactly those. */
  lemma {:induction false} ConfiguredSource(blocks: seq<BlockConfig>, started: seq<BlockState>, n: nat)
    requires n <= |blocks| == |started| && forall c :: 0 <= c < |blocks| ==> started[c].engine.logic == blocks[c].logic
    ensures SourceBytes(blocks, n) == |SourceHeld(started[..n])|
  {
    if n > 0 {
      ConfiguredSource(blocks, started, n - 1);
      SourceTotalCounts(started[..n]);
      SourceTotalCounts(started[..n - 1]);
      assert started[..n][..n - 1] == started[..n - 1];
    }
  }

  lemma {:induction false} ConfiguredBindings(blocks: seq<BlockConfig>, n: nat)
    requires n <= |blocks|
    ensures BindingCount(blocks, n) == |AllBound(blocks, n)|
  {
    if n > 0 {
      ConfiguredBindings(blocks, n - 1);
      BoundCount(blocks[n - 1], |blocks[n - 1].bindings|);
    }
  }

  lemma {:induction false} BoundCount(b: BlockConfig, n: nat)
    requires n <= |b.bindings|
    ensures |BoundOf(b, n)| == n
  {
    if n > 0 { BoundCount(b, n - 1); }
  }

  /** A fresh runtime of an accepted configuration is within every budget, and the
      configuration has no more bindings than allowed. */
  lemma FreshWithinBudgets(p: Plan)
    requires Accepted(p.config, p.host.limits, p.sandbox)
    ensures WithinBudgets(p.host.limits, InitialState(p).blocks) && |Bindings(p.config.blocks)| <= p.host.limits.maxSignalBindings
  {
    hide SourceHeld, StateHeld, TimersHeld, SourceBytes, BindingCount, AllBound, StateTotal, TimersTotal, WellFormed, Acyclic, CascadesWithin;
    var blocks, started := p.config.blocks, InitialState(p).blocks;
    ConfiguredSource(blocks, started, |blocks|);
    assert started[..|blocks|] == started;
    ConfiguredBindings(blocks, |blocks|);
    InitialSafe(p);
    StateTotalCounts(started);
    TimersTotalCounts(started);
  }

  // ----- what the budgets decide ----------------------------------------------------------------------

  /** The first budget that what the blocks hold exceeds. */
  ghost function FirstExceeded(limits: Limits, blocks: seq<BlockState>): Option<RuntimeEventError> {
    if |SourceHeld(blocks)| > limits.maxLogicSourceBytesTotal then
      Some(ResourceLimit(LogicSource, |SourceHeld(blocks)|, limits.maxLogicSourceBytesTotal))
    else if |StateHeld(blocks)| > limits.maxStateBytesTotal then
      Some(ResourceLimit(StateData, |StateHeld(blocks)|, limits.maxStateBytesTotal))
    else if |TimersHeld(blocks)| > limits.maxPendingTimersTotal then
      Some(ResourceLimit(TimerCount, |TimersHeld(blocks)|, limits.maxPendingTimersTotal))
    else None
  }

  lemma UsageIsWhatIsHeld(limits: Limits, s: RuntimeState)
    ensures UsageError(limits, s) == FirstExceeded(limits, s.blocks)
  {
    SourceTotalCounts(s.blocks);
    StateTotalCounts(s.blocks);
    TimersTotalCounts(s.blocks);
  }

  ghost predicate WithinBudgets(limits: Limits, blocks: seq<BlockState>) {
    && |SourceHeld(blocks)| <= limits.maxLogicSourceBytesTotal
    && |StateHeld(blocks)| <= limits.maxStateBytesTotal
    && |TimersHeld(blocks)| <= limits.maxPendingTimersTotal
  }

  /** A cascade is committed exactly if what all blocks hold after it is within
      every budget; otherwise it is undone, and the answer names the first budget
      exceeded and by how much. */
  lemma BudgetsDecide(p: Plan, rank: BlockId -> nat, checkpoint: RuntimeState, s: RuntimeState, x: BlockExecution, now: MonotonicMs, utc: Option<int>)
    requires SoundPlan(p, rank) && FullInv(p, checkpoint) && Evolves(p, checkpoint, s, now) && ExecOk(p, x)
    ensures var o := Propagate(p, s, [x], 0, now, utc);
            var r := Follow(p, checkpoint, s, x, now, utc);
            if WithinBudgets(p.host.limits, o.s.blocks) then r == EventResult(o.s, Ok(o.execs))
            else r.s == checkpoint && r.result == Err(FirstExceeded(p.host.limits, o.s.blocks).value)
  {
    hide SoundPlan, Propagate, BlocksOk, SignalsOk, ExecutionOk, BlockEvolves, SourceHeld, StateHeld, TimersHeld, UsageError, SourceTotal, StateTotal, TimersTotal;
    FollowSafe(p, rank, checkpoint, s, x, now, utc);
    UsageIsWhatIsHeld(p.host.limits, Propagate(p, s, [x], 0, now, utc).s);
  }

  /** An answer with executions leaves everything within the budgets. */
  ghost predicate LeavesBudgets(p: Plan, r: EventResult) {
    r.result.Ok? && r.result.value != [] ==> WithinBudgets(p.host.limits, r.s.blocks)
  }

  lemma RunLeavesBudgets(p: Plan, rank: BlockId -> nat, s: RuntimeState, root: Root, restores: bool, now: MonotonicMs, utc: Option<int>)
    requires SoundPlan(p, rank) && FullInv(p, s) && Shaped(p, root.s) && RootSafe(p, s, root, now)
    requires root.result.Ok? && root.result.value.Some? ==> Known(p, root.result.value.value.block)
    ensures LeavesBudgets(p, RunEvent(p, s, root, restores, now, utc))
  {
    hide SoundPlan, Follow, WithinBudgets, FirstExceeded, Evolves, ExecutionOk;
    if root.result.Ok? && root.result.value.Some? { BudgetsDecide(p, rank, s, root.s, root.result.value.value, now, utc); }
  }

  /** Every event of every kind that executes something and succeeds leaves what
      all blocks hold within every budget. */
  lemma EventsLeaveBudgets(p: Plan, rank: BlockId -> nat, s: RuntimeState, id: BlockId, endpoint: EndpointName, update: InputUpdate,
                           trigger: ScheduleTrigger, now: MonotonicMs, utc: Option<int>)
    requires SoundPlan(p, rank) && FullInv(p, s) && DistinctBlocks(p.config.blocks)
    ensures LeavesBudgets(p, InputEvent(p, s, id, endpoint, update, now, utc))
    ensures LeavesBudgets(p, TimerEvent(p, s, now, utc))
    ensures LeavesBudgets(p, ScheduleEvent(p, s, trigger, now, utc))
  {
    hide SoundPlan, UpdateRoot, TimerRoot, ScheduleRoot, RunEvent, LeavesBudgets, BlocksOk, SignalsOk, RootSafe;
    RootsAreKnown(p, s);
    UpdateRootSafe(p, s, id, endpoint, update, now, utc);
    TimerRootSafe(p, s, now, utc);
    ScheduleRootSafe(p, s, trigger, now);
    RunLeavesBudgets(p, rank, s, UpdateRoot(p, s, id, endpoint, update, now, utc), true, now, utc);
    RunLeavesBudgets(p, rank, s, TimerRoot(p, s, now, utc), false, now, utc);
    RunLeavesBudgets(p, rank, s, ScheduleRoot(p, s, trigger, now), false, now, utc);
  }

  /** In every state of every run, all state and all timers are within their
      budgets. */
  lemma RunsStayWithinBudgets(p: Plan, rank: BlockId -> nat, calls: seq<HostCall>, states: seq<RuntimeState>, n: nat)
    requires SoundPlan(p, rank) && IsRun(p, calls, states) && n < |states|
    ensures |StateHeld(states[n].blocks)| <= p.host.limits.maxStateBytesTotal
    ensures |TimersHeld(states[n].blocks)| <= p.host.limits.maxPendingTimersTotal
  {
    hide SoundPlan, IsRun, StateTotal, TimersTotal, StateHeld, TimersHeld, Inv;
    RunsAreSafe(p, rank, calls, states, n);
    StateTotalCounts(states[n].blocks);
    TimersTotalCounts(states[n].blocks);
  }
}
