/** Batch activation of sources and enabled flags. */
module Activation {
  import opened Values
  import opened SignalGraph
  import opened Configuration
  import opened ScheduleRules
  import opened LuaConversion
  import opened Engines
  import opened LogicBlocks
  import opened ScheduleCursors
  import opened Cascades
  import opened PlanFacts
  import opened CascadeSafety
  import opened RuntimeEvents
  import opened RuntimeSafety

  // ----- what a batch does to the program total ------------------------------------------------

  /** How many bytes one update adds to block `c`. */
  function GrowthBy(p: Plan, s: RuntimeState, update: BlockActivation, c: nat): int
    requires c < |s.blocks|
  {
    var current := s.blocks[c].engine.logic;
    if update.source.None? || p.sandbox.revisionFor(update.source.value) == current.revision then 0
    else |update.source.value| - |current.source|
  }

  /** How many bytes a batch adds, read off the state before it. */
  function Growth(p: Plan, s: RuntimeState, updates: seq<BlockActivation>): int
    requires |s.blocks| == |p.config.blocks|
  {
    if updates == [] then 0
    else
      var at := BlockPosition(p.config.blocks, updates[0].block);
      (if at.None? then 0 else GrowthBy(p, s, updates[0], at.value)) + Growth(p, s, updates[1..])
  }

  ghost predicate DistinctUpdates(updates: seq<BlockActivation>) {
    forall i, j :: 0 <= i < j < |updates| ==> updates[i].block != updates[j].block
  }

  lemma {:induction false} ReplacingMovesTotal(blocks: seq<BlockState>, c: nat, b: BlockState)
    requires c < |blocks|
    ensures SourceTotal(blocks[c := b]) == SourceTotal(blocks) - |blocks[c].engine.logic.source| + |b.engine.logic.source|
    decreases |blocks|
  {
    var n := |blocks| - 1;
    if c == n {
      assert blocks[c := b][..n] == blocks[..n];
    } else {
      ReplacingMovesTotal(blocks[..n], c, b);
      assert blocks[c := b][..n] == blocks[..n][c := b];
    }
  }

  /** An update of another block does not change what a batch adds. */
  lemma {:induction false} GrowthElsewhere(p: Plan, s: RuntimeState, t: RuntimeState, c: nat, updates: seq<BlockActivation>)
    requires |s.blocks| == |t.blocks| == |p.config.blocks| && c < |s.blocks|
    requires forall i :: 0 <= i < |s.blocks| && i != c ==> t.blocks[i] == s.blocks[i]
    requires forall i :: 0 <= i < |updates| ==> updates[i].block != p.config.blocks[c].id
    ensures Growth(p, t, updates) == Growth(p, s, updates)
    decreases |updates|
  {
    if updates != [] { GrowthElsewhere(p, s, t, c, updates[1..]); }
  }

  lemma UpdateMovesTotal(p: Plan, s: RuntimeState, update: BlockActivation, c: nat)
    requires Shaped(p, s) && BlockPosition(p.config.blocks, update.block) == Some(c)
    ensures var t := ActivateOne(p, s, update);
            && SourceTotal(t.blocks) == SourceTotal(s.blocks) + GrowthBy(p, s, update, c)
            && forall i :: 0 <= i < |s.blocks| && i != c ==> t.blocks[i] == s.blocks[i]
  {
    ReplacingMovesTotal(s.blocks, c, ActivateOne(p, s, update).blocks[c]);
  }

  lemma {:induction false} BatchMovesTotal(p: Plan, s: RuntimeState, updates: seq<BlockActivation>)
    requires Shaped(p, s) && DistinctUpdates(updates)
    ensures SourceTotal(ActivateAll(p, s, updates).blocks) == SourceTotal(s.blocks) + Growth(p, s, updates)
    decreases |updates|
  {
    hide ActivateBlock, FlagCursors, SourceTotal;
    if updates != [] {
      var t := ActivateOne(p, s, updates[0]);
      BatchMovesTotal(p, t, updates[1..]);
      var at := BlockPosition(p.config.blocks, updates[0].block);
      if at.Some? {
        UpdateMovesTotal(p, s, updates[0], at.value);
        GrowthElsewhere(p, s, t, at.value, updates[1..]);
      }
    }
  }

  lemma {:induction false} CheckedFrom(p: Plan, updates: seq<BlockActivation>, i: nat)
    requires i <= |updates| && CheckActivations(p, updates, i).None?
    ensures forall k :: i <= k < |updates| ==> CheckActivation(p, updates, k).None?
    decreases |updates| - i
  {
    if i < |updates| { CheckedFrom(p, updates, i + 1); }
  }

  /** An accepted batch names each block once, so its growth can be read off
      the state before it. */
  lemma AcceptedBatchMovesTotal(p: Plan, s: RuntimeState, updates: seq<BlockActivation>)
    requires Shaped(p, s) && ActivationEvent(p, s, updates).1.None?
    ensures SourceTotal(ActivationEvent(p, s, updates).0.blocks) == SourceTotal(s.blocks) + Growth(p, s, updates)
  {
    CheckedFrom(p, updates, 0);
    forall i, j | 0 <= i < j < |updates| ensures updates[i].block != updates[j].block {
      assert CheckActivation(p, updates, j).None?;
    }
    BatchMovesTotal(p, s, updates);
  }

  // ----- what the total decides ------------------------------------------------------------------

  lemma {:induction false} SameProgramsSameTotal(a: seq<BlockState>, b: seq<BlockState>)
    requires |a| == |b| && forall c :: 0 <= c < |a| ==> b[c].engine.logic == a[c].engine.logic
    ensures SourceTotal(b) == SourceTotal(a)
    decreases |a|
  {
    if a != [] { SameProgramsSameTotal(a[..|a| - 1], b[..|b| - 1]); }
  }

  /** An execution is refused for the program total exactly when the state
      already exceeds it. */
  lemma SourceTotalDecides(p: Plan, rank: BlockId -> nat, checkpoint: RuntimeState, s: RuntimeState, x: BlockExecution, now: MonotonicMs, utc: Option<int>)
    requires SoundPlan(p, rank) && FullInv(p, checkpoint) && Evolves(p, checkpoint, s, now) && ExecOk(p, x)
    ensures var maximum := p.host.limits.maxLogicSourceBytesTotal;
            SourceTotal(checkpoint.blocks) > maximum
            <==> Follow(p, checkpoint, s, x, now, utc) == EventResult(checkpoint, Err(ResourceLimit(LogicSource, SourceTotal(checkpoint.blocks), maximum)))
  {
    hide SoundPlan, Propagate, BlocksOk, SignalsOk, SourceTotal, StateTotal, TimersTotal, ExecutionOk;
    RootCompletes(p, rank, checkpoint, s, x, now, utc);
    var o := Propagate(p, s, [x], 0, now, utc);
    assert forall c :: 0 <= c < |checkpoint.blocks| ==> BlockEvolves(checkpoint.blocks[c], o.s.blocks[c], now);
    SameProgramsSameTotal(checkpoint.blocks, o.s.blocks);
  }

  /** After an accepted activation, executions are refused for the program
      total exactly when the batch outgrows it: activation itself checks only
      the budget of each block. */
  lemma ActivationMayOutgrowTheTotal(p: Plan, rank: BlockId -> nat, before: RuntimeState, updates: seq<BlockActivation>,
                                     s: RuntimeState, x: BlockExecution, now: MonotonicMs, utc: Option<int>)
    requires SoundPlan(p, rank) && Shaped(p, before) && ActivationEvent(p, before, updates).1.None?
    requires FullInv(p, ActivationEvent(p, before, updates).0) && Evolves(p, ActivationEvent(p, before, updates).0, s, now) && ExecOk(p, x)
    ensures var after, maximum := ActivationEvent(p, before, updates).0, p.host.limits.maxLogicSourceBytesTotal;
            SourceTotal(before.blocks) + Growth(p, before, updates) > maximum
            <==> Follow(p, after, s, x, now, utc) == EventResult(after, Err(ResourceLimit(LogicSource, SourceTotal(after.blocks), maximum)))
  {
    hide Follow, ActivationEvent, SoundPlan, FullInv, Evolves, Growth, SourceTotal;
    AcceptedBatchMovesTotal(p, before, updates);
    SourceTotalDecides(p, rank, ActivationEvent(p, before, updates).0, s, x, now, utc);
  }
}
