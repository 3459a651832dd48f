/** An activation that leaves a runtime unable to execute anything, in either
    of the shipped profiles. */
module ActivationGrowth {
  import opened Values
  import opened SignalGraph
  import opened Configuration
  import opened ScheduleRules
  import opened LuaConversion
  import opened Engines
  import opened LogicBlocks
  import opened Cascades
  import opened PlanFacts
  import opened CascadeSafety
  import opened RuntimeEvents
  import opened RuntimeSafety
  import opened RuntimeRuns
  import opened Activation

  // ----- a runtime of unbound blocks with one program ----------------------------------------

  const TRIGGERED: Endpoint := Endpoint(0, Input, DPT_BOOL)

  function BlockRunning(id: nat, logic: LogicProgram): BlockConfig { BlockConfig(id, true, [TRIGGERED], logic, [], []) }

  /** `n` blocks that run `source`. */
  function ManyBlocks(host: Host, sandbox: Sandbox, n: nat, source: seq<char>): Plan {
    Plan(RuntimeConfig(seq(n, (i: nat) => BlockRunning(i, LogicProgram(source, sandbox.revisionFor(source)))), [], Site(None)), host, sandbox)
  }

  lemma {:induction false} NothingBound(blocks: seq<BlockConfig>, source: seq<char>, n: nat)
    requires n <= |blocks| && forall b :: b in blocks ==> b.bindings == [] && b.logic.source == source
    ensures AllBound(blocks, n) == [] && BindingCount(blocks, n) == 0 && SourceBytes(blocks, n) == n * |source|
  {
    if n > 0 {
      assert blocks[n - 1] in blocks;
      NothingBound(blocks, source, n - 1);
      OneMore(n - 1, |source|);
    }
  }

  lemma OneMore(times: nat, length: int)
    ensures (times + 1) * length == times * length + length
  {
  }

  function NoRank(): BlockId -> nat { (id: BlockId) => 0 }

  /** Validation accepts it. */
  lemma ManyBlocksAccepted(host: Host, sandbox: Sandbox, n: nat, source: seq<char>)
    requires 1 <= n <= host.limits.maxLogicBlocks && host.limits.maxEndpointsPerBlock >= 1 && host.limits.maxCascadeExecutions >= 1
    requires sandbox.loads(source) && |source| <= host.limits.maxLogicSourceBytesPerBlock && n * |source| <= host.limits.maxLogicSourceBytesTotal
    ensures var p := ManyBlocks(host, sandbox, n, source);
            Accepted(p.config, host.limits, sandbox) && SoundPlan(p, NoRank())
  {
    var p := ManyBlocks(host, sandbox, n, source);
    NothingBound(p.config.blocks, source, n);
    var edges := EdgesOf(p);
    assert edges == map[];
    RankedIsAcyclic(edges, NoRank());
    forall b | b in p.config.blocks ensures BlockAccepted(b, host.limits, sandbox) {
      var i :| 0 <= i < n && b == BlockRunning(i, LogicProgram(source, sandbox.revisionFor(source)));
    }
    forall t | Unfolds(edges, t) ensures NodeCount(t) <= host.limits.maxCascadeExecutions {
      assert t.children == [];
    }
  }

  // ----- a batch that gives every block a longer source -----------------------------------------------

  function Batch(n: nat, source: seq<char>): (r: seq<BlockActivation>)
    ensures |r| == n
  {
    seq(n, (i: nat) => BlockActivation(i, Some(source), None))
  }

  lemma {:induction false} BatchChecked(p: Plan, n: nat, source: seq<char>, i: nat)
    requires |p.config.blocks| == n && DistinctBlocks(p.config.blocks) && i <= n
    requires forall c :: 0 <= c < n ==> p.config.blocks[c].id == c
    requires SourceAccepted(p, source)
    ensures CheckActivations(p, Batch(n, source), i).None?
    decreases n - i
  {
    if i < n {
      BlockAt(p, i);
      assert CheckActivation(p, Batch(n, source), i).None?;
      BatchChecked(p, n, source, i + 1);
    }
  }

  lemma BlockGrows(host: Host, sandbox: Sandbox, n: nat, short: seq<char>, long: seq<char>, i: nat)
    requires i < n && sandbox.revisionFor(short) != sandbox.revisionFor(long)
    ensures var p := ManyBlocks(host, sandbox, n, short);
            BlockPosition(p.config.blocks, i) == Some(i) && GrowthBy(p, InitialState(p), Batch(n, long)[i], i) == |long| - |short|
  {
    BlockAt(ManyBlocks(host, sandbox, n, short), i);
  }

  /** Each block grows from one source to the other. */
  lemma {:induction false} BatchGrows(host: Host, sandbox: Sandbox, n: nat, short: seq<char>, long: seq<char>, i: nat)
    requires i <= n && sandbox.revisionFor(short) != sandbox.revisionFor(long)
    ensures var p := ManyBlocks(host, sandbox, n, short);
            Growth(p, InitialState(p), Batch(n, long)[i..]) == (n - i) * (|long| - |short|)
    decreases n - i
  {
    hide ManyBlocks, GrowthBy, InitialState, BlockPosition, Batch;
    if i < n {
      BatchGrows(host, sandbox, n, short, long, i + 1);
      BlockGrows(host, sandbox, n, short, long, i);
      BatchRest(n, long, i);
      OneMore(n - i - 1, |long| - |short|);
    } else {
      assert Batch(n, long)[n..] == [];
    }
  }

  lemma BatchRest(n: nat, source: seq<char>, i: nat)
    requires i < n
    ensures Batch(n, source)[i..] == [Batch(n, source)[i]] + Batch(n, source)[i + 1..]
    ensures Batch(n, source)[i].block == i
  {
  }

  lemma {:induction false} OneSource(blocks: seq<BlockState>, source: seq<char>)
    requires forall b :: b in blocks ==> b.engine.logic.source == source
    ensures SourceTotal(blocks) == |blocks| * |source|
    decreases |blocks|
  {
    if blocks != [] {
      assert blocks[|blocks| - 1] in blocks;
      OneSource(blocks[..|blocks| - 1], source);
      OneMore(|blocks| - 1, |source|);
    }
  }

  /** The whole batch moves the total from `n` short sources to `n` long ones. */
  lemma BatchTotal(host: Host, sandbox: Sandbox, n: nat, short: seq<char>, long: seq<char>)
    requires sandbox.revisionFor(short) != sandbox.revisionFor(long)
    ensures var p := ManyBlocks(host, sandbox, n, short);
            SourceTotal(InitialState(p).blocks) + Growth(p, InitialState(p), Batch(n, long)) == n * |long|
  {
    OneSource(InitialState(ManyBlocks(host, sandbox, n, short)).blocks, short);
    hide ManyBlocks, InitialState, Batch, SourceTotal, Growth;
    BatchGrows(host, sandbox, n, short, long, 0);
    assert Batch(n, long)[0..] == Batch(n, long);
    assert n * |short| + n * (|long| - |short|) == n * |long|;
  }

  /** Blocks that are ready to run. */
  ghost predicate Ready(s: RuntimeState) {
    forall c :: 0 <= c < |s.blocks| ==> Runnable(s.blocks[c]) && s.blocks[c].window == []
  }

  lemma {:induction false} SourcesKeepReady(p: Plan, s: RuntimeState, updates: seq<BlockActivation>)
    requires Shaped(p, s) && Ready(s) && forall u :: u in updates ==> u.enabled.None?
    ensures Ready(ActivateAll(p, s, updates)) && ActivateAll(p, s, updates).lastAcceptedAt == s.lastAcceptedAt
    decreases |updates|
  {
    if updates != [] {
      assert updates[0] in updates;
      SourcesKeepReady(p, ActivateOne(p, s, updates[0]), updates[1..]);
    }
  }

  // ----- what happens next ------------------------------------------------------------------------------

  /** A triggering update of a ready block starts an execution. */
  lemma ReadyBlockExecutes(p: Plan, s: RuntimeState, now: MonotonicMs)
    requires DistinctBlocks(p.config.blocks) && FullInv(p, s) && Ready(s) && !Earlier(s, now) && |p.config.blocks| > 0
    requires p.config.blocks[0].endpoints == [TRIGGERED] && p.config.blocks[0].id == 0 && p.host.limits.maxLiveExecutionsPerBlockPerSecond >= 1
    ensures var root := UpdateRoot(p, s, 0, 0, TriggerWith(BoolValue(true)), now, None); root.result.Ok? && root.result.value.Some?
  {
    hide ProcessUpdate, EngineInv, WindowOk, SignalOk, StateTotal, TimersTotal;
    BlockAt(p, 0);
    ClockAdvances(p, s, now);
    BlockAtInv(p, At(s, now), 0);
    var b := Admit(s.blocks[0], now, p.host.limits.maxLiveExecutionsPerBlockPerSecond).0;
    UpdateKeepsInv(p.host, p.config.blocks[0].endpoints, b.engine, 0, TriggerWith(BoolValue(true)), now, None);
  }

  /** A batch whose sources fit each block but not the runtime is accepted, and
      from then on an input that triggers its block is answered with the source
      limit and changes nothing. */
  lemma ActivationStopsTheRuntime(host: Host, sandbox: Sandbox, n: nat, short: seq<char>, long: seq<char>, now: MonotonicMs)
    requires sandbox.loads(short) && sandbox.loads(long) && sandbox.revisionFor(short) != sandbox.revisionFor(long)
    requires |short| <= host.limits.maxLogicSourceBytesPerBlock && |long| <= host.limits.maxLogicSourceBytesPerBlock
    requires 1 <= n <= host.limits.maxLogicBlocks && n * |short| <= host.limits.maxLogicSourceBytesTotal < n * |long|
    requires host.limits.maxEndpointsPerBlock >= 1 && host.limits.maxCascadeExecutions >= 1 && host.limits.maxLiveExecutionsPerBlockPerSecond >= 1
    ensures var p := ManyBlocks(host, sandbox, n, short);
            var (after, error) := ActivationEvent(p, InitialState(p), Batch(n, long));
            && Accepted(p.config, host.limits, sandbox) && error.None? && FullInv(p, after) && DistinctBlocks(p.config.blocks)
            && InputEvent(p, after, 0, 0, TriggerWith(BoolValue(true)), now, None)
               == EventResult(after, Err(ResourceLimit(LogicSource, n * |long|, host.limits.maxLogicSourceBytesTotal)))
  {
    hide UpdateRoot, Follow, SourceTotal, Growth, ActivateAll, Inv, StateTotal, TimersTotal, Accepted, CheckActivations, ValidPlan, CascadesWithin, Ranks, Evolves, ExecOk;
    var p := ManyBlocks(host, sandbox, n, short);
    var updates := Batch(n, long);
    ManyBlocksAccepted(host, sandbox, n, short);
    var before := InitialState(p);
    InitialSafe(p);
    BatchChecked(p, n, long, 0);
    var after := ActivateAll(p, before, updates);
    ActivateAllSafe(p, before, updates);
    SourcesKeepReady(p, before, updates);
    ReadyBlockExecutes(p, after, now);
    BatchTotal(host, sandbox, n, short, long);
    AcceptedBatchMovesTotal(p, before, updates);
    RootsAreKnown(p, after);
    UpdateRootSafe(p, after, 0, 0, TriggerWith(BoolValue(true)), now, None);
    var root := UpdateRoot(p, after, 0, 0, TriggerWith(BoolValue(true)), now, None);
    SourceTotalDecides(p, NoRank(), after, root.s, root.result.value.value, now, None);
  }

  /** Both shipped profiles allow it: seventeen blocks, each given a program of
      the full length. */
  lemma ShippedProfilesCanBeStopped(host: Host, sandbox: Sandbox, short: seq<char>, long: seq<char>, now: MonotonicMs)
    requires host.limits == DESKTOP || host.limits == EMBEDDED
    requires sandbox.loads(short) && sandbox.loads(long) && sandbox.revisionFor(short) != sandbox.revisionFor(long)
    requires 17 * |short| <= host.limits.maxLogicSourceBytesTotal && |long| == host.limits.maxLogicSourceBytesPerBlock
    ensures var p := ManyBlocks(host, sandbox, 17, short);
            var (after, error) := ActivationEvent(p, InitialState(p), Batch(17, long));
            && Accepted(p.config, host.limits, sandbox) && error.None? && DistinctBlocks(p.config.blocks)
            && var r := InputEvent(p, after, 0, 0, TriggerWith(BoolValue(true)), now, None);
               r.s == after && r.result.Err? && r.result.error.ResourceLimit? && r.result.error.resource == LogicSource
  {
    hide ActivationEvent, InputEvent, InitialState, Accepted, ManyBlocks;
    ActivationStopsTheRuntime(host, sandbox, 17, short, long, now);
  }
}
