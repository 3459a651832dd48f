/** The runtime object: its blocks are objects updated in place, and every
    operation is proved equal to the function that specifies it. */
module Runtimes {
  import opened Values
  import opened ScheduleRules
  import opened SignalGraph
  import opened Configuration
  import opened TransientState
  import opened LuaConversion
  import opened Engines
  import opened LogicBlocks
  import opened ScheduleCursors
  import opened Cascades
  import opened PlanFacts
  import opened RuntimeEvents
  import opened SchedulePolling
  import opened CascadeOrder
  import opened SignalAgreement
  import opened Simulation
  import opened Eligibility
  import opened TimerDrain
  import opened RuntimeSafety
  import opened RuntimeRuns

  datatype RuntimeSimulationError = UnknownSimulationBlock(id: BlockId) | RefusedSimulation(id: BlockId, error: SimulationError)

  /** What handing a value to a consumer did. */
  datatype Handed = Saw | Ran(execution: Execution) | Failed(error: EventError)

  ghost function AsDelivery(s: RuntimeState, h: Handed): Delivery {
    match h
    case Saw => Observed(s)
    case Ran(execution) => Executed(s, execution)
    case Failed(error) => Refused(s, error)
  }

  /** Every engine is in order. */
  ghost predicate EnginesOk(p: Plan, s: RuntimeState) {
    && Shaped(p, s)
    && forall c :: 0 <= c < |s.blocks| ==> EngineInv(p.host.limits, p.config.blocks[c].endpoints, s.blocks[c].engine)
  }

  /** The second half of a trigger: an admitted block runs its handler. */
  ghost function RunAt(p: Plan, s: RuntimeState, c: nat, endpoint: EndpointName, value: TypedValue, now: MonotonicMs, utc: Option<int>): Delivery
    requires Shaped(p, s) && c < |s.blocks|
  {
    var step := ProcessUpdate(p.host, p.config.blocks[c].endpoints, s.blocks[c].engine, endpoint, TriggerWith(value), now, utc);
    var ran := s.blocks[c].(engine := step.engine);
    match step.result
    case Err(error) => Refused(WithBlock(s, c, ran), error)
    case Ok(execution) => Executed(WithBlock(s, c, Record(ran, execution.value.outcome)).(lastAcceptedAt := Some(now)), execution.value)
  }

  /** A block after a step of its engine: an execution is recorded. */
  function Ended(b: BlockState, result: Result<Option<Execution>, EventError>): BlockState {
    if result.Ok? && result.value.Some? then Record(b, result.value.value.outcome) else b
  }

  lemma TriggerIsAdmitThenRun(p: Plan, s: RuntimeState, c: nat, endpoint: EndpointName, value: TypedValue, now: MonotonicMs, utc: Option<int>)
    requires Shaped(p, s) && c < |s.blocks|
    ensures var (b, admitted) := Admit(s.blocks[c], now, p.host.limits.maxLiveExecutionsPerBlockPerSecond);
            TriggerAt(p, s, c, endpoint, value, now, utc)
            == if admitted then RunAt(p, WithBlock(s, c, b), c, endpoint, value, now, utc)
               else ObserveAt(p, WithBlock(s, c, b), c, endpoint, value, now)
  {
    hide ProcessUpdate, Record, ObserveAt;
    var (b, admitted) := Admit(s.blocks[c], now, p.host.limits.maxLiveExecutionsPerBlockPerSecond);
    assert forall x: BlockState :: WithBlock(WithBlock(s, c, b), c, x) == WithBlock(s, c, x);
  }

  /** The first timer that can fire among those of the first `n` blocks and,
      in block `n`, those not in `rest`. */
  ghost predicate BestSoFar(p: Plan, s: RuntimeState, now: MonotonicMs, n: nat, rest: set<TimerName>, best: Option<(nat, TimerKey)>)
    requires Shaped(p, s)
  {
    match best
    case None => forall d: nat, m: TimerName :: CanFire(s, now, d, m) && (d < n || (d == n && m !in rest)) ==> false
    case Some((c, key)) =>
      && CanFire(s, now, c, key.name) && key == KeyOf(p, s, c, key.name)
      && forall d: nat, m: TimerName :: CanFire(s, now, d, m) && (d < n || (d == n && m !in rest)) ==>
           (d == c && m == key.name) || KeyBefore(key, KeyOf(p, s, d, m))
  }

  /** Two timers never share a key. */
  lemma KeysDiffer(p: Plan, s: RuntimeState, c: nat, t: TimerName, d: nat, m: TimerName)
    requires Shaped(p, s) && DistinctBlocks(p.config.blocks) && c < |s.blocks| && d < |s.blocks|
    requires t in s.blocks[c].engine.timers && m in s.blocks[d].engine.timers && (c != d || t != m)
    ensures KeyBefore(KeyOf(p, s, c, t), KeyOf(p, s, d, m)) || KeyBefore(KeyOf(p, s, d, m), KeyOf(p, s, c, t))
  {
  }

  lemma BestIsFirst(p: Plan, s: RuntimeState, now: MonotonicMs, best: Option<(nat, TimerKey)>)
    requires Shaped(p, s) && BestSoFar(p, s, now, |s.blocks|, {}, best)
    ensures FirstBlock(p, s, now) == if best.None? then None else Some(best.value.0)
  {
    if best.Some? {
      FirstBlockIs(p, s, now, best.value.0, best.value.1.name);
    } else {
      assert forall c: nat :: !IsFirstBlock(p, s, now, c);
    }
  }

  /** One block object per configured block. */
  method MakeBlocks(p: Plan) returns (made: seq<LogicBlock>)
    ensures |made| == |p.config.blocks|
    ensures forall j :: 0 <= j < |made| ==> fresh(made[j]) && fresh(made[j].engine) && made[j].engine.Valid()
    ensures forall j :: 0 <= j < |made| ==> made[j].engine.host == p.host && made[j].engine.endpoints == p.config.blocks[j].endpoints
    ensures forall j :: 0 <= j < |made| ==> made[j].Value() == InitialBlock(p.config.blocks[j])
    ensures forall j, k :: 0 <= j < k < |made| ==> made[j] != made[k] && made[j].engine != made[k].engine
  {
    hide EngineInv;
    made := [];
    while |made| < |p.config.blocks|
      invariant |made| <= |p.config.blocks|
      invariant forall j :: 0 <= j < |made| ==> fresh(made[j]) && fresh(made[j].engine) && made[j].engine.Valid()
      invariant forall j :: 0 <= j < |made| ==> made[j].engine.host == p.host && made[j].engine.endpoints == p.config.blocks[j].endpoints
      invariant forall j :: 0 <= j < |made| ==> made[j].Value() == InitialBlock(p.config.blocks[j])
      invariant forall j, k :: 0 <= j < k < |made| ==> made[j] != made[k] && made[j].engine != made[k].engine
    {
      var b := p.config.blocks[|made|];
      var next := new LogicBlock(p.host, b.endpoints, b.logic, b.enabled);
      made := made + [next];
    }
  }

  class Runtime {
    const plan: Plan
    const blocks: seq<LogicBlock>
    var signals: seq<SignalState>
    var lastAcceptedAt: Option<MonotonicMs>
    var nextExecutionId: nat
    var schedules: ScheduleState

    ghost function BlockObjects(): set<object> {
      (set i | 0 <= i < |blocks| :: blocks[i] as object) + (set i | 0 <= i < |blocks| :: blocks[i].engine as object)
    }

    ghost function Repr(): set<object> { {this} + BlockObjects() }

    /** The blocks and their engines are distinct objects. */
    ghost predicate Separate() {
      && |blocks| == |plan.config.blocks|
      && (forall i, j :: 0 <= i < j < |blocks| ==> blocks[i] != blocks[j] && blocks[i].engine != blocks[j].engine)
      && forall i :: 0 <= i < |blocks| ==>
           blocks[i].engine.host == plan.host && blocks[i].engine.endpoints == plan.config.blocks[i].endpoints
    }

    ghost predicate Valid()
      reads this, Repr()
    {
      && Separate() && |signals| == |plan.config.signals|
      && forall i :: 0 <= i < |blocks| ==> blocks[i].engine.Valid()
    }

    lemma Apart()
      ensures this !in BlockObjects()
    {
    }

    function BlockValues(n: nat): (r: seq<BlockState>)
      requires n <= |blocks|
      reads BlockObjects()
      ensures |r| == n && forall i :: 0 <= i < n ==> r[i] == blocks[i].Value()
    {
      if n == 0 then [] else BlockValues(n - 1) + [blocks[n - 1].Value()]
    }

    /** A copy of the whole runtime, as cloning it gives. */
    function Value(): RuntimeState
      reads this, Repr()
    {
      RuntimeState(BlockValues(|blocks|), signals, lastAcceptedAt, nextExecutionId, schedules)
    }

    /** Builds the blocks of a validated configuration. */
    constructor (p: Plan)
      ensures plan == p && Valid() && fresh(Repr()) && Value() == InitialState(p)
    {
      hide EngineInv, InitialBlock, InitialState, Value;
      var made := MakeBlocks(p);
      plan, blocks := p, made;
      signals := seq(|p.config.signals|, _ => SignalState(None, None, None, None));
      lastAcceptedAt, nextExecutionId, schedules := None, 1, ScheduleState(map[], None, None);
      new;
      StartsInitially(p);
    }

    lemma StartsInitially(p: Plan)
      requires |blocks| == |p.config.blocks| && forall j :: 0 <= j < |blocks| ==> blocks[j].Value() == InitialBlock(p.config.blocks[j])
      requires signals == seq(|p.config.signals|, _ => SignalState(None, None, None, None))
      requires lastAcceptedAt == None && nextExecutionId == 1 && schedules == ScheduleState(map[], None, None)
      ensures Value() == InitialState(p)
    {
      hide InitialBlock;
      assert BlockValues(|blocks|) == InitialState(p).blocks;
    }

    /** `try_new`: a runtime exists exactly for an accepted configuration. */
    static method TryNew(config: RuntimeConfig, host: Host, sandbox: Sandbox) returns (r: Result<Runtime, RuntimeConfigError>)
      ensures r.Ok? <==> Accepted(config, host.limits, sandbox)
      ensures r.Ok? ==> r.value.plan == Plan(config, host, sandbox) && r.value.Valid() && fresh(r.value.Repr())
                        && r.value.Value() == InitialState(r.value.plan) && FullInv(r.value.plan, r.value.Value())
      ensures r.Ok? ==> exists rank :: SoundPlan(r.value.plan, rank)
    {
      var error := Validate(config, host.limits, sandbox);
      if error.Some? { return Err(error.value); }
      ghost var p := Plan(config, host, sandbox);
      ghost var rank: BlockId -> nat :| Ranks(BlockEdges(config.blocks), rank);
      assert SoundPlan(p, rank);
      InitialSafe(p);
      var runtime := new Runtime(Plan(config, host, sandbox));
      r := Ok(runtime);
    }

    lemma ValidShapes()
      requires Valid()
      ensures EnginesOk(plan, Value()) && Shaped(plan, Value()) && |blocks| == |plan.config.blocks| && Value().signals == signals
      ensures forall c :: 0 <= c < |blocks| ==> Value().blocks[c] == blocks[c].Value()
    {
    }

    /** After a call that touched only block `c`. */
    twostate lemma BlockReplaced(c: nat)
      requires old(Valid()) && c < |blocks| && blocks[c].engine.Valid() && unchanged(this)
      requires forall i :: 0 <= i < |blocks| && i != c ==> unchanged(blocks[i]) && unchanged(blocks[i].engine)
      ensures Valid() && |old(Value()).blocks| == |blocks| && Value() == WithBlock(old(Value()), c, blocks[c].Value())
    {
      hide EngineInv;
      assert forall i :: 0 <= i < |blocks| && i != c ==> blocks[i].Value() == old(blocks[i].Value());
      assert Value().blocks == WithBlock(old(Value()), c, blocks[c].Value()).blocks;
    }

    lemma OtherBlocksApart(c: nat)
      requires Separate() && c < |blocks|
      ensures forall i :: 0 <= i < |blocks| && i != c ==> blocks[i] != blocks[c] && blocks[i].engine != blocks[c].engine
    {
    }

    // ----- one block ---------------------------------------------------------------------------

    method ObserveInput(c: nat, endpoint: EndpointName, value: TypedValue, now: MonotonicMs) returns (h: Handed)
      requires Valid() && c < |blocks|
      modifies Repr()
      ensures Valid() && !h.Ran? && Shaped(plan, old(Value())) && AsDelivery(Value(), h) == ObserveAt(plan, old(Value()), c, endpoint, value, now)
    {
      hide ProcessUpdate, EngineInv;
      ValidShapes();
      OtherBlocksApart(c);
      label before:
      var r := blocks[c].engine.ProcessInputUpdate(endpoint, Observe(value), now, None);
      BlockReplaced@before(c);
      h := if r.Err? then Failed(r.error) else Saw;
    }

    method AdmitBlock(c: nat, now: MonotonicMs) returns (admitted: bool)
      requires Valid() && c < |blocks|
      modifies Repr()
      ensures Valid() && Shaped(plan, old(Value()))
      ensures var (b, ok) := Admit(old(Value()).blocks[c], now, plan.host.limits.maxLiveExecutionsPerBlockPerSecond);
              Value() == WithBlock(old(Value()), c, b) && admitted == ok
    {
      hide Admit, EngineInv;
      ValidShapes();
      OtherBlocksApart(c);
      label before:
      admitted := blocks[c].AdmitLiveExecution(now, plan.host.limits.maxLiveExecutionsPerBlockPerSecond);
      BlockReplaced@before(c);
    }

    method RunInput(c: nat, endpoint: EndpointName, value: TypedValue, now: MonotonicMs, utc: Option<int>) returns (h: Handed)
      requires Valid() && c < |blocks|
      modifies Repr()
      ensures Valid() && !h.Saw? && Shaped(plan, old(Value())) && AsDelivery(Value(), h) == RunAt(plan, old(Value()), c, endpoint, value, now, utc)
    {
      hide ProcessUpdate, EngineInv, Record, BlockObjects;
      ValidShapes();
      OtherBlocksApart(c);
      UpdateStores(plan.host, plan.config.blocks[c].endpoints, blocks[c].engine.Value(), endpoint, TriggerWith(value), now, utc);
      var r := ApplyUpdate(c, endpoint, TriggerWith(value), now, utc);
      if r.Err? { return Failed(r.error); }
      AcceptTime(now);
      h := Ran(r.value.value);
    }

    /** Applies an update to one engine and records an execution it ran. */
    method ApplyUpdate(c: nat, endpoint: EndpointName, update: InputUpdate, now: MonotonicMs, utc: Option<int>) returns (r: Result<Option<Execution>, EventError>)
      requires Valid() && c < |blocks|
      modifies Repr() - {this}
      ensures Valid() && Shaped(plan, old(Value()))
      ensures var was := old(Value());
              var step := ProcessUpdate(plan.host, plan.config.blocks[c].endpoints, was.blocks[c].engine, endpoint, update, now, utc);
              r == step.result && Value() == WithBlock(was, c, Ended(was.blocks[c].(engine := step.engine), step.result))
    {
      hide ProcessUpdate, EngineInv, Record;
      ValidShapes();
      OtherBlocksApart(c);
      label before:
      r := blocks[c].engine.ProcessInputUpdate(endpoint, update, now, utc);
      if r.Ok? && r.value.Some? { blocks[c].RecordLiveExecution(r.value.value.outcome); }
      BlockReplaced@before(c);
    }

    /** Fires the next due timer of one engine and records the execution. */
    method FireEngineTimer(c: nat, now: MonotonicMs, utc: Option<int>) returns (r: Result<Option<Execution>, EventError>)
      requires Valid() && c < |blocks|
      modifies Repr() - {this}
      ensures Valid() && Shaped(plan, old(Value()))
      ensures var was := old(Value());
              var step := ProcessTimer(plan.host, plan.config.blocks[c].endpoints, was.blocks[c].engine, now, utc);
              r == step.result && Value() == WithBlock(was, c, Ended(was.blocks[c].(engine := step.engine), step.result))
    {
      hide ProcessTimer, EngineInv, Record;
      ValidShapes();
      OtherBlocksApart(c);
      label before:
      r := blocks[c].engine.ProcessNextDueTimer(now, utc);
      if r.Ok? && r.value.Some? { blocks[c].RecordLiveExecution(r.value.value.outcome); }
      BlockReplaced@before(c);
    }

    /** Runs a delivered schedule trigger and records the execution. */
    method RunEngineSchedule(c: nat, trigger: ScheduleTrigger, now: MonotonicMs) returns (execution: Execution)
      requires Valid() && c < |blocks|
      modifies Repr() - {this}
      ensures Valid() && Shaped(plan, old(Value()))
      ensures var was := old(Value());
              var (engine, x) := Evaluate(plan.host, plan.config.blocks[c].endpoints, was.blocks[c].engine, BySchedule(trigger), now, Some(trigger.scheduledFor));
              execution == x && Value() == WithBlock(was, c, Record(was.blocks[c].(engine := engine), x.outcome))
    {
      hide Evaluate, EngineInv, Record;
      ValidShapes();
      OtherBlocksApart(c);
      label before:
      execution := blocks[c].engine.Execute(BySchedule(trigger), now, Some(trigger.scheduledFor));
      blocks[c].RecordLiveExecution(execution.outcome);
      BlockReplaced@before(c);
    }

    /** Hands a value to a consumer; one that may not run only observes it. */
    method HandOver(c: nat, endpoint: EndpointName, value: TypedValue, now: MonotonicMs, utc: Option<int>) returns (h: Handed)
      requires Valid() && c < |blocks|
      modifies Repr()
      ensures Valid() && Shaped(plan, old(Value())) && AsDelivery(Value(), h) == HandTo(plan, old(Value()), c, endpoint, value, now, utc)
    {
      hide ObserveAt, RunAt, TriggerAt, Admit, EngineInv;
      ValidShapes();
      if !blocks[c].enabled || blocks[c].health != Active {
        h := ObserveInput(c, endpoint, value, now);
        return;
      }
      TriggerIsAdmitThenRun(plan, Value(), c, endpoint, value, now, utc);
      var admitted := AdmitBlock(c, now);
      if admitted {
        h := RunInput(c, endpoint, value, now, utc);
      } else {
        h := ObserveInput(c, endpoint, value, now);
      }
    }

    // ----- propagation -------------------------------------------------------------------------

    method AssignExecutionId(execution: Execution, cause: Option<nat>) returns (named: Execution)
      requires Valid()
      modifies this`nextExecutionId
      ensures Valid() && (Value(), named) == AssignId(old(Value()), execution, cause)
    {
      Apart();
      named := execution.(id := Some(nextExecutionId), causalProducer := cause);
      assert Value() == old(Value());
      nextExecutionId := if nextExecutionId < U64_MAX then nextExecutionId + 1 else nextExecutionId;
    }

    method EligibleConsumers(consumers: seq<EndpointRef>) returns (eligible: seq<EndpointRef>)
      requires Valid()
      ensures Valid() && Value() == old(Value()) && Shaped(plan, Value())
      ensures eligible == Eligible(plan, Value(), consumers, |consumers|)
    {
      hide Valid, Value, Shaped, Repr;
      ValidShapes();
      eligible := [];
      var n := 0;
      while n < |consumers|
        invariant 0 <= n <= |consumers| && eligible == Eligible(plan, Value(), consumers, n)
      {
        var c := BlockPosition(plan.config.blocks, consumers[n].block);
        if c.Some? && blocks[c.value].enabled && blocks[c.value].health == Active { eligible := eligible + [consumers[n]]; }
        n := n + 1;
      }
    }

    method PropagateFrom(executions: seq<BlockExecution>, k: nat, now: MonotonicMs, utc: Option<int>)
      returns (execs: seq<BlockExecution>, error: Option<RuntimeEventError>)
      requires Valid() && k < |executions| && Known(plan, executions[k].block)
      modifies Repr()
      ensures Valid() && Shaped(plan, old(Value()))
      ensures Outcome(Value(), execs, error) == Propagate(plan, old(Value()), executions, k, now, utc)
      decreases Slack(plan, executions), 4, 0
    {
      hide PropagateOutput, Valid, Value, Shaped, Repr, Known;
      ValidShapes();
      execs, error := executions, None;
      if executions[k].execution.outcome.Err? { return; }
      var outputs := executions[k].execution.outcome.value.outputs;
      var i := 0;
      while i < |outputs|
        invariant 0 <= i <= |outputs| && Valid() && Shaped(plan, Value()) && Grown(executions, execs) && error.None?
        invariant PropagateOutputs(plan, Value(), execs, k, outputs, i, now, utc)
               == PropagateOutputs(plan, old(Value()), executions, k, outputs, 0, now, utc)
      {
        execs, error := PropagateSignal(execs, k, outputs[i], now, utc);
        ValidShapes();
        if error.Some? { return; }
        i := i + 1;
      }
    }

    method PropagateSignal(executions: seq<BlockExecution>, k: nat, output: OutputEffect, now: MonotonicMs, utc: Option<int>)
      returns (execs: seq<BlockExecution>, error: Option<RuntimeEventError>)
      requires Valid() && k < |executions| && Known(plan, executions[k].block)
      modifies Repr()
      ensures Valid() && Shaped(plan, old(Value()))
      ensures Outcome(Value(), execs, error) == PropagateOutput(plan, old(Value()), executions, k, output, now, utc)
      decreases Slack(plan, executions), 2, 0
    {
      hide Deliver, Refresh, Valid, Value, Shaped, Eligible, BlockObjects, Known;
      ValidShapes();
      var at := SignalOf(plan, executions[k].block, output.endpoint);
      if at.None? { return executions, None; }
      var name := plan.config.signals[at.value].name;
      var consumers := Consumers(plan, name);
      var id := executions[k].execution.id;
      var changed := signals[at.value].value != Some(output.value);
      var effect := SignalEffect(name, output.value, changed, EndpointRef(executions[k].block, output.endpoint), id, consumers);
      assert effect == EffectOf(plan, Value(), executions[k].block, output, at.value, id);
      PublishSignal(at.value, output.value, now, id);
      ValidShapes();
      if changed {
        var eligible := EligibleConsumers(consumers);
        execs := Annotate(executions, k, effect, eligible);
        execs, error := DeliverAll(execs, k, output.value, consumers, now, utc);
      } else {
        execs := Annotate(executions, k, effect, []);
        error := RefreshAll(output.value, consumers, execs, now);
      }
    }

    method PublishSignal(at: nat, value: TypedValue, now: MonotonicMs, id: Option<nat>)
      requires Valid() && at < |signals|
      modifies this`signals
      ensures Valid() && Value() == Publish(old(Value()), at, value, now, id)
    {
      hide EngineInv, Separate;
      Apart();
      var changedAt := if signals[at].value != Some(value) then Some(now) else signals[at].changedAt;
      signals := signals[at := SignalState(Some(value), Some(now), changedAt, id)];
    }

    method RefreshAll(value: TypedValue, consumers: seq<EndpointRef>, ghost execs: seq<BlockExecution>, now: MonotonicMs)
      returns (error: Option<RuntimeEventError>)
      requires Valid()
      modifies Repr()
      ensures Valid() && Shaped(plan, old(Value()))
      ensures Outcome(Value(), execs, error) == Refresh(plan, old(Value()), execs, value, consumers, 0, now)
    {
      hide ObserveAt, Valid, Value, Shaped, Repr, BlockObjects, Separate, EngineInv;
      ValidShapes();
      error := None;
      var j := 0;
      while j < |consumers|
        invariant 0 <= j <= |consumers| && Valid() && Shaped(plan, Value()) && error.None?
        invariant Refresh(plan, Value(), execs, value, consumers, j, now) == Refresh(plan, old(Value()), execs, value, consumers, 0, now)
      {
        var c := BlockPosition(plan.config.blocks, consumers[j].block);
        if c.Some? {
          var h := ObserveInput(c.value, consumers[j].endpoint, value, now);
          ValidShapes();
          if h.Failed? { return Some(BlockError(consumers[j].block, h.error)); }
        }
        j := j + 1;
      }
    }

    method DeliverAll(executions: seq<BlockExecution>, k: nat, value: TypedValue, consumers: seq<EndpointRef>, now: MonotonicMs, utc: Option<int>)
      returns (execs: seq<BlockExecution>, error: Option<RuntimeEventError>)
      requires Valid() && k < |executions|
      modifies Repr()
      ensures Valid() && Shaped(plan, old(Value()))
      ensures Outcome(Value(), execs, error) == Deliver(plan, old(Value()), executions, k, value, consumers, 0, now, utc)
      decreases Slack(plan, executions), 1, 1
    {
      hide DeliverOne, Valid, Value, Shaped, Repr;
      ValidShapes();
      execs, error := executions, None;
      var j := 0;
      while j < |consumers|
        invariant 0 <= j <= |consumers| && Valid() && Shaped(plan, Value()) && Grown(executions, execs) && error.None?
        invariant Deliver(plan, Value(), execs, k, value, consumers, j, now, utc)
               == Deliver(plan, old(Value()), executions, k, value, consumers, 0, now, utc)
      {
        execs, error := DeliverTo(execs, k, value, consumers[j], now, utc);
        ValidShapes();
        if error.Some? { return; }
        j := j + 1;
      }
    }

    lemma SlackShrinks(executions: seq<BlockExecution>, execs: seq<BlockExecution>)
      requires |executions| < plan.host.limits.maxCascadeExecutions && |execs| == |executions| + 1
      ensures Slack(plan, execs) < Slack(plan, executions)
    {
    }

    method DeliverTo(executions: seq<BlockExecution>, k: nat, value: TypedValue, consumer: EndpointRef, now: MonotonicMs, utc: Option<int>)
      returns (execs: seq<BlockExecution>, error: Option<RuntimeEventError>)
      requires Valid() && k < |executions|
      modifies Repr()
      ensures Valid() && Shaped(plan, old(Value()))
      ensures Outcome(Value(), execs, error) == DeliverOne(plan, old(Value()), executions, k, value, consumer, now, utc)
      decreases Slack(plan, executions), 0, 0
    {
      hide HandTo, Valid, Value, Shaped, PropagateOutputs, BlockObjects, Slack;
      ValidShapes();
      execs, error := executions, None;
      var c := BlockPosition(plan.config.blocks, consumer.block);
      if c.None? { return; }
      var maximum := plan.host.limits.maxCascadeExecutions;
      var runnable := blocks[c.value].enabled && blocks[c.value].health == Active;
      if runnable && |executions| >= maximum {
        return executions, Some(CascadeLimitReached(|executions| + 1, maximum));
      }
      RunnableOnlyExecutes(plan, Value(), c.value, consumer.endpoint, value, now, utc);
      var h := HandOver(c.value, consumer.endpoint, value, now, utc);
      match h {
        case Failed(refusal) => error := Some(BlockError(consumer.block, refusal));
        case Saw =>
        case Ran(execution) =>
          var child := AssignExecutionId(execution, executions[k].execution.id);
          execs := executions + [BlockExecution(consumer.block, child)];
          assert Slack(plan, execs) < Slack(plan, executions) by { SlackShrinks(executions, execs); }
          execs, error := PropagateFrom(execs, |executions|, now, utc);
      }
    }

    // ----- checkpoints and budgets -------------------------------------------------------------

    method RestoreBlock(c: nat, saved: BlockState)
      requires Valid() && c < |blocks| && EngineInv(plan.host.limits, plan.config.blocks[c].endpoints, saved.engine)
      modifies BlockObjects()
      ensures Valid() && Shaped(plan, old(Value())) && Value() == WithBlock(old(Value()), c, saved)
    {
      hide EngineInv;
      ValidShapes();
      OtherBlocksApart(c);
      Apart();
      label before:
      blocks[c].Restore(saved);
      BlockReplaced@before(c);
    }

    method RestoreRest(saved: RuntimeState)
      requires Valid() && |saved.signals| == |signals|
      modifies this
      ensures Valid() && Value() == saved.(blocks := old(Value()).blocks)
    {
      hide EngineInv, Separate;
      Apart();
      signals, lastAcceptedAt, nextExecutionId, schedules := saved.signals, saved.lastAcceptedAt, saved.nextExecutionId, saved.schedules;
    }

    /** Puts back a checkpoint taken with `Value`. */
    method Restore(saved: RuntimeState)
      requires Valid() && EnginesOk(plan, saved)
      modifies Repr()
      ensures Valid() && Value() == saved
    {
      hide EngineInv, Valid, Value, BlockObjects;
      ValidShapes();
      var i := 0;
      while i < |blocks|
        invariant 0 <= i <= |blocks| && Valid() && |Value().blocks| == |blocks|
        invariant forall j :: 0 <= j < i ==> Value().blocks[j] == saved.blocks[j]
      {
        RestoreBlock(i, saved.blocks[i]);
        i := i + 1;
      }
      assert Value().blocks == saved.blocks;
      ValidShapes();
      RestoreRest(saved);
    }

    method UsageTotals() returns (sources: nat, state: nat, timers: nat)
      requires Valid()
      ensures Valid() && Value() == old(Value())
      ensures sources == SourceTotal(Value().blocks) && state == StateTotal(Value().blocks) && timers == TimersTotal(Value().blocks)
    {
      hide EngineInv;
      ValidShapes();
      ghost var values := Value().blocks;
      sources, state, timers := 0, 0, 0;
      var i := 0;
      while i < |blocks|
        invariant 0 <= i <= |blocks| && Valid() && Value() == old(Value())
        invariant sources == SourceTotal(values[..i]) && state == StateTotal(values[..i]) && timers == TimersTotal(values[..i])
      {
        assert values[..i + 1][..i] == values[..i] && values[i] == blocks[i].Value();
        var bytes := StateBytes(blocks[i].engine.state);
        sources := sources + |blocks[i].engine.logic.source|;
        state := state + bytes;
        timers := timers + |blocks[i].engine.timers|;
        i := i + 1;
      }
      assert values[..i] == values;
    }

    method ValidateUsage() returns (error: Option<RuntimeEventError>)
      requires Valid()
      ensures Valid() && Value() == old(Value()) && error == UsageError(plan.host.limits, Value())
    {
      hide Valid, Value, Repr;
      var limits := plan.host.limits;
      var sources, state, timers := UsageTotals();
      if sources > limits.maxLogicSourceBytesTotal { return Some(ResourceLimit(LogicSource, sources, limits.maxLogicSourceBytesTotal)); }
      if state > limits.maxStateBytesTotal { return Some(ResourceLimit(StateData, state, limits.maxStateBytesTotal)); }
      if timers > limits.maxPendingTimersTotal { return Some(ResourceLimit(TimerCount, timers, limits.maxPendingTimersTotal)); }
      error := None;
    }

    /** Follows a root execution; any failure but the cascade limit restores
        the checkpoint. */
    method FollowRoot(checkpoint: RuntimeState, x: BlockExecution, now: MonotonicMs, utc: Option<int>)
      returns (r: Result<seq<BlockExecution>, RuntimeEventError>)
      requires Valid() && EnginesOk(plan, checkpoint) && Known(plan, x.block)
      modifies Repr()
      ensures Valid() && Shaped(plan, old(Value())) && EventResult(Value(), r) == Follow(plan, checkpoint, old(Value()), x, now, utc)
    {
      hide Valid, Value, Repr, Propagate, UsageError, Known;
      ValidShapes();
      assert [x][0] == x;
      var execs, error := PropagateFrom([x], 0, now, utc);
      if error.Some? {
        if RollsBack(error.value) { Restore(checkpoint); }
        return Err(error.value);
      }
      error := ValidateUsage();
      if error.Some? {
        Restore(checkpoint);
        return Err(error.value);
      }
      r := Ok(execs);
    }

    // ----- roots -------------------------------------------------------------------------------

    method NameRoot(id: BlockId, execution: Execution) returns (r: Result<Option<BlockExecution>, RuntimeEventError>)
      requires Valid()
      modifies this`nextExecutionId
      ensures Valid() && Root(Value(), r) == RootExecution(old(Value()), id, execution)
    {
      hide Valid, Value;
      var named := AssignExecutionId(execution, None);
      r := Ok(Some(BlockExecution(id, named)));
    }

    method InputRoot(id: BlockId, endpoint: EndpointName, update: InputUpdate, now: MonotonicMs, utc: Option<int>)
      returns (r: Result<Option<BlockExecution>, RuntimeEventError>)
      requires Valid()
      modifies Repr()
      ensures Valid() && Shaped(plan, old(Value())) && Root(Value(), r) == UpdateRoot(plan, old(Value()), id, endpoint, update, now, utc)
    {
      hide UpdateBlock, Valid, Value;
      ValidShapes();
      ClockIs();
      var at := BlockPosition(plan.config.blocks, id);
      if at.None? { return Err(UnknownBlock(id)); }
      var checked := ValidateUpdate(plan.config.blocks[at.value].endpoints, endpoint, update);
      if checked.Err? { return Err(BlockError(id, checked.error)); }
      if lastAcceptedAt.Some? && now < lastAcceptedAt.value { return Err(TimeWentBackwards(Some(id), lastAcceptedAt.value, now)); }
      r := UpdateOneBlock(at.value, endpoint, update, now, utc);
    }

    method AcceptTime(now: MonotonicMs)
      requires Valid()
      modifies this`lastAcceptedAt
      ensures Valid() && Value() == old(Value()).(lastAcceptedAt := Some(now))
    {
      Apart();
      lastAcceptedAt := Some(now);
    }

    lemma ClockIs()
      ensures Value().lastAcceptedAt == lastAcceptedAt
    {
    }

    method UpdateOneBlock(c: nat, endpoint: EndpointName, update: InputUpdate, now: MonotonicMs, utc: Option<int>)
      returns (r: Result<Option<BlockExecution>, RuntimeEventError>)
      requires Valid() && c < |blocks|
      modifies Repr()
      ensures Valid() && Shaped(plan, old(Value())) && Root(Value(), r) == UpdateBlock(plan, old(Value()), c, endpoint, update, now, utc)
    {
      hide ProcessUpdate, Admit, Record, Valid, Value, Shaped, BlockObjects;
      ghost var was := Value();
      ValidShapes();
      var effective := update;
      if update.TriggerWith? && blocks[c].enabled && blocks[c].health == Active {
        var admitted := AdmitBlock(c, now);
        if !admitted { effective := Observe(update.value); }
      } else if update.TriggerWith? {
        effective := Observe(update.value);
      }
      ghost var ready := Value();
      ValidShapes();
      assert forall x: BlockState :: WithBlock(ready, c, x) == WithBlock(was, c, x);
      var id := plan.config.blocks[c].id;
      var step := ApplyUpdate(c, endpoint, effective, now, utc);
      if step.Err? { return Err(BlockError(id, step.error)); }
      AcceptTime(now);
      if step.value.None? { return Ok(None); }
      r := NameRoot(id, step.value.value);
    }

    // ----- timers ------------------------------------------------------------------------------

    method BestTimerOf(c: nat, now: MonotonicMs, best: Option<(nat, TimerKey)>) returns (r: Option<(nat, TimerKey)>)
      requires Valid() && Shaped(plan, Value()) && DistinctBlocks(plan.config.blocks) && c < |blocks| == |Value().blocks|
      requires BestSoFar(plan, Value(), now, c, Value().blocks[c].engine.timers.Keys, best)
      ensures Valid() && Value() == old(Value()) && BestSoFar(plan, Value(), now, c, {}, r)
    {
      hide Valid, Value, Shaped, BestSoFar, BlockObjects;
      ValidShapes();
      r := best;
      ghost var s := Value();
      var timers := blocks[c].engine.timers;
      var runnable := blocks[c].enabled && blocks[c].health == Active;
      var id := plan.config.blocks[c].id;
      var rest := timers.Keys;
      while rest != {}
        invariant rest <= timers.Keys && BestSoFar(plan, s, now, c, rest, r) && Valid() && Value() == s
        decreases rest
      {
        var n :| n in rest;
        var key := TimerKey(timers[n].dueAt, id, n);
        TimerVisited(s, now, c, rest, n, key, r);
        if runnable && timers[n].dueAt <= now && (r.None? || KeyBefore(key, r.value.1)) { r := Some((c, key)); }
        rest := rest - {n};
      }
    }

    lemma TimerVisited(s: RuntimeState, now: MonotonicMs, c: nat, rest: set<TimerName>, n: TimerName, key: TimerKey, best: Option<(nat, TimerKey)>)
      requires Shaped(plan, s) && DistinctBlocks(plan.config.blocks) && c < |s.blocks| && n in s.blocks[c].engine.timers && n in rest
      requires key == KeyOf(plan, s, c, n) && BestSoFar(plan, s, now, c, rest, best)
      ensures BestSoFar(plan, s, now, c, rest - {n},
                        if CanFire(s, now, c, n) && (best.None? || KeyBefore(key, best.value.1)) then Some((c, key)) else best)
    {
      if best.Some? && CanFire(s, now, c, n) && (best.value.0 != c || best.value.1.name != n) {
        KeysDiffer(plan, s, best.value.0, best.value.1.name, c, n);
      }
    }

    method SelectFirstBlock(now: MonotonicMs) returns (first: Option<nat>)
      requires Valid() && DistinctBlocks(plan.config.blocks)
      ensures Valid() && Value() == old(Value()) && Shaped(plan, Value()) && first == FirstBlock(plan, Value(), now)
    {
      hide Valid, Value, Repr, Shaped, BestSoFar, FirstBlock;
      ValidShapes();
      ghost var s := Value();
      var best: Option<(nat, TimerKey)> := None;
      NothingBefore(s, now);
      var c := 0;
      while c < |blocks|
        invariant 0 <= c <= |blocks| && Valid() && Value() == s
        invariant BestSoFar(plan, s, now, c, if c < |blocks| then s.blocks[c].engine.timers.Keys else {}, best)
      {
        best := BestTimerOf(c, now, best);
        NextBlockStarts(s, now, c, best);
        c := c + 1;
      }
      BestIsFirst(plan, s, now, best);
      first := if best.None? then None else Some(best.value.0);
    }

    lemma NothingBefore(s: RuntimeState, now: MonotonicMs)
      requires Shaped(plan, s) && |s.blocks| == |blocks|
      ensures BestSoFar(plan, s, now, 0, if 0 < |blocks| then s.blocks[0].engine.timers.Keys else {}, None)
    {
    }

    lemma NextBlockStarts(s: RuntimeState, now: MonotonicMs, c: nat, best: Option<(nat, TimerKey)>)
      requires Shaped(plan, s) && c < |s.blocks| == |blocks| && BestSoFar(plan, s, now, c, {}, best)
      ensures BestSoFar(plan, s, now, c + 1, if c + 1 < |blocks| then s.blocks[c + 1].engine.timers.Keys else {}, best)
    {
    }

    method FireRoot(now: MonotonicMs, utc: Option<int>) returns (r: Result<Option<BlockExecution>, RuntimeEventError>)
      requires Valid() && DistinctBlocks(plan.config.blocks)
      modifies Repr()
      ensures Valid() && Shaped(plan, old(Value())) && Root(Value(), r) == TimerRoot(plan, old(Value()), now, utc)
    {
      hide FireBlock, FirstBlock, Valid, Value, Shaped, BlockObjects;
      ValidShapes();
      ClockIs();
      if lastAcceptedAt.Some? && now < lastAcceptedAt.value { return Err(TimeWentBackwards(None, lastAcceptedAt.value, now)); }
      var first := SelectFirstBlock(now);
      if first.None? {
        AcceptTime(now);
        return Ok(None);
      }
      r := FireOneBlock(first.value, now, utc);
    }

    method FireOneBlock(c: nat, now: MonotonicMs, utc: Option<int>) returns (r: Result<Option<BlockExecution>, RuntimeEventError>)
      requires Valid() && c < |blocks|
      modifies Repr()
      ensures Valid() && Shaped(plan, old(Value())) && Root(Value(), r) == FireBlock(plan, old(Value()), c, now, utc)
    {
      hide ProcessTimer, Admit, Record, Valid, Value, Shaped, BlockObjects;
      ghost var was := Value();
      ValidShapes();
      var admitted := AdmitBlock(c, now);
      ghost var ready := Value();
      ValidShapes();
      assert forall x: BlockState :: WithBlock(ready, c, x) == WithBlock(was, c, x);
      if !admitted {
        AcceptTime(now);
        return Ok(None);
      }
      var id := plan.config.blocks[c].id;
      var step := FireEngineTimer(c, now, utc);
      if step.Err? { return Err(BlockError(id, step.error)); }
      AcceptTime(now);
      if step.value.None? { return Ok(None); }
      r := NameRoot(id, step.value.value);
    }

    /** `next_timer_deadline`. */
    method NextTimerDeadline() returns (deadline: Option<MonotonicMs>)
      requires Valid()
      ensures Valid() && Value() == old(Value()) && IsDeadline(Value(), deadline)
    {
      hide EngineInv;
      ValidShapes();
      ghost var s := Value();
      deadline := None;
      var c := 0;
      while c < |blocks|
        invariant 0 <= c <= |blocks| && Valid() && Value() == s
        invariant deadline.Some? ==> AwaitedAt(s, deadline.value)
        invariant forall d: nat, n: TimerName :: d < c && Awaited(s, d, n) ==> deadline.Some? && deadline.value <= s.blocks[d].engine.timers[n].dueAt
      {
        if blocks[c].enabled { deadline := EarlierOf(s, c, blocks[c].engine.timers, deadline); }
        c := c + 1;
      }
    }

    /** The earlier of `deadline` and the deadlines of one block. */
    method EarlierOf(ghost s: RuntimeState, c: nat, timers: Timers, deadline: Option<MonotonicMs>) returns (r: Option<MonotonicMs>)
      requires c < |s.blocks| && s.blocks[c].enabled && timers == s.blocks[c].engine.timers
      requires deadline.Some? ==> AwaitedAt(s, deadline.value)
      ensures r.Some? ==> AwaitedAt(s, r.value)
      ensures deadline.Some? ==> r.Some? && r.value <= deadline.value
      ensures forall n :: n in timers ==> r.Some? && r.value <= timers[n].dueAt
    {
      r := deadline;
      var rest := timers.Keys;
      while rest != {}
        invariant rest <= timers.Keys
        invariant r.Some? ==> AwaitedAt(s, r.value)
        invariant deadline.Some? ==> r.Some? && r.value <= deadline.value
        invariant forall n :: n in timers && n !in rest ==> r.Some? && r.value <= timers[n].dueAt
        decreases rest
      {
        var n :| n in rest;
        assert Awaited(s, c, n);
        if r.None? || timers[n].dueAt < r.value { r := Some(timers[n].dueAt); }
        rest := rest - {n};
      }
    }

    // ----- schedule triggers -------------------------------------------------------------------

    method TriggerRoot(trigger: ScheduleTrigger, now: MonotonicMs) returns (r: Result<Option<BlockExecution>, RuntimeEventError>)
      requires Valid()
      modifies Repr()
      ensures Valid() && Shaped(plan, old(Value())) && Root(Value(), r) == ScheduleRoot(plan, old(Value()), trigger, now)
    {
      hide RunSchedule, Valid, Value, Shaped, BlockObjects;
      ValidShapes();
      ClockIs();
      if lastAcceptedAt.Some? && now < lastAcceptedAt.value { return Err(TimeWentBackwards(None, lastAcceptedAt.value, now)); }
      AcceptTime(now);
      ValidShapes();
      SchedulesAre();
      var at := BlockPosition(plan.config.blocks, trigger.block);
      if at.None? { return Ok(None); }
      if !blocks[at.value].enabled || blocks[at.value].health != Active { return Ok(None); }
      var configured := plan.config.blocks[at.value].schedules;
      var position := SchedulePosition(configured, trigger.name);
      if position.None? || !configured[position.value].enabled { return Ok(None); }
      var key := (trigger.block, trigger.name);
      if key !in schedules.cursors || schedules.cursors[key].structuralRevision != trigger.structuralRevision { return Ok(None); }
      r := RunOneSchedule(at.value, trigger, now);
    }

    lemma SchedulesAre()
      ensures Value().schedules == schedules
    {
    }

    method RunOneSchedule(c: nat, trigger: ScheduleTrigger, now: MonotonicMs) returns (r: Result<Option<BlockExecution>, RuntimeEventError>)
      requires Valid() && c < |blocks|
      modifies Repr()
      ensures Valid() && Shaped(plan, old(Value())) && Root(Value(), r) == RunSchedule(plan, old(Value()), c, trigger, now)
    {
      hide Evaluate, Admit, Record, Valid, Value, Shaped, BlockObjects;
      ghost var was := Value();
      ValidShapes();
      var admitted := AdmitBlock(c, now);
      ghost var ready := Value();
      ValidShapes();
      assert forall x: BlockState :: WithBlock(ready, c, x) == WithBlock(was, c, x);
      if !admitted { return Ok(None); }
      var execution := RunEngineSchedule(c, trigger, now);
      r := NameRoot(plan.config.blocks[c].id, execution);
    }

    // ----- entry points ------------------------------------------------------------------------

    /** `process_input_update_sampled` with its cascade. */
    method ProcessInputUpdate(id: BlockId, endpoint: EndpointName, update: InputUpdate, now: MonotonicMs, utc: Option<int>)
      returns (r: Result<seq<BlockExecution>, RuntimeEventError>)
      requires Valid() && DistinctBlocks(plan.config.blocks)
      modifies Repr()
      ensures Valid() && Shaped(plan, old(Value())) && EventResult(Value(), r) == InputEvent(plan, old(Value()), id, endpoint, update, now, utc)
    {
      hide UpdateRoot, Follow, Valid, Value, Shaped, BlockObjects;
      ValidShapes();
      RootsAreKnown(plan, Value());
      var checkpoint := Value();
      var root := InputRoot(id, endpoint, update, now, utc);
      if root.Err? {
        Restore(checkpoint);
        return Err(root.error);
      }
      if root.value.None? { return Ok([]); }
      r := FollowRoot(checkpoint, root.value.value, now, utc);
    }

    /** `process_next_due_timer_cascade_sampled`. */
    method ProcessNextDueTimer(now: MonotonicMs, utc: Option<int>) returns (r: Result<seq<BlockExecution>, RuntimeEventError>)
      requires Valid() && DistinctBlocks(plan.config.blocks)
      modifies Repr()
      ensures Valid() && Shaped(plan, old(Value())) && EventResult(Value(), r) == TimerEvent(plan, old(Value()), now, utc)
    {
      hide TimerRoot, Follow, Valid, Value, Shaped, BlockObjects;
      ValidShapes();
      RootsAreKnown(plan, Value());
      var checkpoint := Value();
      var root := FireRoot(now, utc);
      if root.Err? { return Err(root.error); }
      if root.value.None? { return Ok([]); }
      r := FollowRoot(checkpoint, root.value.value, now, utc);
    }

    /** `process_schedule_cascade_sampled`. */
    method ProcessSchedule(trigger: ScheduleTrigger, now: MonotonicMs, utc: Option<int>) returns (r: Result<seq<BlockExecution>, RuntimeEventError>)
      requires Valid() && DistinctBlocks(plan.config.blocks)
      modifies Repr()
      ensures Valid() && Shaped(plan, old(Value())) && EventResult(Value(), r) == ScheduleEvent(plan, old(Value()), trigger, now, utc)
    {
      hide ScheduleRoot, Follow, Valid, Value, Shaped, BlockObjects;
      ValidShapes();
      RootsAreKnown(plan, Value());
      var checkpoint := Value();
      var root := TriggerRoot(trigger, now);
      if root.Err? { return Err(root.error); }
      if root.value.None? { return Ok([]); }
      r := FollowRoot(checkpoint, root.value.value, now, utc);
    }

    // ----- operations that run no handler ------------------------------------------------------

    method ResumeBlockHealth(id: BlockId) returns (r: Result<seq<BlockExecution>, RuntimeEventError>)
      requires Valid()
      modifies Repr()
      ensures Valid() && Shaped(plan, old(Value())) && EventResult(Value(), r) == ResumeEvent(plan, old(Value()), id)
    {
      hide EngineInv;
      ValidShapes();
      var at := BlockPosition(plan.config.blocks, id);
      if at.None? { return Err(UnknownBlock(id)); }
      OtherBlocksApart(at.value);
      label before:
      blocks[at.value].ResetBlockHealth();
      BlockReplaced@before(at.value);
      r := Ok([]);
    }

    method SwitchBlock(c: nat, update: BlockActivation) returns (switched: bool)
      requires Valid() && c < |blocks|
      modifies BlockObjects()
      ensures Valid() && Shaped(plan, old(Value()))
      ensures switched == (update.enabled.Some? && update.enabled.value != old(Value()).blocks[c].enabled)
      ensures Value() == WithBlock(old(Value()), c, ActivateBlock(plan, old(Value()).blocks[c], update))
    {
      hide EngineInv, ResetHealth, SetEnabled, ActivateProgram;
      ValidShapes();
      OtherBlocksApart(c);
      Apart();
      switched := update.enabled.Some? && update.enabled.value != blocks[c].enabled;
      label before:
      if update.source.Some? {
        EnabledKept(blocks[c].Value(), ProgramOf(plan, update.source.value));
        var changed, cancelled := blocks[c].InstallProgram(ProgramOf(plan, update.source.value));
      }
      if switched { blocks[c].SwitchEnabled(update.enabled.value); }
      BlockReplaced@before(c);
    }

    lemma EnabledKept(b: BlockState, program: LogicProgram)
      ensures ActivateProgram(b, program).enabled == b.enabled
    {
    }

    method ActivateOneBlock(update: BlockActivation)
      requires Valid()
      modifies Repr()
      ensures Valid() && Shaped(plan, old(Value())) && Value() == ActivateOne(plan, old(Value()), update)
    {
      hide Valid, Value, Shaped, ActivateBlock, FlagCursors;
      ValidShapes();
      var at := BlockPosition(plan.config.blocks, update.block);
      if at.None? { return; }
      var switched := SwitchBlock(at.value, update);
      if switched { FlagBlockCursors(update.block); }
    }

    method FlagBlockCursors(id: BlockId)
      requires Valid()
      modifies this`schedules
      ensures Valid() && Value() == old(Value()).(schedules := FlagCursors(old(Value()).schedules, id))
    {
      Apart();
      schedules := FlagCursors(schedules, id);
    }

    /** `activate`: the whole batch is checked before anything changes. */
    method Activate(updates: seq<BlockActivation>) returns (error: Option<ActivationError>)
      requires Valid()
      modifies Repr()
      ensures Valid() && Shaped(plan, old(Value())) && (Value(), error) == ActivationEvent(plan, old(Value()), updates)
    {
      hide Valid, Value, Shaped, Repr, ActivateOne, CheckActivation;
      ValidShapes();
      var i := 0;
      while i < |updates|
        invariant 0 <= i <= |updates| && CheckActivations(plan, updates, i) == CheckActivations(plan, updates, 0)
        invariant Valid() && Value() == old(Value())
      {
        error := CheckActivation(plan, updates, i);
        if error.Some? { return; }
        i := i + 1;
      }
      error := None;
      i := 0;
      while i < |updates|
        invariant 0 <= i <= |updates| && Valid() && Shaped(plan, Value())
        invariant ActivateAll(plan, Value(), updates[i..]) == ActivateAll(plan, old(Value()), updates)
      {
        assert updates[i..][1..] == updates[i + 1..];
        ActivateOneBlock(updates[i]);
        ValidShapes();
        i := i + 1;
      }
    }

    // ----- schedules ---------------------------------------------------------------------------

    method SetSchedules(now: MonotonicMs, changed: ScheduleState)
      requires Valid()
      modifies this`schedules, this`lastAcceptedAt
      ensures Valid() && Value() == Clock(old(Value()), now, changed)
    {
      Apart();
      lastAcceptedAt := Some(now);
      schedules := changed;
    }

    method Initialise(now: MonotonicMs, utc: Option<int>, revision: nat) returns (error: Option<TimeError>)
      requires Valid()
      modifies Repr()
      ensures Valid() && Shaped(plan, old(Value())) && (Value(), error) == InitialiseSchedules(plan, old(Value()), now, utc, revision)
    {
      hide EngineInv, Separate, Shaped, ScheduleSlots, Updated;
      ValidShapes();
      ClockIs();
      if lastAcceptedAt.Some? && now < lastAcceptedAt.value { return Some(ScheduleTimeWentBackwards(lastAcceptedAt.value, now)); }
      var cursors := BeginCursors(plan.config.site, revision, ScheduleSlots(plan, Value()), utc);
      SetSchedules(now, ScheduleState(cursors, Some(revision), utc));
      error := if utc.None? then Some(ClockUnavailable) else None;
    }

    /** `poll_schedules`, with rules that have been validated. */
    method Poll(now: MonotonicMs, utc: Option<int>) returns (r: Result<seq<ScheduleTrigger>, TimeError>)
      requires Valid() && |Value().blocks| == |plan.config.blocks| && PollReturns(plan, Value(), now, utc)
      requires forall b, sc :: b in plan.config.blocks && sc in b.schedules ==> ValidRule(sc.rule)
      modifies Repr()
      ensures Valid() && Shaped(plan, old(Value())) && (Value(), r) == PollSchedules(plan, old(Value()), now, utc)
    {
      hide EngineInv, Separate, Shaped, ScheduleSlots, Updated, Fired;
      ValidShapes();
      ClockIs();
      SchedulesAre();
      if lastAcceptedAt.Some? && now < lastAcceptedAt.value { return Err(ScheduleTimeWentBackwards(lastAcceptedAt.value, now)); }
      var revision := schedules.structuralRevision;
      if utc.None? {
        SetSchedules(now, ScheduleState(FlagAll(schedules.cursors), revision, None));
        return Ok([]);
      }
      var slots := ScheduleSlots(plan, Value());
      SlotRules();
      var cursors := schedules.cursors;
      if ClockJumped(schedules.lastWallClock, utc.value) {
        cursors := RecomputeCursors(plan.config.site, cursors, revision, slots, utc.value);
      }
      var triggers;
      cursors, triggers := PollCursors(plan.config.site, cursors, revision, slots, utc.value);
      SetSchedules(now, ScheduleState(cursors, revision, utc));
      r := Ok(SortTriggers(triggers));
    }

    lemma SlotRules()
      requires Valid() && forall b, sc :: b in plan.config.blocks && sc in b.schedules ==> ValidRule(sc.rule)
      ensures Shaped(plan, Value())
      ensures forall i :: 0 <= i < |ScheduleSlots(plan, Value())| ==> ValidRule(ScheduleSlots(plan, Value())[i].rule)
    {
      var s := Value();
      forall i | 0 <= i < |ScheduleSlots(plan, s)| ensures ValidRule(ScheduleSlots(plan, s)[i].rule) {
        var slot := ScheduleSlots(plan, s)[i];
        SlotsComplete(plan.config.blocks, s.blocks, |s.blocks|, slot);
        assert slot in ScheduleSlots(plan, s);
        var b, j :| 0 <= b < |s.blocks| && 0 <= j < |plan.config.blocks[b].schedules| && slot == SlotAt(plan.config.blocks[b], s.blocks[b].enabled, j);
        assert plan.config.blocks[b] in plan.config.blocks && plan.config.blocks[b].schedules[j] in plan.config.blocks[b].schedules;
      }
    }

    /** `next_schedule_deadline`. */
    method NextScheduleDeadline() returns (earliest: Option<int>)
      requires Valid()
      ensures Valid() && Value() == old(Value()) && Shaped(plan, Value())
      ensures EarliestPending(Value().schedules.cursors, ScheduleSlots(plan, Value()), |ScheduleSlots(plan, Value())|, earliest)
    {
      hide EngineInv, Separate, ScheduleSlots;
      ValidShapes();
      earliest := NextDeadline(schedules.cursors, ScheduleSlots(plan, Value()));
    }

    method Rebaseline(id: BlockId, now: MonotonicMs, utc: Option<int>) returns (error: Option<TimeError>)
      requires Valid()
      modifies Repr()
      ensures Valid() && Shaped(plan, old(Value())) && (Value(), error) == RebaselineBlock(plan, old(Value()), id, now, utc)
    {
      hide EngineInv, Separate, Shaped, RebasedSlots, ScheduleSlots;
      ValidShapes();
      ClockIs();
      SchedulesAre();
      if lastAcceptedAt.Some? && now < lastAcceptedAt.value { return Some(ScheduleTimeWentBackwards(lastAcceptedAt.value, now)); }
      var known := BlockPosition(plan.config.blocks, id).Some?;
      var rebased := schedules;
      if known { rebased := RebaseSchedules(plan.config.site, schedules, ScheduleSlots(plan, Value()), id, utc); }
      SetSchedules(now, rebased);
      error := if known then None else Some(UnknownScheduleBlock(id));
    }

    // ----- simulation --------------------------------------------------------------------------

    method ListEnabled(consumers: seq<EndpointRef>) returns (enabled: seq<EndpointRef>)
      requires Valid() && |Value().blocks| == |plan.config.blocks|
      ensures enabled == EnabledConsumers(plan, Value(), consumers, |consumers|)
    {
      hide Valid, Value;
      ValidShapes();
      enabled := [];
      var n := 0;
      while n < |consumers|
        invariant 0 <= n <= |consumers| && enabled == EnabledConsumers(plan, Value(), consumers, n)
      {
        var c := BlockPosition(plan.config.blocks, consumers[n].block);
        if c.Some? && blocks[c.value].enabled { enabled := enabled + [consumers[n]]; }
        n := n + 1;
      }
    }

    method AnnotateOutput(id: BlockId, output: OutputEffect) returns (effects: seq<SignalEffect>, eligible: seq<EndpointRef>)
      requires Valid() && Known(plan, id)
      ensures Valid() && Value() == old(Value()) && Shaped(plan, Value())
      ensures effects == Recorded(plan, Value(), id, output, None) && eligible == EligibleFor(plan, Value(), id, output)
    {
      hide EngineInv, Known, EnabledConsumers;
      ValidShapes();
      effects, eligible := [], [];
      var at := SignalOf(plan, id, output.endpoint);
      if at.None? { return; }
      var name := plan.config.signals[at.value].name;
      var consumers := Consumers(plan, name);
      var changed := signals[at.value].value != Some(output.value);
      effects := [SignalEffect(name, output.value, changed, EndpointRef(id, output.endpoint), None, consumers)];
      if changed { eligible := ListEnabled(consumers); }
    }

    /** `annotate_simulation`: the effects the outputs would have on the signals
        as they are now. */
    method AnnotateSimulation(id: BlockId, execution: Execution) returns (annotated: Execution)
      requires Valid() && Known(plan, id)
      ensures Valid() && Value() == old(Value()) && Shaped(plan, Value())
      ensures annotated == if execution.outcome.Err? then execution
              else var outputs := execution.outcome.value.outputs;
                   execution.(signalEffects := Predicted(plan, Value(), id, outputs, 0, None),
                              eligibleConsumers := SimulatedEligible(plan, Value(), id, outputs, 0))
    {
      hide Valid, Value, Shaped, Recorded, EligibleFor, Known;
      ValidShapes();
      if execution.outcome.Err? { return execution; }
      var outputs := execution.outcome.value.outputs;
      var effects, eligible := [], [];
      ghost var s := Value();
      var i := 0;
      while i < |outputs|
        invariant 0 <= i <= |outputs| && Valid() && Value() == s
        invariant effects + Predicted(plan, s, id, outputs, i, None) == Predicted(plan, s, id, outputs, 0, None)
        invariant eligible + SimulatedEligible(plan, s, id, outputs, i) == SimulatedEligible(plan, s, id, outputs, 0)
      {
        var more, enabled := AnnotateOutput(id, outputs[i]);
        ghost var rest := Predicted(plan, s, id, outputs, i + 1, None);
        assert (effects + more) + rest == effects + (more + rest);
        ghost var later := SimulatedEligible(plan, s, id, outputs, i + 1);
        assert (eligible + enabled) + later == eligible + (enabled + later);
        effects := effects + more;
        eligible := eligible + enabled;
        i := i + 1;
      }
      assert effects + [] == effects && eligible + [] == eligible;
      annotated := execution.(signalEffects := effects, eligibleConsumers := eligible);
    }

    /** `simulate_input_with_state`: an unknown block or an unacceptable
        scenario is refused, and nothing is changed either way. */
    method SimulateInput(id: BlockId, scenario: SimulationScenario, state: State, timers: seq<PendingTimer>, now: MonotonicMs)
      returns (r: Result<BlockExecution, RuntimeSimulationError>)
      requires Valid()
      ensures Valid() && Value() == old(Value()) && Shaped(plan, Value())
      ensures r == Err(UnknownSimulationBlock(id)) <==> !Known(plan, id)
      ensures Known(plan, id) ==>
              var c := BlockPosition(plan.config.blocks, id).value;
              var endpoints, logic := plan.config.blocks[c].endpoints, Value().blocks[c].engine.logic;
              && (r.Ok? <==> ScenarioAccepted(plan.host, endpoints, logic, scenario, state, timers))
              && (r.Ok? ==> var sim := Simulated(plan.host, endpoints, logic, scenario, state, timers, now);
                            && r.value.block == id && Bare(r.value.execution) == Bare(sim)
                            && (sim.outcome.Err? ==> r.value.execution == sim)
                            && (sim.outcome.Ok? ==>
                                  && r.value.execution.signalEffects == Predicted(plan, Value(), id, sim.outcome.value.outputs, 0, None)
                                  && r.value.execution.eligibleConsumers == SimulatedEligible(plan, Value(), id, sim.outcome.value.outputs, 0)))
    {
      hide EngineInv, Simulated, ScenarioAccepted, Predicted, SimulatedEligible;
      ValidShapes();
      if BlockPosition(plan.config.blocks, id).None? { return Err(UnknownSimulationBlock(id)); }
      var c := BlockPosition(plan.config.blocks, id).value;
      var simulated := SimulateInputWithState(plan.host, plan.config.blocks[c].endpoints, blocks[c].engine.logic, scenario, state, timers, now);
      if simulated.Err? { return Err(RefusedSimulation(id, simulated.error)); }
      var annotated := AnnotateSimulation(id, simulated.value);
      r := Ok(BlockExecution(id, annotated));
    }
  }
}