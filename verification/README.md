# The LogikSmith core, modelled and proved

This project models the behaviour of the LogikSmith automation core in Dafny and
proves what the core promises: the multi-block signal-cascade runtime, the
schedule engine, and two arithmetic codecs. Verify everything with
`dafny verify dfyconfig.toml`.

A *runtime* owns logic blocks. Each block has an engine (typed inputs, transient
state, named timers, a program), a health and a rate window. Global signals
connect one producing output endpoint to many consuming input endpoints.
Validation derives a graph of blocks from the bindings, rejects cycles and bounds
the unfolded cascade of every block. At run time the outputs of an execution
update signals, and a changed value reaches its consumers depth-first; blocks
that are disabled, suspended or over their rate only observe it. Schedules keep
one cursor each and deliver only the latest due occurrence.

## How it is organised

| file | part |
|---|---|
| `values`, `transient_state`, `lua_conversion`, `conversion_meaning`, `doubles`, `temperatures` | values, state and timers, the conversion of a raw handler result and what it means, and the rounding of temperatures |
| `signal_graph`, `configuration`, `topology`, `plan_facts` | the block graph, validation, and what validation implies for the runtime |
| `engine`, `handler_calls`, `logic_block` | one engine and one block: functions of their state, classes proved equal to them, and what a handler is given |
| `cascade`, `cascade_order`, `cascade_safety`, `signal_agreement`, `cascade_induction`, `eligible_runs`, `signal_effects` | propagation, and the inductions over it |
| `runtime_events`, `runtime_safety`, `budgets`, `event_executions`, `activation`, `activation_effects`, `activation_growth`, `timer_drain` | the entry points and what each guarantees |
| `simulation`, `timer_simulation`, `scenario_states`, `eligibility`, `suspended_consumer` | simulations and how they relate to live executions |
| `schedule_rules`, `schedule_cursors`, `solar_sites`, `schedule_polling` | occurrences, one cursor as a machine, sites as the solar equations give them, and the runtime as a product of machines |
| `runtime_runs`, `run_agreement`, `rate_limit`, `schedule_runs`, `schedule_delivery`, `schedule_conservation` | theorems over every run of host calls from a fresh runtime |
| `runtime` | the runtime object, updated in place, proved equal to the functions above |
| `civil`, `knx_payloads` | civil dates, and KNX payloads (KNX Standard 03_07_02 Datapoint Types, section 3.10) |

The classes `Engine`, `LogicBlock` and `Runtime` update their fields in place.
Each of their methods is proved equal to a function of the old state (`Value()`),
and the theorems are about those functions: for every accepted configuration,
every handler (any function of one call's arguments), every input and every run.

## Main results

* **The static bound makes the cascade limit unreachable.** Validation accepts a
  configuration exactly when its declarative conditions hold. From any reachable
  state a cascade never fails, runs at most the unfolded size of its root, and
  keeps the reachable-state invariant (`PropagateCompletes`, `FollowSafe`,
  `RunsAreSafe`).
* **Atomicity.** An event that executes something either succeeds, or changes
  nothing at all (`InputEventSafe`, `TimerEventSafe`, `ScheduleEventSafe`). It
  succeeds exactly if all the program text, state and timers that the blocks hold
  afterwards, counted byte by byte and timer by timer, are within the budgets
  (`BudgetsDecide`, `EventsLeaveBudgets`).
* **Handlers.** An event executes exactly if its block is enabled, not suspended
  and below its rate. Every execution, by input, timer, schedule or signal, calls
  the handler of its block's program with the inputs, state, timers and trigger it
  reports; its outcome is what that call answered, and what it commits is that
  outcome, entry by entry and timer by timer (`InputEventRuns`, `TimerEventRuns`,
  `ScheduleEventRuns`, `HandToRuns`, `EvaluateRuns`, `TimersAsAsked`). A raw result
  is accepted exactly if every table, entry and budget allows it, and the
  transition then says exactly what the handler wrote (`ResultMeans`).
* **Propagation is complete.** Each output of an event's root is announced and its
  signal published;
  every consumer recorded as eligible runs, unless its block ends suspended
  (`RootPublishes`, `EventsServe`).
* **Agreement.** In every state of every run, each consumer holds its signal's
  value and observation time, provided the host leaves signal-bound inputs alone;
  a direct update that succeeds breaks this exactly when it does not repeat a
  signal that has a value (`RunsAgree`, `DirectUpdateDisagrees`).
* **Rate limit.** In every run and every second, a block that is neither resumed
  nor activated in between executes no more often than its limit, whatever
  inputs, timers, schedules and signals trigger it (`RunsRespectTheRateLimit`).
* **Activation.** A batch is accepted exactly if its updates are proper and name
  distinct blocks. In every state of every run each block has the switch and the
  program that the accepted batches gave it last (`AcceptedExactly`,
  `BatchActivates`, `RunsFollowActivations`).
* **Preorder.** The executions an event returns are the depth-first preorder of
  one tree with consecutive identities (`EventsArePreorders`).
* **Simulation.** Simulating the live snapshot of an input or of the next timer
  is accepted and equals the live execution. The effects an input simulation
  reports are those the cascade records, although the cascade runs nested
  executions in between; the consumers it calls eligible contain the live ones,
  and are the same exactly when none of them is suspended as its output is
  followed (`SimulationIsLive`, `TimerSimulationIsLive`,
  `SimulationPredictsTheCascade`, `LiveEligibleWithinSimulated`,
  `LiveEligibleExactly`). The scenarios accepted are exactly the snapshots of
  engines in good order (`AcceptedExactlySnapshots`).
* **Timers drain** within the number of timers due at the start, in strictly
  increasing order, and the engine always fires the timer the runtime chose.
* **Schedules** deliver strictly increasing occurrences over every run of host
  calls, none early and none from before the latest baseline
  (`NothingIsDeliveredTwice`). From any baseline on, while the schedule stays
  enabled and the clock valid and not running backwards, and whatever other calls
  come in between, the triggers handed over stand for every occurrence exactly
  once, each carrying the latest (`RunsConserve`, `EachIsTheLatest`);
  this needs a rule that leaves no gap wider than the search window, and without
  one it fails (`ConservedUnlessAGapIsWide`). The announced deadlines are exact.
  A trigger handed over runs its block when it is processed, until the schedules
  are initialised under another revision (`HandedOverTriggersRun`,
  `StaleTriggersRunNothing`).
* **Codecs.** The civil-date conversions are inverse bijections following the
  calendar; the two-octet float has the least exponent, bounded error, is exact
  on representable values and keeps order.

## Where the code falls short of a promise

* `activate` checks the source budget of each block but not the total. After an
  accepted batch every execution is refused, and undone, exactly when the batch
  outgrows the total (`Activation.ActivationMayOutgrowTheTotal`). It can happen
  with any two loadable sources of which so many short ones fit the total and as
  many long ones do not, and in both shipped profiles: an accepted
  configuration, an accepted batch, and an input answered with the source limit
  (`ActivationGrowth.ActivationStopsTheRuntime`,
  `ActivationGrowth.ShippedProfilesCanBeStopped`).
* A schedule search that finds nothing in its window leaves the cursor without a
  next occurrence, and later polls never search again. Conservation holds for
  every run exactly when the rule leaves no gap wider than the window
  (`ScheduleCursors.ConservedUnlessAGapIsWide`). Interval and fixed rules leave
  none; at a site as the solar equations give it, neither does a rule for all
  weekdays, unless its anchor is crossed only on the 366th day of a year
  (`SolarSites.DailyRulesConserve`). A rule for one weekday can: at 89.95 degrees
  north on the prime meridian the equations give one sunrise a year, on day 78,
  and a rule for Mondays misses the Monday sunrise of 2029
  (`SolarSites.PolarMondaysAreMissed`).
* At the last representable instant an interval search returns that same instant.
  The coalescing loop therefore ends exactly unless an interval rule is polled
  there (`ScheduleCursors.CoalescingEndsExactly`), and the membership test of a
  schedule simulation accepts that instant for interval rules, which no interval
  rule names (`ScheduleRules.OccurrenceTest`).
* The temperature encoder adjusts its mantissa before halving, which overflows a
  signed 32-bit integer at exactly the two ends of the range
  (`KnxPayloads.OverflowsExactlyAtTheEnds`); neither has a payload, so refusing
  them would be right (`KnxPayloads.EndsOverflow`).
* The temperature encoder may use the octets that datapoint type 9 reserves for
  invalid data, and does so exactly for the temperatures above 2046 times 327.68
  degrees that have a payload (`KnxPayloads.WrittenAsInvalid`).
* A handler's temperature is scaled in double precision and must be within 1e-9 of
  a whole hundredth, which refuses some temperatures in range. A number of
  hundredths is accepted as itself exactly if it `Survives`: up to 131072 degrees
  all do (`Doubles.HundredthsSurvive`); above, with `2^k` degrees the power of two
  below it, those of at least `1.28 * 2^k` degrees do, and of the others those
  whose number of hundredths, over the unit in the last place of the degrees, is
  within 32 of a multiple of 100 (`Temperatures.HundredthSurvivesExactly`). Hence
  all temperatures up to some bound are accepted exactly if the bound is at most
  131072.01 degrees (`Temperatures.AllSurviveExactlyUpTo`); 131072.02 degrees is
  refused (`Doubles.SomeHundredthIsRefused`).
* A comment in `detect_signal_cycle` says a node is marked visited only after its
  search completes. The code marks it on entry, and tests `visiting` first; the
  model follows the code, and detection is exact either way.
* `annotate_simulation` lists consumers of enabled blocks as eligible even when
  they are suspended; the live cascade does not. The two lists of a signal are
  the same exactly when no consumer is enabled but suspended
  (`Eligibility.EligibleExactlyUnlessSuspended`). Those of a whole root are the
  same exactly when that holds of each output as it is followed; it is enough
  that no listed consumer is suspended after the event, and necessary that none
  is before it (`Eligibility.LiveEligibleExactly`). They do differ: after a run
  of five failures of a consumer, its producer's input succeeds with an empty
  list where the simulation of the same input lists that consumer
  (`SuspendedConsumers.SuspendedConsumerIsSimulated`).

## Model

| member | source | states |
|---|---|---|
| `SignalGraph.DetectSignalCycle` | crates/logiksmith-core/src/blocks.rs:476-524 | no cycle is reported exactly for graphs without a closed walk; a reported path is a closed walk along edges |
| `SignalGraph.Visit` | crates/logiksmith-core/src/blocks.rs:480-512 | one visit keeps visiting, visited and path in step, and returns a closed walk or leaves the node and all below it finished |
| `SignalGraph.VisitChildren` | crates/logiksmith-core/src/blocks.rs:500-508 | visiting all children leaves each of them finished, or returns a closed walk |
| `SignalGraph.CascadeSize` | crates/logiksmith-core/src/blocks.rs:456-474 | the memoised size is the node count of the one unfolded tree, repeated edges counted each time; terminates on acyclic graphs |
| `SignalGraph.UnfoldUnique` | crates/logiksmith-core/src/blocks.rs:456-474 | every unfolding of a node is the same finite tree, so the size does not depend on the memo |
| `SignalGraph.RankedIsAcyclic` | crates/logiksmith-core/src/blocks.rs:476-524 | a graph with a falling rank has no closed walk |
| `Configuration.ValidateBlock` | crates/logiksmith-core/src/blocks.rs:73-133 | a block is accepted exactly when it meets every per-block condition |
| `Configuration.ValidateSchedules` | crates/logiksmith-core/src/blocks.rs:92-108 | schedules are accepted exactly when names are distinct and rules in bounds |
| `Configuration.ValidateBindings` | crates/logiksmith-core/src/blocks.rs:109-129 | bindings are accepted exactly when no endpoint is bound twice and every endpoint exists |
| `Configuration.ValidateEndpoints` | crates/logiksmith-core/src/engine_config.rs:35-50 | endpoints are accepted exactly when names are distinct and datapoint types supported |
| `Configuration.ValidateSignals` | crates/logiksmith-core/src/blocks.rs:329-340 | signals are accepted exactly when names are distinct and datapoint types supported |
| `Configuration.ValidateBlocks` | crates/logiksmith-core/src/blocks.rs:352-367 | blocks are accepted exactly when identities are distinct and each is accepted |
| `Configuration.CollectProducers` | crates/logiksmith-core/src/blocks.rs:377-418 | the first pass accepts exactly typed bindings with at most one producer per signal, and returns the producer of each signal |
| `Configuration.CollectEdges` | crates/logiksmith-core/src/blocks.rs:419-438 | the second pass yields one edge per consumer of a produced signal, in declaration order |
| `Configuration.LargestCascade` | crates/logiksmith-core/src/blocks.rs:440-445 | the largest size found bounds exactly the maxima every cascade stays within |
| `Configuration.ValidateGraph` | crates/logiksmith-core/src/blocks.rs:419-453 | the graph part accepts exactly acyclic graphs whose unfolded cascades stay within the limit |
| `Configuration.Validate` | crates/logiksmith-core/src/blocks.rs:313-453 | a configuration is accepted exactly when all declarative conditions hold; a cycle error carries a closed walk and a size error a cascade that is too large |
| `Topology.EdgesWeigh` | crates/logiksmith-core/src/blocks.rs:377-453 | the edges of a block weigh what all its signals together can trigger: edges equal consumers as multisets |
| `Topology.ConsumersWeigh` | crates/logiksmith-core/src/runtime_impl.rs:46-64 | the consumers of one signal weigh what that signal can trigger |
| `Topology.ConsumerIsChild` | crates/logiksmith-core/src/blocks.rs:419-438 | every consumer of a produced signal is a child of the producing block |
| `PlanFacts.OutputSignal` | crates/logiksmith-core/src/runtime_signals.rs:322-350 | the signal behind a typed output is produced by that very output and has its type |
| `PlanFacts.ConsumerIsInput` | crates/logiksmith-core/src/runtime_impl.rs:46-64 | every consumer is an existing input endpoint of the type of the signal |
| `PlanFacts.ConsumerOfOne` | crates/logiksmith-core/src/blocks.rs:109-129 | no input endpoint consumes two signals |
| `PlanFacts.OutputsPublishDistinctly` | crates/logiksmith-core/src/blocks.rs:406-416 | distinct outputs of a block publish distinct signals |
| `PlanFacts.OutputsWithinTree` | crates/logiksmith-core/src/blocks.rs:440-451 | what the outputs of one execution trigger fits below its block in the unfolded cascade |
| `TransientState.ValidateState` | crates/logiksmith-core/src/state.rs:362-387 | state is accepted exactly when entry count, every entry and the byte total are within limits |
| `TransientState.StateBytes` | crates/logiksmith-core/src/state.rs:372-380 | the running total is the byte sum, whatever the order of entries |
| `TransientState.MergeState` | crates/logiksmith-core/src/state.rs:426-437 | a merge succeeds exactly when the overlaid state is within limits, and then is that overlay |
| `TransientState.ApplyTimerEffects` | crates/logiksmith-core/src/state.rs:439-465 | effects are applied to the pending timers in order |
| `TransientState.EffectsArmLater` | crates/logiksmith-core/src/state.rs:439-465 | after any accepted effects each timer is an old one or is due strictly later than now, and carries the active revision |
| `TransientState.LastEffectDecides` | crates/logiksmith-core/src/state.rs:439-465 | the last effect on a timer decides: cancelled it is gone, scheduled or replaced it is due then, scheduled now and of the active revision |
| `TransientState.UntouchedStays` | crates/logiksmith-core/src/state.rs:439-465 | a timer without an effect stays exactly as it was |
| `LuaConversion.ConvertResult` | crates/logiksmith-core/src/lua_conversion.rs:55-236 | the conversion loop computes exactly the specified transition or rejection |
| `LuaConversion.ConvertTimers` | crates/logiksmith-core/src/lua_conversion.rs:238-383 | timer effects come out sorted by name, checked against both timer limits |
| `LuaConversion.ConvertTimer` | crates/logiksmith-core/src/lua_conversion.rs:248-339 | one timer entry: cancellation, no-op, schedule or replacement, with its errors |
| `LuaConversion.ConvertOutputs` | crates/logiksmith-core/src/lua_conversion.rs:179-228 | outputs come out in declaration order, each endpoint at most once |
| `LuaConversion.ConvertState` | crates/logiksmith-core/src/lua_conversion.rs:128-153 | the table converts exactly when every key is a string, no key comes twice and every value is valid; the patch then maps each key to its converted value and holds no other key |
| `LuaConversion.ConvertedIsTyped` | crates/logiksmith-core/src/lua_conversion.rs:179-236 | whatever the handler returns, accepted outputs name distinct output endpoints in order with values of their types |
| `LuaConversion.ConvertedIsCommittable` | crates/logiksmith-core/src/lua_conversion.rs:154-167 | an accepted transition always merges, respects the timer limit and arms only later timers: the merge the engine expects to succeed does |
| `LuaConversion.InsertKeepsOrder` | crates/logiksmith-core/src/lua_conversion.rs:338-340 | inserting an effect keeps the effects sorted by name |
| `LuaConversion.DurationMs` | crates/logiksmith-core/src/lua_conversion.rs:413-439 | an accepted duration is a whole number of milliseconds from 1 to the largest 32-bit value |
| `Doubles.HundredthsSurvive` | crates/logiksmith-core/src/values.rs:224-241 | every hundredth of a degree up to 131072 degrees is accepted as itself, with the handler's value and its product both rounded to double precision |
| `Doubles.SomeHundredthIsRefused` | crates/logiksmith-core/src/values.rs:224-241 | 131072.02 degrees, in range, is refused: the rounded product is off by more than the tolerance |
| `Temperatures.HundredthSurvivesExactly` | crates/logiksmith-core/src/values.rs:224-241 | for every 32-bit number of hundredths, with degrees and product rounded to nearest, ties to even: accepted as itself exactly under an integer condition on it, and refused otherwise |
| `Temperatures.AllSurviveExactlyUpTo` | crates/logiksmith-core/src/values.rs:224-241 | all temperatures of at most so many hundredths are accepted exactly if the bound is at most 13 107 201 |
| `LuaConversion.ToTyped` | crates/logiksmith-core/src/lua_conversion.rs:441-520 | a converted value has the type of its endpoint |
| `LuaConversion.ToStateValue` | crates/logiksmith-core/src/lua_conversion.rs:18-53 | a converted state value is a valid entry |
| `ConversionMeaning.TypedMeans` | crates/logiksmith-core/src/lua_conversion.rs:441-520 | a raw value converts to a typed value exactly if it stands for it: the same boolean, the same percentage up to 100, or the temperature within the tolerance |
| `ConversionMeaning.TypedRoundTrip` | crates/logiksmith-core/src/lua_conversion.rs:1-7 | a value that a handler is shown and returns unchanged is accepted as the value it was |
| `ConversionMeaning.StateValueMeans` | crates/logiksmith-core/src/lua_conversion.rs:9-53 | a state entry converts exactly if valid, and reads back as what was written |
| `ConversionMeaning.DelayMeans` | crates/logiksmith-core/src/lua_conversion.rs:273-312 | a table asks for a delay exactly if it holds one `after` of whole milliseconds within 32 bits |
| `ConversionMeaning.TimerMeans` | crates/logiksmith-core/src/lua_conversion.rs:262-338 | an entry converts to exactly the effect it asks for, by whether the timer is pending |
| `ConversionMeaning.FieldsMean` | crates/logiksmith-core/src/lua_conversion.rs:86-134 | a result splits exactly if its keys are distinct and known, each with a table; the fields are those tables |
| `ConversionMeaning.OutputsMean` | crates/logiksmith-core/src/lua_conversion.rs:181-229 | an outputs table converts exactly if each entry gives an output endpoint a value it can take and none is named twice; the outputs are those of the entries and no others |
| `ConversionMeaning.TimersMean` | crates/logiksmith-core/src/lua_conversion.rs:238-340 | a timers table converts exactly if each entry asks for something; the effects are one for each entry, ordered by name |
| `ConversionMeaning.ResultMeans` | crates/logiksmith-core/src/lua_conversion.rs:55-237 | a result table is accepted exactly if it splits, every entry converts and every budget is kept; the transition says exactly what the tables say |
| `Engines.TriggerFlags` | crates/logiksmith-core/src/support.rs:54-73 | changed, rising and falling tell a change from a repetition and its direction; never both edges |
| `Engines.SnapshotsAge` | crates/logiksmith-core/src/engine.rs:822-843 | each snapshot belongs to an input endpoint, is valid exactly when its value is known, and its age reaches back to the observation |
| `Engines.UpdateStores` | crates/logiksmith-core/src/engine_input_updates.rs:73-105 | an accepted value is stored at its endpoint and nowhere else; only a trigger executes |
| `Engines.EvaluateKeepsInv` | crates/logiksmith-core/src/engine_input_updates.rs:106-130 | committing a transition keeps the engine invariant; a failed handler leaves the engine as it was |
| `Engines.UpdateKeepsInv` | crates/logiksmith-core/src/engine_input_updates.rs:73-144 | an update succeeds exactly for a valid endpoint, type and time, and keeps the invariant; a refused one changes nothing |
| `Engines.TimerKeepsInv` | crates/logiksmith-core/src/engine.rs:309-386 | in a reachable state a timer is never stale, the fired timer is consumed, and re-armed ones are due later |
| `Engines.NextDueUnique` | crates/logiksmith-core/src/engine.rs:316-330 | at most one timer is next by deadline and name |
| `Engines.Engine.Execute` | crates/logiksmith-core/src/engine_input_updates.rs:106-140 | running a handler and committing equals the evaluation function; the expected merge succeeds |
| `Engines.Engine.ProcessInputUpdate` | crates/logiksmith-core/src/engine_input_updates.rs:73-144 | the whole new state and answer equal the update function |
| `Engines.Engine.SelectNextDue` | crates/logiksmith-core/src/engine.rs:316-330 | the selection loop finds the next due timer, or none is due |
| `Engines.Engine.ProcessNextDueTimer` | crates/logiksmith-core/src/engine.rs:309-386 | the whole new state and answer equal the timer function |
| `Engines.Engine.ActivateSource` | crates/logiksmith-core/src/engine.rs:119-142 | a new revision replaces the program and cancels every timer; the same revision changes nothing |
| `Engines.Engine.InputSnapshots` | crates/logiksmith-core/src/engine.rs:822-843 | snapshots in declaration order of the input endpoints |
| `Engines.RunHandler` | crates/logiksmith-core/src/lua_execution.rs:6-260 | the outcome of a handler call: its failure kind, or its converted single result |
| `HandlerCalls.SnapshotsShow` | crates/logiksmith-core/src/engine.rs:822-843 | the snapshots show every input endpoint once, in declaration order, with its value, validity and age |
| `HandlerCalls.EvaluateRuns` | crates/logiksmith-core/src/engine_input_updates.rs:101-140 | the handler is called with the inputs, trigger, state, timers and time of the engine, the outcome is its failure or the conversion of what it returned, and the commit is that outcome |
| `HandlerCalls.UpdateRuns` | crates/logiksmith-core/src/engine_input_updates.rs:98-140 | an accepted triggering value runs the handler on the stored value, with a trigger that tells the value, the one before and how they differ |
| `HandlerCalls.TimerRuns` | crates/logiksmith-core/src/engine.rs:316-400 | the first due timer runs the handler with that timer taken off and told in the trigger |
| `HandlerCalls.TimersAsAsked` | crates/logiksmith-core/src/lua_conversion.rs:238-340 | a timer that one entry names is afterwards cancelled, or due its delay from now, as the entry asks; one that no entry names is untouched |
| `LogicBlocks.LogicBlock.PruneLiveExecutionWindow` | crates/logiksmith-core/src/runtime_model.rs:107-115 | drops exactly the starts at the front that have left the window |
| `LogicBlocks.LogicBlock.AdmitLiveExecution` | crates/logiksmith-core/src/runtime_model.rs:119-133 | the whole new block and the answer equal the admission function |
| `LogicBlocks.LogicBlock.RecordLiveExecution` | crates/logiksmith-core/src/runtime_model.rs:137-159 | the whole new block equals the recording function |
| `LogicBlocks.LogicBlock.SwitchEnabled` | crates/logiksmith-core/src/runtime_model.rs:172-178 | the whole new block equals the switching function |
| `LogicBlocks.LogicBlock.ResetBlockHealth` | crates/logiksmith-core/src/runtime_model.rs:161-170 | the whole new block equals the reset function |
| `LogicBlocks.LogicBlock.InstallProgram` | crates/logiksmith-core/src/runtime_activation.rs:36-50 | a changed program cancels timers and resets health, and names what it cancelled |
| `LogicBlocks.PrunedIsRecent` | crates/logiksmith-core/src/runtime_model.rs:107-115 | pruning the front of an ordered window drops every expired start and no other |
| `LogicBlocks.AdmissionRule` | crates/logiksmith-core/src/runtime_model.rs:119-133 | an active block is admitted exactly while fewer than the maximum started within the last second; otherwise it is suspended without timers |
| `LogicBlocks.RecentIsLastSecond` | crates/logiksmith-core/src/runtime_model.rs:107-115 | the starts that count are those less than a thousand milliseconds ago |
| `LogicBlocks.FifthFailureSuspends` | crates/logiksmith-core/src/runtime_model.rs:137-159 | consecutive counted failures suspend an active block at the fifth and not before |
| `LogicBlocks.CountedFailures` | crates/logiksmith-core/src/runtime_model.rs:137-146 | every failure counts but syntax and load errors |
| `LogicBlocks.SuspendedExactlyByAStreak` | crates/logiksmith-core/src/runtime_model.rs:137-158 | over every run of outcomes an active block is suspended exactly when five counted failures come without a success in between; load and syntax errors neither count nor forgive |
| `LogicBlocks.AdmissionsAreSpaced` | crates/logiksmith-core/src/runtime_model.rs:107-133 | over every run, between clearings of the window, the admission `maximum` places later comes at least a second later; the window stays sorted and bounded |
| `LogicBlocks.AdmitKeepsInv` | crates/logiksmith-core/src/runtime_model.rs:119-133 | admission keeps the block invariant and touches at most the timers of the engine |
| `LogicBlocks.RecordKeepsInv` | crates/logiksmith-core/src/runtime_model.rs:137-159 | recording keeps the block invariant: an active block has fewer than five failures, pending timers imply enabled and active |
| `LogicBlocks.ResetKeepsInv` | crates/logiksmith-core/src/runtime_model.rs:161-182 | resetting, switching and installing a program keep the block invariant |
| `CascadeOrder.PropagateOrder` | crates/logiksmith-core/src/runtime_signals.rs:305-494 | propagation appends a depth-first preorder: consecutive identities, each child names its parent and runs a consumer the parent recorded as eligible |
| `CascadeOrder.OutputOrder` | crates/logiksmith-core/src/runtime_signals.rs:322-491 | following one output records exactly its effect on the producing execution and appends preorder trees |
| `CascadeSafety.PropagateCompletes` | crates/logiksmith-core/src/runtime_signals.rs:305-494 | from a reachable state of an accepted configuration propagation never fails, adds at most the unfolded size of its block minus one executions, and keeps the invariant |
| `CascadeSafety.DeliverOneCompletes` | crates/logiksmith-core/src/runtime_signals.rs:400-491 | serving one consumer stays within the size of its subtree and never fails |
| `CascadeSafety.HandToSafe` | crates/logiksmith-core/src/runtime_signals.rs:406-478 | a consumer never refuses the value handed to it, and keeps its invariant |
| `CascadeSafety.PublishSafe` | crates/logiksmith-core/src/runtime_signals.rs:336-355 | publishing keeps the signal invariant: value, observation and change times together, typed and in order |
| `SignalAgreement.PropagateSettles` | crates/logiksmith-core/src/runtime_signals.rs:305-494 | during recursion only signals of lower-ranked blocks change: an in-flight signal is never rewritten and everything below agrees |
| `SignalAgreement.HandToStores` | crates/logiksmith-core/src/runtime_signals.rs:406-478 | handing over stores the value and time at that endpoint and touches no other input or signal, whether or not the block runs |
| `SignalAgreement.CascadeAgrees` | crates/logiksmith-core/src/runtime_signals.rs:336-491 | from full agreement a successful cascade ends in full agreement |
| `SignalAgreement.OutputsPredicted` | crates/logiksmith-core/src/runtime_signals.rs:503-549 | the effects an execution records while its cascade runs are those read off the state before it |
| `CascadeInduction.PropagateHolds` | crates/logiksmith-core/src/runtime_signals.rs:305-494 | what every delivery and publication keeps, a cascade keeps, and what every started execution has, all its executions have |
| `SignalEffects.ConsumersExactly` | crates/logiksmith-core/src/runtime_impl.rs:46-64 | the consumers of a signal are exactly the input endpoints bound to it |
| `SignalEffects.SignalOfExactly` | crates/logiksmith-core/src/runtime_signals.rs:323-334 | an endpoint publishes exactly the signal it is bound to |
| `SignalEffects.RootPublishes` | crates/logiksmith-core/src/runtime_signals.rs:335-366 | each bound output is announced with its value, producer, change and consumers, and its signal ends published: observed now, and changed exactly if the value differs |
| `SignalEffects.CascadeMovesSignals` | crates/logiksmith-core/src/runtime_signals.rs:336-345 | a cascade leaves each signal alone or observes it now, marking every change |
| `EligibleRuns.PropagateServes` | crates/logiksmith-core/src/runtime_signals.rs:367-491 | whatever following an execution records as eligible is run by an execution it caused, or its block is stopped |
| `EligibleRuns.EventsServe` | crates/logiksmith-core/src/runtime_signals.rs:367-491 | in every event that succeeds each eligible consumer runs, unless its block ends suspended |
| `RuntimeEvents.FirstBlockIs` | crates/logiksmith-core/src/runtime_impl.rs:412-432 | the global order of due timers has one first timer |
| `RuntimeSafety.RootCompletes` | crates/logiksmith-core/src/runtime_signals.rs:181-212 | from a root, propagation completes within the validated cascade size |
| `RuntimeSafety.FollowSafe` | crates/logiksmith-core/src/runtime_signals.rs:181-212 | a followed root succeeds exactly when the global budgets hold afterwards, and is undone otherwise; the cascade limit is never met |
| `RuntimeSafety.InputEventSafe` | crates/logiksmith-core/src/runtime_input_updates.rs:50-156 | an input event is atomic, keeps the invariant and the budgets, and runs at most the validated cascade |
| `RuntimeSafety.TimerEventSafe` | crates/logiksmith-core/src/runtime_signals.rs:181-212 | the same for a timer event |
| `RuntimeSafety.ScheduleEventSafe` | crates/logiksmith-core/src/runtime_signals.rs:261-293 | the same for a schedule event |
| `RuntimeSafety.EventsArePreorders` | crates/logiksmith-core/src/runtime_signals.rs:48-303 | the executions of every event are one preorder tree numbered from the identity counter, its root without a cause |
| `Budgets.SourceTotalCounts` | crates/logiksmith-core/src/runtime_impl.rs:79-92 | the program total is the number of bytes of program text that all blocks hold |
| `Budgets.StateTotalCounts` | crates/logiksmith-core/src/runtime_impl.rs:98-117 | the state total is the number of bytes of keys and strings that all blocks hold |
| `Budgets.TimersTotalCounts` | crates/logiksmith-core/src/runtime_impl.rs:118-122 | the timer total is the number of timers pending in all blocks |
| `Budgets.ReplacingMovesTotals` | crates/logiksmith-core/src/runtime_impl.rs:98-122 | replacing one block moves the state and timer totals by what that block gains or loses |
| `Budgets.BudgetsDecide` | crates/logiksmith-core/src/runtime_impl.rs:124-141 | a cascade is committed exactly if what all blocks hold after it is within every budget, and is otherwise undone with the first budget exceeded |
| `Budgets.EventsLeaveBudgets` | crates/logiksmith-core/src/runtime_impl.rs:124-141 | every event that executes something and succeeds leaves what all blocks hold within every budget |
| `Budgets.RunsStayWithinBudgets` | crates/logiksmith-core/src/runtime_impl.rs:124-141 | in every state of every run the state and timers of all blocks are within their budgets |
| `Budgets.FreshWithinBudgets` | crates/logiksmith-core/src/blocks.rs:341-376 | validation counts every byte and every binding: a fresh runtime of an accepted configuration is within every budget |
| `EventExecutions.InputEventRuns` | crates/logiksmith-core/src/runtime_input_updates.rs:95-156 | a triggering input executes exactly if its block may run and fails only for a budget; the root ran on that input, every other execution on the value of a signal |
| `EventExecutions.QuietInputEvent` | crates/logiksmith-core/src/runtime_input_updates.rs:95-156 | an observation or invalidation executes nothing and replaces the stored input only |
| `EventExecutions.InputEventObserves` | crates/logiksmith-core/src/runtime_input_updates.rs:95-156 | a block that may not run observes a triggering value and executes nothing |
| `EventExecutions.InputEventRejected` | crates/logiksmith-core/src/runtime_input_updates.rs:95-156 | an input event is rejected unchanged for an unknown block, a missing, output or differently typed endpoint, or an earlier clock, and the answer tells which |
| `EventExecutions.ClockRejects` | crates/logiksmith-core/src/runtime_impl.rs:868-882 | an earlier clock rejects a timer or schedule event unchanged, and the answer tells both times |
| `EventExecutions.TimerEventRuns` | crates/logiksmith-core/src/runtime_impl.rs:407-466 | a timer event executes the first due timer exactly if its block may run |
| `EventExecutions.ScheduleEventRuns` | crates/logiksmith-core/src/runtime_impl.rs:868-945 | a schedule event executes its trigger exactly if the block may run, the schedule is enabled and its cursor has the revision of the trigger |
| `EventExecutions.HandToRuns` | crates/logiksmith-core/src/runtime_signals.rs:400-491 | a delivery executes exactly if the consumer may run, on the value it is handed |
| `EventExecutions.CascadeIsGenuine` | crates/logiksmith-core/src/runtime_signals.rs:305-494 | every execution of a cascade ran the program of its block on a state of that block |
| `RuntimeRuns.InitialSafe` | crates/logiksmith-core/src/runtime_impl.rs:17-77 | a fresh runtime satisfies the reachable-state invariant |
| `RuntimeRuns.StepSafe` | crates/logiksmith-core/src/runtime_activation.rs:36-86 | every host call, activation and schedule calls included, keeps the invariant and the budgets |
| `RuntimeRuns.RunsAreSafe` | crates/logiksmith-core/src/runtime_model.rs:107-182 | every state of every run satisfies the reachable-state invariant |
| `RunAgreement.RunsAgree` | crates/logiksmith-core/src/runtime_signals.rs:336-491 | in every state of every run each consumer holds the value and time of its signal |
| `RunAgreement.DirectUpdateDisagrees` | crates/logiksmith-desktop/src/automation_builder.rs:538-544 | observing, invalidating or triggering at a signal-bound input keeps agreement exactly when the event is undone, the signal has no value or the update repeats it: why the builder makes bindings exclusive |
| `RunAgreement.UpdateBlockTouchesOne` | crates/logiksmith-core/src/runtime_input_updates.rs:95-156 | an input update changes no other input, block or signal |
| `RateLimit.RunsRespectTheRateLimit` | crates/logiksmith-core/src/runtime_model.rs:107-133 | over every run of host calls: within any second in which the block is neither resumed nor named by an activation, the executions of it that events return are at most its limit |
| `RateLimit.PropagateCounts` | crates/logiksmith-core/src/runtime_signals.rs:305-494 | every execution of the block that a cascade adds takes a place in its window, or ends with the block suspended |
| `Activation.AcceptedBatchMovesTotal` | crates/logiksmith-core/src/runtime_activation.rs:3-86 | an accepted batch moves the program total by its growth, read off the state before it |
| `Activation.SourceTotalDecides` | crates/logiksmith-core/src/runtime_impl.rs:124-141 | an execution is refused for the program total exactly when the state already exceeds it |
| `Activation.ActivationMayOutgrowTheTotal` | crates/logiksmith-core/src/runtime_activation.rs:3-34 | after an accepted activation executions are refused for the program total exactly when the batch outgrows it |
| `ActivationEffects.AcceptedExactly` | crates/logiksmith-core/src/runtime_activation.rs:8-36 | a batch is accepted exactly if every update asks for something of a known block with a source that loads and fits, and none is named twice; a refused one changes nothing |
| `ActivationEffects.BatchActivates` | crates/logiksmith-core/src/runtime_activation.rs:38-75 | each named block gets the switch and program its update asks for, with a clean record and no timers where that changed; every other block is untouched |
| `ActivationEffects.RunsFollowActivations` | crates/logiksmith-core/src/runtime_activation.rs:3-86 | in every state of every run each block has the switch and program that the accepted batches gave it last |
| `ActivationEffects.ResumeClears` | crates/logiksmith-core/src/runtime_impl.rs:167-171 | resuming gives one block a clean record and leaves everything else |
| `ActivationGrowth.ActivationStopsTheRuntime` | crates/logiksmith-core/src/runtime_activation.rs:24-32 | for any host, sandbox and two loadable sources of different revision, of which so many short ones fit the total and as many long ones do not: an accepted configuration and an accepted batch, after which an input is answered with the source limit and changes nothing |
| `ActivationGrowth.ShippedProfilesCanBeStopped` | crates/logiksmith-core/src/limits.rs:66-116 | in both shipped profiles seventeen blocks suffice, with any loadable source of full length |
| `TimerDrain.FirstIsLeast` | crates/logiksmith-core/src/runtime_impl.rs:412-432 | whenever a timer is due the runtime finds the least by deadline, block and name |
| `TimerDrain.FirstInOrder` | crates/logiksmith-core/src/runtime_impl.rs:419-432 | no due timer has an earlier deadline than the first; ties go by block and then by name |
| `TimerDrain.EnginePicksTheSame` | crates/logiksmith-core/src/engine.rs:316-330 | the engine selects the timer the runtime selected |
| `TimerDrain.EventConsumes` | crates/logiksmith-core/src/runtime_impl.rs:407-466 | a successful timer event consumes the first due timer and makes no timer due, even through its cascade or a rate suspension |
| `TimerDrain.DrainEnds` | crates/logiksmith-core/src/runtime_impl.rs:407-466 | repeated successful timer events at one instant leave nothing due within the number of timers due at the start |
| `TimerDrain.DrainFiresInOrder` | crates/logiksmith-core/src/runtime_impl.rs:419-432 | timers fire in strictly increasing deadline, block and name order |
| `TimerDrain.DeadlineWakes` | crates/logiksmith-core/src/runtime_impl.rs:396-403 | a timer event finds a timer to fire exactly from the announced deadline on |
| `Simulation.BuildSnapshots` | crates/logiksmith-core/src/engine_simulation.rs:2-47 | inputs are accepted exactly when every input endpoint is supplied once and well, and then listed in declaration order |
| `Simulation.FillSupplied` | crates/logiksmith-core/src/engine_simulation.rs:6-30 | the in-place table holds for each endpoint the input supplied for it; duplicates, unknown and malformed inputs are refused |
| `Simulation.CollectTimers` | crates/logiksmith-core/src/state.rs:389-424 | timers are accepted exactly when names are distinct, within the limit and of the active revision |
| `Simulation.SimulateInputWithState` | crates/logiksmith-core/src/engine.rs:546-562 | a simulation is accepted exactly for acceptable scenarios and reports the specified execution |
| `Simulation.SimulationIsLive` | crates/logiksmith-core/src/engine.rs:845-951 | for every reachable engine and valid trigger, simulating the live snapshot is accepted and equals the live execution, state and timers |
| `Simulation.SimulationPredictsTheCascade` | crates/logiksmith-core/src/runtime_simulation.rs:92-115 | for the same outputs the simulated effects equal those the root of the live cascade records |
| `TimerSimulations.SimulateTimer` | crates/logiksmith-core/src/engine.rs:564-643 | a timer simulation is accepted exactly for acceptable scenarios and reports the specified execution |
| `TimerSimulations.TimerSimulationIsLive` | crates/logiksmith-core/src/engine.rs:564-643 | for every reachable engine, simulating its next due timer on the live snapshot is accepted and equals the live execution, state and timers |
| `ScenarioStates.AcceptedExactlySnapshots` | crates/logiksmith-core/src/engine.rs:546-562 | a scenario whose inputs are no older than its clock is accepted exactly if some engine in good order shows it |
| `ScenarioStates.SnapshotAccepted` | crates/logiksmith-core/src/engine.rs:845-951 | whatever order its inputs are listed in, the snapshot of an engine is accepted and simulates what the engine does |
| `ScenarioStates.TimerAcceptedExactlySnapshots` | crates/logiksmith-core/src/engine.rs:564-643 | a timer scenario is accepted exactly if some engine in good order with that timer pending shows it |
| `Eligibility.EligibleExactlyUnlessSuspended` | crates/logiksmith-core/src/runtime_signals.rs:537-546 | for one changed signal the simulated and the live eligible consumers are the same exactly when no consumer is enabled but suspended |
| `Eligibility.LiveEligibleWithinSimulated` | crates/logiksmith-core/src/runtime_signals.rs:503-549 | the consumers the root of the live cascade records as eligible are among the simulated ones, counted with multiplicity |
| `Eligibility.LiveEligibleExactly` | crates/logiksmith-core/src/runtime_signals.rs:503-549 | the list of a live root equals the simulated one exactly when no listed consumer is suspended as its output is followed; it does if none is suspended after the event, and only if none was before |
| `SuspendedConsumers.SuspendedConsumerIsSimulated` | crates/logiksmith-core/src/runtime_signals.rs:537-546 | for any sandbox and loadable source, a producer that drives its output and a consumer that fails: a run of an accepted configuration after which the producer's input succeeds with an empty list, and its accepted simulation, the same execution otherwise, lists the consumer |
| `ScheduleRules.FixedOccurrenceMeans` | crates/logiksmith-core/src/schedule_rules.rs:874-896 | a fixed rule names an instant exactly when time of day and weekday match |
| `ScheduleRules.AstronomicalOccurrenceMeans` | crates/logiksmith-core/src/schedule_astronomy.rs:1-81 | an astronomical rule names only instants a constant offset from a crossing found within a day, on an allowed weekday |
| `ScheduleRules.NextOccurrenceAfter` | crates/logiksmith-core/src/schedule_rules.rs:868-956 | the search loops compute the specified next occurrence |
| `ScheduleRules.FirstCandidateAfter` | crates/logiksmith-core/src/schedule_rules.rs:874-896 | the day loop of fixed rules finds the first hit of the window |
| `ScheduleRules.EarliestCandidateAfter` | crates/logiksmith-core/src/schedule_rules.rs:911-954 | the day loop of astronomical rules finds the earliest hit of the window |
| `ScheduleRules.NextIsEarliest` | crates/logiksmith-core/src/schedule_rules.rs:868-956 | from every baseline the result is the least occurrence strictly after it, or clamped exactly when no representable instant is one; only an astronomical search finds none, and then none is within 369 days |
| `ScheduleRules.IntervalIsEarliest` | crates/logiksmith-core/src/schedule_rules.rs:897-910 | the interval arithmetic is exact at all integers, negative ones included |
| `ScheduleRules.FixedWithinAWeek` | crates/logiksmith-core/src/schedule_rules.rs:874-896 | a validated fixed rule always fires within seven days |
| `ScheduleRules.AstronomicalIsEarliest` | crates/logiksmith-core/src/schedule_rules.rs:911-954 | the window from the day before misses no earlier anchor for any offset within a day |
| `ScheduleRules.IntervalProgressesUntilTheLastInstant` | crates/logiksmith-core/src/schedule_rules.rs:897-910 | a clamped interval result is after its baseline exactly before the last representable instant |
| `ScheduleRules.OccurrenceTest` | crates/logiksmith-core/src/runtime_simulation.rs:26-33 | the membership test accepts exactly the occurrences and, for an interval rule, the last representable instant |
| `ScheduleRules.PreviewOccurrences` | crates/logiksmith-core/src/runtime_impl.rs:811-822 | the preview lists the next occurrences in order without gaps; it is shorter only when a search gives up, and goes on only by repeating the last instant once no representable occurrence is left |
| `ScheduleCursors.CoalescingEndsExactly` | crates/logiksmith-core/src/runtime_impl.rs:692-703 | the coalescing loop stops after some number of searches exactly unless an interval rule is polled at the last representable instant |
| `ScheduleCursors.CoalesceOccurrences` | crates/logiksmith-core/src/runtime_impl.rs:692-703 | whenever it stops, the coalescing loop computes the last passed occurrence and the count |
| `ScheduleCursors.CoalesceCounts` | crates/logiksmith-core/src/runtime_impl.rs:692-703 | coalescing counts exactly the occurrences it passes and stops at the latest one not after the poll |
| `ScheduleCursors.PollOneCursor` | crates/logiksmith-core/src/runtime_impl.rs:667-716 | polling one cursor equals its specification whenever the coalescing loop stops |
| `ScheduleCursors.PollForward` | crates/logiksmith-core/src/runtime_impl.rs:667-716 | a delivery lies after its baseline and everything delivered before, never after the sample; a baseline taken by the poll delivers nothing |
| `ScheduleCursors.NeverReplays` | crates/logiksmith-core/src/runtime_time_helpers.rs:33-68 | over every run of samples, backward clocks, baselines and switches, deliveries strictly increase, none is early, none is from before the latest baseline |
| `ScheduleCursors.ConservedUnlessAGapIsWide` | crates/logiksmith-core/src/runtime_impl.rs:641-732 | every run of polls delivers or counts each occurrence once, exactly when the rule at its site leaves no gap wider than the search window |
| `ScheduleCursors.ClockRulesConserve` | crates/logiksmith-core/src/schedule_rules.rs:874-910 | interval and fixed rules always conserve |
| `ScheduleConservation.RunsConserve` | crates/logiksmith-core/src/runtime_impl.rs:641-732 | over every run of host calls, from any baseline on and while the schedule stays enabled and the clock valid and forward, whatever other calls come in between: the coalesced counts plus one of the triggers handed over sum to the number of occurrences from that baseline to the last poll |
| `ScheduleConservation.EachIsTheLatest` | crates/logiksmith-core/src/runtime_impl.rs:690-716 | each of those triggers carries the latest occurrence not after its poll, later than all that polls had come past before |
| `SolarSites.DailyRulesConserve` | crates/logiksmith-core/src/schedule_rules.rs:835-837 | where crossings depend on the day of the year, a rule for all weekdays conserves for every offset exactly unless its anchor is crossed only on day 366: the window covers a full polar year |
| `SolarSites.PolarMondaysAreMissed` | crates/logiksmith-core/src/noaa.rs:198-242 | with one sunrise a year, on day 78, a rule for Mondays does not conserve, and a rule for all weekdays does |
| `SchedulePolling.UpdatedEach` | crates/logiksmith-core/src/runtime_impl.rs:664-718 | with distinct keys each touched cursor is stepped once from where it was, and no other changes |
| `SchedulePolling.SlotsDistinct` | crates/logiksmith-core/src/runtime_impl.rs:664-673 | configured schedules have distinct keys |
| `SchedulePolling.RecomputeCursors` | crates/logiksmith-core/src/runtime_time_helpers.rs:33-68 | the recompute loop equals its specification |
| `SchedulePolling.PollCursors` | crates/logiksmith-core/src/runtime_impl.rs:663-718 | the poll loop equals its specification whenever every walk it starts stops |
| `SchedulePolling.SortTriggersSorts` | crates/logiksmith-core/src/runtime_impl.rs:720-725 | triggers come out sorted by instant, block and name, each exactly once |
| `SchedulePolling.TriggersInOrder` | crates/logiksmith-core/src/runtime_impl.rs:641-732 | triggers come by instant, then block, then name, and each names the sample |
| `SchedulePolling.PollProjects` | crates/logiksmith-core/src/runtime_impl.rs:641-732 | a poll steps every schedule machine once and returns exactly the triggers of those that fire, in order |
| `SchedulePolling.InitialiseProjects` | crates/logiksmith-core/src/runtime_impl.rs:566-608 | initialisation starts every machine afresh from the sample |
| `SchedulePolling.RebaselineProjects` | crates/logiksmith-core/src/runtime_impl.rs:739-789 | rebaselining rebases the machines of one block and leaves the others |
| `SchedulePolling.FlaggingProjects` | crates/logiksmith-core/src/runtime_activation.rs:56-72 | switching a block flags exactly the machines of that block |
| `SchedulePolling.NextDeadline` | crates/logiksmith-core/src/runtime_impl.rs:612-634 | the earliest pending occurrence of the enabled slots |
| `SchedulePolling.PollFiresAtDeadline` | crates/logiksmith-core/src/runtime_impl.rs:612-732 | without a clock jump a poll delivers something exactly when the announced deadline is reached |
| `ScheduleRuns.StepProjects` | crates/logiksmith-core/src/runtime_impl.rs:566-789 | every host call moves each schedule machine by the event it means: the runtime is their product |
| `ScheduleRuns.NothingIsDeliveredTwice` | crates/logiksmith-core/src/runtime_impl.rs:641-789 | over every run of host calls two deliveries of a schedule without an initialisation between them strictly increase, none is early, and each lies after the latest baseline its cursor received |
| `ScheduleRuns.DeadlinesAreExact` | crates/logiksmith-core/src/runtime_impl.rs:612-634 | in every state of every run the announced deadline is the moment from which a poll delivers |
| `ScheduleRuns.ConfiguredRulesAreTyped` | crates/logiksmith-core/src/blocks.rs:92-108 | every rule of an accepted configuration is valid, given weekday sets as their type guarantees |
| `ScheduleDelivery.HandedOverExactly` | crates/logiksmith-core/src/runtime_impl.rs:641-732 | without a clock jump a schedule is handed over exactly if it and its block are enabled and its pending occurrence has been reached |
| `ScheduleDelivery.HandedOverCurrent` | crates/logiksmith-core/src/runtime_impl.rs:641-732 | whatever a poll hands over names an enabled schedule of an enabled block, the sample, and the revision of its cursor |
| `ScheduleDelivery.RunsAreBased` | crates/logiksmith-core/src/runtime_impl.rs:566-789 | in every state of every run each schedule awaits a baseline or pends the next occurrence after one, and a poll with a clock leaves no enabled schedule waiting |
| `ScheduleDelivery.HandedOverTriggersRun` | crates/logiksmith-core/src/runtime_impl.rs:868-945 | over every run: a trigger handed over and processed with no initialisation in between runs its block exactly if the block may run |
| `ScheduleDelivery.StaleTriggersRunNothing` | crates/logiksmith-core/src/runtime_impl.rs:905-907 | after an initialisation under another revision the trigger runs nothing |
| `Runtimes.Runtime.constructor` | crates/logiksmith-core/src/runtime_impl.rs:17-77 | a new runtime holds the initial state in fresh objects |
| `Runtimes.Runtime.TryNew` | crates/logiksmith-core/src/runtime_impl.rs:17-77 | a runtime is built exactly for accepted configurations, starts in the initial state, and its plan has the ranking every run theorem assumes |
| `Runtimes.Runtime.PropagateFrom` | crates/logiksmith-core/src/runtime_signals.rs:305-494 | the recursive in-place propagation equals the propagation function, and terminates |
| `Runtimes.Runtime.PropagateSignal` | crates/logiksmith-core/src/runtime_signals.rs:322-398 | one output: signal, metadata and consumers equal the specification |
| `Runtimes.Runtime.DeliverTo` | crates/logiksmith-core/src/runtime_signals.rs:400-491 | one consumer: limit, admission, observation or execution and the nested cascade equal the specification |
| `Runtimes.Runtime.HandOver` | crates/logiksmith-core/src/runtime_signals.rs:406-478 | a consumer that may not run, or is not admitted, only observes |
| `Runtimes.Runtime.AssignExecutionId` | crates/logiksmith-core/src/runtime_signals.rs:295-303 | the identity is the counter, which then saturates at the 64-bit maximum |
| `Runtimes.Runtime.ValidateUsage` | crates/logiksmith-core/src/runtime_impl.rs:79-141 | reports the first exceeded global budget, if any |
| `Runtimes.Runtime.Restore` | crates/logiksmith-core/src/runtime_signals.rs:127-139 | restoring a checkpoint gives back exactly that state |
| `Runtimes.Runtime.FollowRoot` | crates/logiksmith-core/src/runtime_signals.rs:181-212 | following a root, rolling back all failures but the cascade limit, equals the specification |
| `Runtimes.Runtime.SelectFirstBlock` | crates/logiksmith-core/src/runtime_impl.rs:412-432 | the nested selection loops find the block of the first due timer |
| `Runtimes.Runtime.ProcessInputUpdate` | crates/logiksmith-core/src/runtime_input_updates.rs:50-156 | the whole new runtime and answer equal the input event |
| `Runtimes.Runtime.ProcessNextDueTimer` | crates/logiksmith-core/src/runtime_signals.rs:181-212 | the whole new runtime and answer equal the timer event |
| `Runtimes.Runtime.ProcessSchedule` | crates/logiksmith-core/src/runtime_signals.rs:261-293 | the whole new runtime and answer equal the schedule event |
| `Runtimes.Runtime.ResumeBlockHealth` | crates/logiksmith-core/src/runtime_impl.rs:167-171 | resuming resets one block, or reports it unknown |
| `Runtimes.Runtime.Activate` | crates/logiksmith-core/src/runtime_activation.rs:3-86 | a batch is checked as a whole before anything changes; then every update is applied |
| `Runtimes.Runtime.Initialise` | crates/logiksmith-core/src/runtime_impl.rs:566-608 | the whole new runtime equals schedule initialisation |
| `Runtimes.Runtime.Poll` | crates/logiksmith-core/src/runtime_impl.rs:641-732 | the whole new runtime and triggers equal a poll, whenever every walk it starts stops |
| `Runtimes.Runtime.Rebaseline` | crates/logiksmith-core/src/runtime_impl.rs:739-789 | the whole new runtime equals rebaselining one block |
| `Runtimes.Runtime.NextTimerDeadline` | crates/logiksmith-core/src/runtime_impl.rs:396-403 | the earliest deadline of any timer of an enabled block |
| `Runtimes.Runtime.NextScheduleDeadline` | crates/logiksmith-core/src/runtime_impl.rs:612-634 | the earliest pending occurrence of the enabled schedules |
| `Runtimes.Runtime.AnnotateSimulation` | crates/logiksmith-core/src/runtime_signals.rs:503-549 | reports the predicted effects and, for changed signals, the consumers of enabled blocks, changing nothing |
| `Runtimes.Runtime.SimulateInput` | crates/logiksmith-core/src/runtime_simulation.rs:92-115 | an unknown block or unacceptable scenario is refused; otherwise the simulation with its predicted effects and eligible consumers is returned, changing nothing |
| `CivilDates.DateRoundTrip` | crates/logiksmith-core/src/noaa.rs:21-47 | every valid proleptic Gregorian date is found again from its day, in every era |
| `CivilDates.DayRoundTrip` | crates/logiksmith-core/src/noaa.rs:21-47 | every integer day has a valid date that converts back to it |
| `CivilDates.CastRoundTrip` | crates/logiksmith-core/src/noaa.rs:33-47 | the cast of the year loses nothing exactly when the year fits 32 bits |
| `CivilDates.ConsecutiveDays` | crates/logiksmith-core/src/noaa.rs:33-47 | consecutive days are consecutive calendar dates, and day zero is 1970-01-01 |
| `CivilDates.NextDateIsNextDay` | crates/logiksmith-core/src/noaa.rs:21-30 | the calendar successor of a date is the next day |
| `CivilDates.DayOfYearCounts` | crates/logiksmith-core/src/noaa.rs:50-53 | the day of the year is the sum of the preceding month lengths plus the day |
| `CivilDates.YearOfEraIs` | crates/logiksmith-core/src/noaa.rs:37 | the year formula inverts the days before a year on every day of every era |
| `KnxPayloads.OverflowsExactlyAtTheEnds` | logiksmith-openknx/src/abi_runtime_processor.cpp:148-153 | of all 32-bit scalars the adjustment of the mantissa overflows exactly at the two ends |
| `KnxPayloads.EndsOverflow` | logiksmith-openknx/src/abi_runtime_processor.cpp:148-153 | both ends overflow, although neither has a payload |
| `KnxPayloads.ScaleMantissa` | logiksmith-openknx/src/abi_runtime_processor.cpp:146-155 | for every 32-bit scalar: defined exactly when no step overflows, and then the signed ceiling of the value over a power of two at the least fitting exponent, failing exactly when none fits |
| `KnxPayloads.EncodeValue` | logiksmith-openknx/src/abi_runtime_processor.cpp:126-167 | unless the scaling overflows, a payload is written exactly for encodable values, in place and nowhere else; a refused value writes nothing |
| `KnxPayloads.PayloadExactly` | logiksmith-openknx/src/abi_runtime_processor.cpp:126-167 | a value has a payload exactly if its reserved fields are clear, its kind fits its type and its scalar is in range |
| `KnxPayloads.PayloadReads` | logiksmith-openknx/include/logiksmith_openknx/raw_binding_router.h:112-120 | a receiver reads the switch and the percentage that were sent, from the nearest octet |
| `KnxPayloads.EncodedExactlyInRange` | logiksmith-openknx/src/abi_runtime_processor.cpp:146-155 | a temperature is encoded exactly within the range of the format |
| `KnxPayloads.WrittenAsInvalid` | logiksmith-openknx/src/abi_runtime_processor.cpp:146-165 | a temperature is written as the octets reserved for invalid data exactly if it is above 2046 of the largest units and has a payload |
| `KnxPayloads.FloatRoundTrip` | logiksmith-openknx/include/logiksmith_openknx/raw_binding_router.h:122-133 | decoding the octets gives mantissa times two to the exponent, sign included |
| `KnxPayloads.ReceivedIsClose` | logiksmith-openknx/src/abi_runtime_processor.cpp:146-165 | the decoded temperature is less than one unit of the exponent away from the value, away from zero |
| `KnxPayloads.RepresentableIsExact` | logiksmith-openknx/src/abi_runtime_processor.cpp:146-165 | every representable value is carried exactly |
| `KnxPayloads.ReencodingIsStable` | logiksmith-openknx/include/logiksmith_openknx/raw_binding_router.h:122-133 | decoding any two octets and encoding the result keeps the temperature |
| `KnxPayloads.ReceivedInOrder` | logiksmith-openknx/src/abi_runtime_processor.cpp:146-165 | a warmer temperature is never received as colder |
| `KnxPayloads.PercentRoundTrip` | logiksmith-openknx/src/abi_runtime_processor.cpp:140-145 | every percentage survives its octet |

## Left out

- The Lua interpreter, its sandbox, instruction and memory hooks, and error texts: a handler is any function of the arguments of one call, returning a failure kind or raw values, and every rejection of a result is one failure kind.
- Time zones and daylight saving: the build whose only zone is UTC is modelled, where a date is a number of days; the calendar bounds of the date library are not modelled.
- The solar equations themselves: the crossing of a date is any optional instant and, in `SolarSites`, any function of the day of the year, as the equations are.
- Elapsed-time budgets and probes, and the cascade time limit: results are for hosts without a probe.
- The API variants with and without a clock sample: one step with an optional instant stands for them. The variants that run a root without its cascade appear only as the roots of the cascading ones, so the run theorems are about hosts that use the cascading entry points.
- Names are natural numbers in their order, and strings are sequences of one-byte characters; the grammar of names is not modelled.
- Source revisions: any function of the source. Two sources with the same revision count as the same program, as in the code.
- A program is kept in the engine only, where the code keeps two equal copies; signal consumers are recomputed from the bindings, where the code stores them once.
- The results `activate` returns for each block: only its effect and its errors are modelled.
- Simulation of schedules and of draft sources: only the occurrence test of a schedule simulation is modelled.
- Snapshots, statuses and the other read-only projections of a runtime.
- Numbers a handler returns are reals in the conversion, where a temperature is scaled exactly; `Doubles` and `Temperatures` say what double precision makes of the scaling. Non-finite numbers are a separate value, and the exponents of doubles are not bounded.
- Sizes and counters are unbounded except where the code saturates or casts: identities, failure counts, intervals, deadlines and the year of a date.
- `ScheduleRules.SaturateI64`, and so the interval search, clamps at the upper end only: the 64-bit lower end and overflow inside the arithmetic are not modelled.
- ScheduleRules.FixedWithinAWeek: holds at every integer, while the date library finds nothing past its calendar.
- ScheduleCursors.Coalesce: stops where the next occurrence does not advance, while the loop in the code would not end there; the method `CoalesceOccurrences` tests nothing of the kind and requires an input on which the loop ends.
- ScenarioStates.AcceptedExactlySnapshots: is about scenarios whose inputs are no older than the clock they are simulated at, which the code does not compare.
- Runtimes.Runtime.Poll: requires a sample at which every walk ends and weekday sets that are not empty, which their type guarantees. The theorems over runs are about samples before the last representable instant.
- Desktop, web, XKNX and OpenKNX hosts beyond the payload encoder and decoder: I/O, configuration loading, queues and projections.
