/** The plain values exchanged by every part of the core.

    Names are only ever compared for equality and order, so each name is a
    natural number standing for its rank in that order. Strings are sequences
    of bytes. */
module Values {
  datatype Option<+T> = None | Some(value: T) {
    function GetOr(default: T): T { if Some? then value else default }
  }
  datatype Result<+T, +E> = Ok(value: T) | Err(error: E)

  type BlockId = nat
  type EndpointName = nat
  type SignalName = nat
  type TimerName = nat
  type ScheduleName = nat
  type LogicRevision = nat
  type MonotonicMs = nat

  const U32_MAX: int := 0xFFFF_FFFF
  const U64_MAX: int := 0xFFFF_FFFF_FFFF_FFFF
  const I32_MIN: int := -0x8000_0000
  const I32_MAX: int := 0x7FFF_FFFF

  datatype Direction = Input | Output

  /** A KNX datapoint type identifier. */
  datatype Dpt = Dpt(major: nat, subtype: nat) {
    predicate IsSupported() {
      this == DPT_BOOL || this == DPT_PERCENT || this == DPT_TEMPERATURE
    }
  }
  const DPT_BOOL := Dpt(1, 1)
  const DPT_PERCENT := Dpt(5, 1)
  const DPT_TEMPERATURE := Dpt(9, 1)

  /** A value paired with its datapoint type; temperatures are signed
      hundredths of a degree. */
  datatype TypedValue =
    | BoolValue(on: bool)
    | PercentValue(percent: nat)
    | TemperatureValue(centi: int)
  {
    function GetDpt(): Dpt {
      match this
      case BoolValue(_) => DPT_BOOL
      case PercentValue(_) => DPT_PERCENT
      case TemperatureValue(_) => DPT_TEMPERATURE
    }
  }

  datatype Endpoint = Endpoint(name: EndpointName, direction: Direction, dpt: Dpt)
  datatype SignalBinding = SignalBinding(endpoint: EndpointName, signal: SignalName)
  datatype SignalConfig = SignalConfig(name: SignalName, dpt: Dpt)
  datatype EndpointRef = EndpointRef(block: BlockId, endpoint: EndpointName)
  datatype LogicProgram = LogicProgram(source: seq<char>, revision: LogicRevision)

  /** The budgets a host selects. */
  datatype Limits = Limits(
    maxLogicBlocks: nat,
    maxSignals: nat,
    maxSignalBindings: nat,
    maxEndpointsPerBlock: nat,
    maxSchedulesPerBlock: nat,
    maxLogicSourceBytesPerBlock: nat,
    maxLogicSourceBytesTotal: nat,
    maxStateEntriesPerBlock: nat,
    maxStateBytesPerBlock: nat,
    maxStateBytesTotal: nat,
    maxPendingTimersPerBlock: nat,
    maxPendingTimersTotal: nat,
    maxOutputEffectsPerExecution: nat,
    maxTimerEffectsPerExecution: nat,
    maxStatePatchEntriesPerExecution: nat,
    maxCombinedEffectsPerExecution: nat,
    maxCascadeExecutions: nat,
    maxLiveExecutionsPerBlockPerSecond: nat)

  /** The two profiles the core ships. */
  const DESKTOP: Limits := Limits(64, 256, 256, 128, 32, 65_536, 1_048_576, 64, 16_384, 524_288, 32, 512, 64, 32, 64, 128, 256, 128)
  const EMBEDDED: Limits := Limits(32, 64, 128, 32, 8, 8192, 131_072, 16, 2048, 32_768, 8, 64, 16, 8, 16, 32, 64, 32)

  /** `a <= b`, where an absent time is earlier than every time. */
  predicate NotAfter(a: Option<MonotonicMs>, b: Option<MonotonicMs>) {
    a.None? || (b.Some? && a.value <= b.value)
  }

  /** The position of the first endpoint called `name`. */
  function EndpointPosition(endpoints: seq<Endpoint>, name: EndpointName): (r: Option<nat>)
    ensures r.Some? ==> r.value < |endpoints| && endpoints[r.value].name == name
    ensures r.Some? ==> forall i :: 0 <= i < r.value ==> endpoints[i].name != name
    ensures r.None? ==> forall i :: 0 <= i < |endpoints| ==> endpoints[i].name != name
  {
    if endpoints == [] then None
    else if endpoints[0].name == name then Some(0)
    else
      var rest := EndpointPosition(endpoints[1..], name);
      assert forall i :: 1 <= i < |endpoints| ==> endpoints[i] == endpoints[1..][i - 1];
      if rest.None? then None else Some(rest.value + 1)
  }

  /** The signal bound to `endpoint`, by the first matching binding. */
  function BoundSignal(bindings: seq<SignalBinding>, endpoint: EndpointName): (r: Option<SignalName>)
    ensures r.Some? ==> SignalBinding(endpoint, r.value) in bindings
    ensures r.None? ==> forall b :: b in bindings ==> b.endpoint != endpoint
  {
    if bindings == [] then None
    else if bindings[0].endpoint == endpoint then Some(bindings[0].signal)
    else BoundSignal(bindings[1..], endpoint)
  }
}
