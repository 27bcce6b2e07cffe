/** The attributes of the vendor client's objects that the scripts read,
    as plain records. The client itself (log-in, the HTTP calls behind
    `get_systems` and `boost_domestic_hot_water`) is not part of this model:
    what it returns or raises is an input of the operations that use it. */
module Vendor {
  import opened Wrappers

  /** A float attribute: its value, and the text `str()` prints for it. */
  datatype Number = Number(x: real, repr: string)

  /** A scalar attribute of a vendor object. */
  datatype Value = Num(n: Number) | Text(s: string) | Flag(b: bool)

  datatype Zone = Zone(
    name: Option<Value>,
    currentRoomTemperature: Option<Value>,
    desiredRoomTemperatureSetpoint: Option<Value>,
    currentRoomHumidity: Option<Value>,
    heatingState: Option<Value>)

  datatype Dhw = Dhw(
    currentDhwTemperature: Option<Value>,
    tappingSetpoint: Option<Value>,
    operationModeDhw: Option<Value>,
    currentSpecialFunction: Option<Value>,
    isCylinderBoosting: bool)

  datatype Circuit = Circuit(
    currentCircuitFlowTemperature: Option<Value>,
    circuitState: Option<Value>)

  /** One heating system of the account. A `None` list attribute is
      modelled as the empty sequence. The logger and the boost script treat
      the two alike (`system.zones if system.zones else [None]`, `if not
      system.domestic_hot_water`), but the monitor iterates `system.zones`
      and `system.domestic_hot_water` directly, where `None` would raise. */
  datatype System = System(
    systemName: Option<Value>,
    waterPressure: Option<Number>,
    outdoorTemperature: Option<Value>,
    systemFlowTemperature: Option<Value>,
    connected: Option<Value>,
    energyManagerState: Option<Value>,
    circuits: seq<Circuit>,
    zones: seq<Zone>,
    domesticHotWater: seq<Dhw>)

  /** `str(v)`: `None` prints as "None", booleans as "True"/"False". */
  function Str(v: Option<Value>): string {
    match v
    case None => "None"
    case Some(Num(n)) => n.repr
    case Some(Text(s)) => s
    case Some(Flag(b)) => if b then "True" else "False"
  }

  /** The pressure as a number, for the comparisons of the classifier. */
  function Reading(p: Option<Number>): (r: Option<real>)
    ensures r.Some? <==> p.Some?
  {
    match p
    case None => None
    case Some(n) => Some(n.x)
  }
}
