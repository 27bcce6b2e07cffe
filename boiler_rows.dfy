/** `read_boiler_data` in `log_boiler_data.py`: one CSV row per (zone,
    hot-water device) pair of every system, zone-major, with `[None]`
    standing in for an empty zone or device list; plus the summary of the
    last system that the pressure check reads. */
module BoilerRows {
  import opened Wrappers
  import opened Vendor
  import opened Timestamps

  /** One row of the log: the cells of the system, of one zone and of one
      hot-water device, in the column order of `CSV_HEADERS`. */
  datatype Row = Row(system: SystemCells, zone: ZoneCells, dhw: DhwCells)

  /** The zone columns: zone_name, zone_current_temp_c, zone_target_temp_c,
      zone_humidity_pct, zone_heating_state. */
  datatype ZoneCells = ZoneCells(
    name: Option<Value>,
    currentTemp: Option<Value>,
    targetTemp: Option<Value>,
    humidity: Option<Value>,
    heatingState: Option<Value>)

  /** The hot-water columns: dhw_current_temp_c, dhw_target_temp_c,
      dhw_operation_mode, dhw_current_special_function. */
  datatype DhwCells = DhwCells(
    currentTemp: Option<Value>,
    targetTemp: Option<Value>,
    operationMode: Option<Value>,
    specialFunction: Option<Value>)

  /** The `info` dictionary: the fields of one system the pressure check
      and its report use. */
  datatype Info = Info(
    pressure: Option<Number>,
    outdoorTemp: Option<Value>,
    circuitFlow: Option<Value>,
    connected: Option<Value>,
    systemName: Option<Value>,
    zones: seq<Zone>,
    dhw: seq<Dhw>)

  /** The system-level columns, shared by all rows of one system: timestamp,
      water_pressure_bar, outdoor_temp_c, circuit_flow_temp_c,
      energy_manager_state, circuit_state, connected. */
  datatype SystemCells = SystemCells(
    timestamp: string,
    pressure: Option<Value>,
    outdoorTemp: Option<Value>,
    circuitFlow: Option<Value>,
    energyState: Option<Value>,
    circuitState: Option<Value>,
    connected: Option<Value>)

  function PressureCell(p: Option<Number>): (v: Option<Value>)
    ensures v.Some? <==> p.Some?
  {
    match p
    case None => None
    case Some(n) => Some(Num(n))
  }

  /** The system-level cells of a system read at time `now`; the circuit
      cells come from the first circuit, or are `None` with no circuit. */
  function CellsOf(system: System, now: DateTime): SystemCells
    requires Valid(now)
  {
    var circuits := system.circuits;
    SystemCells(
      Format(now),
      PressureCell(system.waterPressure),
      system.outdoorTemperature,
      if |circuits| > 0 then circuits[0].currentCircuitFlowTemperature else None,
      system.energyManagerState,
      if |circuits| > 0 then circuits[0].circuitState else None,
      system.connected)
  }

  /** `zone.attr if zone else None` for each zone column. */
  function ZoneCellsOf(zone: Option<Zone>): ZoneCells {
    match zone
    case None => ZoneCells(None, None, None, None, None)
    case Some(z) =>
      ZoneCells(z.name, z.currentRoomTemperature, z.desiredRoomTemperatureSetpoint,
                z.currentRoomHumidity, z.heatingState)
  }

  /** `dhw.attr if dhw else None` for each hot-water column. */
  function DhwCellsOf(dhw: Option<Dhw>): DhwCells {
    match dhw
    case None => DhwCells(None, None, None, None)
    case Some(d) =>
      DhwCells(d.currentDhwTemperature, d.tappingSetpoint, d.operationModeDhw, d.currentSpecialFunction)
  }

  /** The row built for one zone and one hot-water device. */
  function MakeRow(cells: SystemCells, zone: Option<Zone>, dhw: Option<Dhw>): Row {
    Row(cells, ZoneCellsOf(zone), DhwCellsOf(dhw))
  }

  /** `system.zones if system.zones else [None]`. */
  function ZonesOrNone(zones: seq<Zone>): (r: seq<Option<Zone>>)
    ensures |r| == if |zones| == 0 then 1 else |zones|
    ensures |zones| == 0 ==> r == [None]
    ensures |zones| > 0 ==> forall i :: 0 <= i < |zones| ==> r[i] == Some(zones[i])
  {
    if |zones| == 0 then [None] else seq(|zones|, (i: int) requires 0 <= i < |zones| => Some(zones[i]))
  }

  /** `system.domestic_hot_water if system.domestic_hot_water else [None]`. */
  function DhwOrNone(dhws: seq<Dhw>): (r: seq<Option<Dhw>>)
    ensures |r| == if |dhws| == 0 then 1 else |dhws|
    ensures |dhws| == 0 ==> r == [None]
    ensures |dhws| > 0 ==> forall i :: 0 <= i < |dhws| ==> r[i] == Some(dhws[i])
  {
    if |dhws| == 0 then [None] else seq(|dhws|, (i: int) requires 0 <= i < |dhws| => Some(dhws[i]))
  }

  /** The rows of one zone: one per device, in device order. */
  function DeviceRows(cells: SystemCells, zone: Option<Zone>, dhws: seq<Option<Dhw>>): (rows: seq<Row>)
    ensures |rows| == |dhws|
  {
    seq(|dhws|, (j: int) requires 0 <= j < |dhws| => MakeRow(cells, zone, dhws[j]))
  }

  /** The rows of the nested loops over `zones` and then `dhws`. */
  function ProductRows(cells: SystemCells, zones: seq<Option<Zone>>, dhws: seq<Option<Dhw>>): seq<Row>
    decreases |zones|
  {
    if |zones| == 0 then []
    else ProductRows(cells, zones[..|zones| - 1], dhws) + DeviceRows(cells, zones[|zones| - 1], dhws)
  }

  /** The rows of one system read at time `now`. */
  function SystemRows(system: System, now: DateTime): seq<Row>
    requires Valid(now)
  {
    ProductRows(CellsOf(system, now), ZonesOrNone(system.zones), DhwOrNone(system.domesticHotWater))
  }

  /** The rows of all systems, the `i`-th read at time `clock[i]`. */
  function AllRows(systems: seq<System>, clock: seq<Instant>): seq<Row>
    requires |clock| >= |systems|
    decreases |systems|
  {
    if |systems| == 0 then []
    else AllRows(systems[..|systems| - 1], clock) + SystemRows(systems[|systems| - 1], clock[|systems| - 1])
  }

  function InfoOf(system: System): Info {
    Info(system.waterPressure, system.outdoorTemperature,
         if |system.circuits| > 0 then system.circuits[0].currentCircuitFlowTemperature else None,
         system.connected, system.systemName, system.zones, system.domesticHotWater)
  }

  /** The body of the loop over systems in `read_boiler_data()`: the
      nested loops over the zones (or `[None]`) and, for each zone, the
      devices (or `[None]`), appending one row per pair. */
  method ReadSystemRows(system: System, now: Instant) returns (rows: seq<Row>)
    ensures rows == SystemRows(system, now)
  {
    var cells := CellsOf(system, now);
    var zones := ZonesOrNone(system.zones);
    var dhwList := DhwOrNone(system.domesticHotWater);
    rows := [];
    var z := 0;
    while z < |zones|
      invariant 0 <= z <= |zones|
      invariant rows == ProductRows(cells, zones[..z], dhwList)
    {
      rows := ReadZoneRows(cells, zones[z], dhwList, rows);
      assert zones[..z + 1][..z] == zones[..z];
      z := z + 1;
    }
    assert zones[..|zones|] == zones;
  }

  /** The inner loop over the devices (or `[None]`) for one zone,
      appending one row per device. */
  method ReadZoneRows(cells: SystemCells, zone: Option<Zone>, dhwList: seq<Option<Dhw>>, done: seq<Row>)
    returns (rows: seq<Row>)
    ensures rows == done + DeviceRows(cells, zone, dhwList)
  {
    ghost var zoneRows := DeviceRows(cells, zone, dhwList);
    rows := done;
    var d := 0;
    while d < |dhwList|
      invariant 0 <= d <= |dhwList|
      invariant rows == done + zoneRows[..d]
    {
      rows := rows + [MakeRow(cells, zone, dhwList[d])];
      assert zoneRows[..d + 1] == zoneRows[..d] + [zoneRows[d]];
      d := d + 1;
    }
    assert zoneRows[..|dhwList|] == zoneRows;
  }

  /** One more system adds its rows at the end. */
  lemma AllRowsSnoc(systems: seq<System>, clock: seq<Instant>, i: nat)
    requires i < |systems| <= |clock|
    ensures AllRows(systems[..i + 1], clock) == AllRows(systems[..i], clock) + SystemRows(systems[i], clock[i])
  {
    var prefix := systems[..i + 1];
    assert |prefix| == i + 1 && prefix[i] == systems[i];
    assert prefix[..i] == systems[..i];
    assert AllRows(prefix, clock) == AllRows(prefix[..i], clock) + SystemRows(prefix[i], clock[i]);
  }

  /** `read_boiler_data()` over the systems the client yields, reading the
      clock once per system. `info` stays `{}` (here `None`) when there is
      no system, and is otherwise overwritten by every system in turn, so it
      describes the last one. */
  method ReadBoilerData(systems: seq<System>, clock: seq<Instant>) returns (rows: seq<Row>, info: Option<Info>)
    requires |clock| >= |systems|
    ensures rows == AllRows(systems, clock)
    ensures info == if |systems| == 0 then None else Some(InfoOf(systems[|systems| - 1]))
  {
    rows, info := [], None;
    var i := 0;
    while i < |systems|
      invariant 0 <= i <= |systems|
      invariant rows == AllRows(systems[..i], clock)
      invariant info == if i == 0 then None else Some(InfoOf(systems[i - 1]))
    {
      var systemRows := ReadSystemRows(systems[i], clock[i]);
      AllRowsSnoc(systems, clock, i);
      rows := rows + systemRows;
      info := Some(InfoOf(systems[i]));
      i := i + 1;
    }
    assert systems[..|systems|] == systems;
  }

  // ---- what the rows are ----

  lemma MulBelow(i: nat, j: nat, n: nat, m: nat)
    requires i < n && j < m
    ensures i * m + j < n * m
  {
    assert (i + 1) * m <= n * m;
  }

  /** The nested loops yield |zones| * |dhws| rows. */
  lemma {:induction false} ProductRowsLength(cells: SystemCells, zones: seq<Option<Zone>>, dhws: seq<Option<Dhw>>)
    ensures |ProductRows(cells, zones, dhws)| == |zones| * |dhws|
    decreases |zones|
  {
    if |zones| > 0 {
      ProductRowsLength(cells, zones[..|zones| - 1], dhws);
      assert (|zones| - 1) * |dhws| + |dhws| == |zones| * |dhws|;
    }
  }

  /** The nested loops yield the cartesian product, zone-major: the row for
      zone `i` and device `j` sits at position `i * |dhws| + j`. */
  lemma {:induction false} ProductRowAt(cells: SystemCells, zones: seq<Option<Zone>>, dhws: seq<Option<Dhw>>, i: nat, j: nat)
    requires i < |zones| && j < |dhws|
    ensures i * |dhws| + j < |ProductRows(cells, zones, dhws)|
    ensures ProductRows(cells, zones, dhws)[i * |dhws| + j] == MakeRow(cells, zones[i], dhws[j])
    decreases |zones|
  {
    var n, m := |zones| - 1, |dhws|;
    var init := zones[..n];
    var front, back := ProductRows(cells, init, dhws), DeviceRows(cells, zones[n], dhws);
    ProductRowsLength(cells, init, dhws);
    assert ProductRows(cells, zones, dhws) == front + back;
    if i < n {
      ProductRowAt(cells, init, dhws, i, j);
      MulBelow(i, j, n, m);
      assert zones[i] == init[i];
    } else {
      assert (front + back)[n * m + j] == back[j];
    }
  }

  /** Every row of a system carries the same system-level cells. */
  lemma {:induction false} ProductRowsShareCells(cells: SystemCells, zones: seq<Option<Zone>>, dhws: seq<Option<Dhw>>)
    ensures forall r :: r in ProductRows(cells, zones, dhws) ==> r.system == cells
    decreases |zones|
  {
    if |zones| > 0 {
      ProductRowsShareCells(cells, zones[..|zones| - 1], dhws);
    }
  }

  /** A system yields max(1, |zones|) * max(1, |devices|) rows, and all of
      them carry the same system-level cells: the time of reading, the
      pressure, the outdoor temperature, the energy-manager state, the
      connection flag and the cells of the first circuit (`None` with no
      circuit). */
  lemma SystemRowsShape(system: System, now: DateTime)
    requires Valid(now)
    ensures |SystemRows(system, now)|
            == (if |system.zones| == 0 then 1 else |system.zones|)
               * (if |system.domesticHotWater| == 0 then 1 else |system.domesticHotWater|)
    ensures forall r :: r in SystemRows(system, now) ==>
              r.system.timestamp == Format(now) && r.system.pressure == PressureCell(system.waterPressure)
              && r.system.outdoorTemp == system.outdoorTemperature && r.system.connected == system.connected
              && r.system.energyState == system.energyManagerState
              && r.system.circuitFlow == (if |system.circuits| > 0 then system.circuits[0].currentCircuitFlowTemperature else None)
              && r.system.circuitState == (if |system.circuits| > 0 then system.circuits[0].circuitState else None)
  {
    var cells := CellsOf(system, now);
    var zones, dhws := ZonesOrNone(system.zones), DhwOrNone(system.domesticHotWater);
    ProductRowsLength(cells, zones, dhws);
    ProductRowsShareCells(cells, zones, dhws);
  }

  /** Every zone appears with every device: with both lists non-empty, the
      row at `i * |devices| + j` holds the cells of zone `i` and device `j`
      (`EmptyListColumns` covers an empty list). */
  lemma ZoneDeviceRow(system: System, now: DateTime, i: nat, j: nat)
    requires Valid(now)
    requires i < |system.zones| && j < |system.domesticHotWater|
    ensures var rows := SystemRows(system, now);
            var k := i * |system.domesticHotWater| + j;
            k < |rows| && rows[k].zone == ZoneCellsOf(Some(system.zones[i]))
            && rows[k].dhw == DhwCellsOf(Some(system.domesticHotWater[j]))
  {
    var cells := CellsOf(system, now);
    var zones, dhws := ZonesOrNone(system.zones), DhwOrNone(system.domesticHotWater);
    ProductRowAt(cells, zones, dhws, i, j);
  }

  /** Rows built from zones that are all `z` carry `z`'s cells. */
  lemma {:induction false} ProductRowsZone(cells: SystemCells, zones: seq<Option<Zone>>, dhws: seq<Option<Dhw>>, z: Option<Zone>)
    requires forall i :: 0 <= i < |zones| ==> zones[i] == z
    ensures forall r :: r in ProductRows(cells, zones, dhws) ==> r.zone == ZoneCellsOf(z)
    decreases |zones|
  {
    if |zones| > 0 {
      ProductRowsZone(cells, zones[..|zones| - 1], dhws, z);
    }
  }

  /** Rows built from devices that are all `d` carry `d`'s cells. */
  lemma {:induction false} ProductRowsDevice(cells: SystemCells, zones: seq<Option<Zone>>, dhws: seq<Option<Dhw>>, d: Option<Dhw>)
    requires forall j :: 0 <= j < |dhws| ==> dhws[j] == d
    ensures forall r :: r in ProductRows(cells, zones, dhws) ==> r.dhw == DhwCellsOf(d)
    decreases |zones|
  {
    if |zones| > 0 {
      ProductRowsDevice(cells, zones[..|zones| - 1], dhws, d);
    }
  }

  /** With no zones, every row of the system holds `None` in all zone
      columns; with no hot-water device, `None` in all device columns. */
  lemma EmptyListColumns(system: System, now: DateTime)
    requires Valid(now)
    ensures |system.zones| == 0 ==>
              forall r :: r in SystemRows(system, now) ==> r.zone == ZoneCells(None, None, None, None, None)
    ensures |system.domesticHotWater| == 0 ==>
              forall r :: r in SystemRows(system, now) ==> r.dhw == DhwCells(None, None, None, None)
  {
    var cells := CellsOf(system, now);
    var zones, dhws := ZonesOrNone(system.zones), DhwOrNone(system.domesticHotWater);
    if |system.zones| == 0 {
      ProductRowsZone(cells, zones, dhws, None);
    }
    if |system.domesticHotWater| == 0 {
      ProductRowsDevice(cells, zones, dhws, None);
    }
  }

  /** Every system yields at least one row, so no rows means no systems:
      the only case `main` reports as "No data retrieved". */
  lemma {:induction false} NoRowsIffNoSystems(systems: seq<System>, clock: seq<Instant>)
    requires |clock| >= |systems|
    ensures |AllRows(systems, clock)| == 0 <==> |systems| == 0
  {
    if |systems| > 0 {
      var last := systems[|systems| - 1];
      SystemRowsShape(last, clock[|systems| - 1]);
    }
  }

  /** The last row written comes from the last system and carries the time
      at which that system was read. */
  lemma LastRowStamp(systems: seq<System>, clock: seq<Instant>)
    requires |clock| >= |systems| > 0
    ensures var rows := AllRows(systems, clock);
            |rows| > 0 && rows[|rows| - 1].system.timestamp == Format(clock[|systems| - 1])
  {
    var n := |systems|;
    var own := SystemRows(systems[n - 1], clock[n - 1]);
    SystemRowsShape(systems[n - 1], clock[n - 1]);
    assert own[|own| - 1] in own;
    var rows := AllRows(systems, clock);
    assert rows[|rows| - 1] == own[|own| - 1];
  }
}
