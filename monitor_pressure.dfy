/** `monitor_pressure.py`: the stand-alone pressure check. It looks at the
    first system the vendor client lists, classifies its water pressure
    with the same chain as the logger, lists its zones and hot-water
    devices one line each, and exits 1 whenever the status calls for
    attention. */
module MonitorPressure {
  import opened Wrappers
  import opened Text
  import opened Vendor
  import opened Pressure
  import opened Retry
  import opened BoilerRows
  import LoggerMain

  /** The status `check_pressure()` returns: a classified reading, or
      "ERROR" when the client lists no system. */
  datatype MonitorStatus = Classified(status: Status) | Error

  /** The text of the report. Its exact layout (banner, emoji, the pressure
      printed with two decimals, the time) is not modelled; its zone and
      hot-water sections are. */
  datatype Report =
    | Message(text: string)
    | Sections(zones: string, dhw: string)

  /** What `check_pressure()` returns: `(pressure, status, report)`. */
  datatype CheckResult = CheckResult(pressure: Option<Number>, status: MonitorStatus, report: Report)

  const NO_SYSTEM: string := "Could not retrieve any system data."
  const NO_ZONES: string := "  (no zones)"
  const NO_DHW: string := "  (no DHW)"

  /** The line listing one zone. */
  function ZoneLine(zone: Zone): string {
    "  " + Str(zone.name) + ": " + Str(zone.currentRoomTemperature) + "°C (target: "
    + Str(zone.desiredRoomTemperatureSetpoint) + "°C, heating: " + Str(zone.heatingState) + ")"
  }

  /** The line listing one hot-water device. */
  function DhwLine(dhw: Dhw): string {
    "  DHW: " + Str(dhw.currentDhwTemperature) + "°C (target: " + Str(dhw.tappingSetpoint)
    + "°C, mode: " + Str(dhw.operationModeDhw) + ")"
  }

  /** The loop building `zones_info`: one line per zone, in order. */
  method ZoneLines(zones: seq<Zone>) returns (lines: seq<string>)
    ensures |lines| == |zones|
    ensures forall i :: 0 <= i < |zones| ==> lines[i] == ZoneLine(zones[i])
  {
    lines := [];
    for i := 0 to |zones|
      invariant |lines| == i
      invariant forall k :: 0 <= k < i ==> lines[k] == ZoneLine(zones[k])
    {
      lines := lines + [ZoneLine(zones[i])];
    }
  }

  /** The loop building `dhw_info`: one line per hot-water device, in
      order. */
  method DhwLines(dhws: seq<Dhw>) returns (lines: seq<string>)
    ensures |lines| == |dhws|
    ensures forall i :: 0 <= i < |dhws| ==> lines[i] == DhwLine(dhws[i])
  {
    lines := [];
    for i := 0 to |dhws|
      invariant |lines| == i
      invariant forall k :: 0 <= k < i ==> lines[k] == DhwLine(dhws[k])
    {
      lines := lines + [DhwLine(dhws[i])];
    }
  }

  /** A section of the report: the lines joined by newlines, or the
      placeholder when there are none. */
  function Section(lines: seq<string>, placeholder: string): (text: string)
    ensures |lines| == 0 ==> text == placeholder
  {
    if |lines| == 0 then placeholder else Join(lines, '\n')
  }

  /** The lines of a section read back one for one, when none of them
      holds a newline. */
  lemma SectionLines(lines: seq<string>, placeholder: string)
    requires |lines| > 0
    requires forall i :: 0 <= i < |lines| ==> '\n' !in lines[i]
    ensures Split(Section(lines, placeholder), '\n') == lines
  {
    SplitJoin(lines, '\n');
  }

  /** A value whose text holds no newline. */
  predicate OneLine(v: Option<Value>) {
    '\n' !in Str(v)
  }

  predicate ZoneOneLine(zone: Zone) {
    OneLine(zone.name) && OneLine(zone.currentRoomTemperature)
    && OneLine(zone.desiredRoomTemperatureSetpoint) && OneLine(zone.heatingState)
  }

  predicate DhwOneLine(dhw: Dhw) {
    OneLine(dhw.currentDhwTemperature) && OneLine(dhw.tappingSetpoint) && OneLine(dhw.operationModeDhw)
  }

  /** The lines of `zones_info`. */
  function ZoneLinesOf(zones: seq<Zone>): (lines: seq<string>)
    ensures |lines| == |zones| && forall i :: 0 <= i < |zones| ==> lines[i] == ZoneLine(zones[i])
  {
    seq(|zones|, (i: int) requires 0 <= i < |zones| => ZoneLine(zones[i]))
  }

  /** The lines of `dhw_info`. */
  function DhwLinesOf(dhws: seq<Dhw>): (lines: seq<string>)
    ensures |lines| == |dhws| && forall i :: 0 <= i < |dhws| ==> lines[i] == DhwLine(dhws[i])
  {
    seq(|dhws|, (i: int) requires 0 <= i < |dhws| => DhwLine(dhws[i]))
  }

  /** The zone section: one line per zone, or "(no zones)". */
  function ZonesSection(zones: seq<Zone>): string {
    Section(ZoneLinesOf(zones), NO_ZONES)
  }

  /** The hot-water section: one line per device, or "(no DHW)". */
  function DhwSection(dhws: seq<Dhw>): string {
    Section(DhwLinesOf(dhws), NO_DHW)
  }

  /** A zone whose attributes print on one line is listed on one line. */
  lemma ZoneLineOneLine(zone: Zone)
    requires ZoneOneLine(zone)
    ensures '\n' !in ZoneLine(zone)
  {
    assert '\n' !in "  " && '\n' !in ": " && '\n' !in "°C (target: " && '\n' !in "°C, heating: " && '\n' !in ")";
  }

  lemma DhwLineOneLine(dhw: Dhw)
    requires DhwOneLine(dhw)
    ensures '\n' !in DhwLine(dhw)
  {
    assert '\n' !in "  DHW: " && '\n' !in "°C (target: " && '\n' !in "°C, mode: " && '\n' !in ")";
  }

  /** The zone section lists the zones one line each, in order, when their
      attributes print on one line; with no zones it is the placeholder. */
  lemma ZonesSectionLines(zones: seq<Zone>)
    requires forall i :: 0 <= i < |zones| ==> ZoneOneLine(zones[i])
    ensures |zones| == 0 ==> ZonesSection(zones) == NO_ZONES
    ensures |zones| > 0 ==> Split(ZonesSection(zones), '\n') == ZoneLinesOf(zones)
  {
    if |zones| > 0 {
      var lines := ZoneLinesOf(zones);
      forall i | 0 <= i < |lines|
        ensures '\n' !in lines[i]
      {
        ZoneLineOneLine(zones[i]);
      }
      SectionLines(lines, NO_ZONES);
    }
  }

  /** The same for the hot-water section. */
  lemma DhwSectionLines(dhws: seq<Dhw>)
    requires forall i :: 0 <= i < |dhws| ==> DhwOneLine(dhws[i])
    ensures |dhws| == 0 ==> DhwSection(dhws) == NO_DHW
    ensures |dhws| > 0 ==> Split(DhwSection(dhws), '\n') == DhwLinesOf(dhws)
  {
    if |dhws| > 0 {
      var lines := DhwLinesOf(dhws);
      forall i | 0 <= i < |lines|
        ensures '\n' !in lines[i]
      {
        DhwLineOneLine(dhws[i]);
      }
      SectionLines(lines, NO_DHW);
    }
  }

  /** `check_pressure()` over the systems the client lists: the function
      returns inside the loop, so only the first system counts. */
  function CheckPressure(systems: seq<System>, warning: real, critical: real): (r: CheckResult)
    ensures |systems| == 0 <==> r.status == Error
    ensures |systems| == 0 ==> r == CheckResult(None, Error, Message(NO_SYSTEM))
    ensures |systems| > 0 ==> r.pressure == systems[0].waterPressure
                              && r.status == Classified(Classify(Reading(systems[0].waterPressure), warning, critical))
  {
    if |systems| == 0 then CheckResult(None, Error, Message(NO_SYSTEM))
    else
      var system := systems[0];
      var status := Classify(Reading(system.waterPressure), warning, critical);
      CheckResult(system.waterPressure, Classified(status),
                  Sections(ZonesSection(system.zones), DhwSection(system.domesticHotWater)))
  }

  /** `check_pressure()` as the script runs it: the body of the loop over
      systems runs once, for the first system, and returns. */
  method RunCheck(systems: seq<System>, warning: real, critical: real) returns (r: CheckResult)
    ensures r == CheckPressure(systems, warning, critical)
  {
    if |systems| == 0 {
      return CheckResult(None, Error, Message(NO_SYSTEM));
    }
    var system := systems[0];
    var zonesInfo := ZoneLines(system.zones);
    var dhwInfo := DhwLines(system.domesticHotWater);
    var status := Classify(Reading(system.waterPressure), warning, critical);
    var zonesText := if |zonesInfo| > 0 then Join(zonesInfo, '\n') else NO_ZONES;
    var dhwText := if |dhwInfo| > 0 then Join(dhwInfo, '\n') else NO_DHW;
    assert zonesInfo == ZoneLinesOf(system.zones);
    assert dhwInfo == DhwLinesOf(system.domesticHotWater);
    r := CheckResult(system.waterPressure, Classified(status), Sections(zonesText, dhwText));
  }

  /** The exit status `main` maps a status to: 1 for CRITICAL, WARNING and
      UNKNOWN, 0 for OK and for ERROR. */
  function ExitCode(status: MonitorStatus): (code: int)
    ensures code == 1 <==> status.Classified? && IsAlert(status.status)
    ensures code == 0 <==> status == Error || status == Classified(Ok)
  {
    match status
    case Classified(Critical) => 1
    case Classified(Warning) => 1
    case Classified(Unknown) => 1
    case _ => 0
  }

  /** `main()`: the exit status, given the systems listing or the exception
      it raised (which nothing catches, so the process exits 1). */
  function MainExit(listing: Attempt<seq<System>>, warning: real, critical: real): int {
    match listing
    case Raised(_) => 1
    case Returned(systems) => ExitCode(CheckPressure(systems, warning, critical).status)
  }

  /** `main()` as the script runs it. */
  method RunMonitor(listing: Attempt<seq<System>>, warning: real, critical: real)
    returns (exitCode: int, result: Option<CheckResult>)
    ensures exitCode == MainExit(listing, warning, critical)
    ensures result.Some? <==> listing.Returned?
    ensures result.Some? ==> result.value == CheckPressure(listing.value, warning, critical)
  {
    if listing.Raised? {
      return 1, None;
    }
    var r := RunCheck(listing.value, warning, critical);
    result := Some(r);
    if r.status == Classified(Critical) {
      exitCode := 1;
    } else if r.status == Classified(Warning) {
      exitCode := 1;
    } else if r.status == Classified(Unknown) {
      exitCode := 1;
    } else {
      exitCode := 0;
    }
  }

  // ---- properties ----

  /** The monitor exits 1 exactly when the listing raised, or when the
      first system's pressure is missing or below the warning cutoff; an
      empty listing ("ERROR") exits 0. */
  lemma ExitOneIff(listing: Attempt<seq<System>>, warning: real, critical: real)
    ensures MainExit(listing, warning, critical) == 1 || MainExit(listing, warning, critical) == 0
    ensures MainExit(listing, warning, critical) == 1 <==>
              listing.Raised?
              || (|listing.value| > 0
                  && (listing.value[0].waterPressure.None? || listing.value[0].waterPressure.value.x < warning
                      || listing.value[0].waterPressure.value.x < critical))
  {
  }

  /** Only the first system is examined: the systems after it change
      nothing. */
  lemma OnlyFirstSystem(systems: seq<System>, warning: real, critical: real)
    requires |systems| > 0
    ensures CheckPressure(systems, warning, critical) == CheckPressure(systems[..1], warning, critical)
  {
  }

  /** On a single system the monitor and the logger classify alike, and
      the monitor exits 1 exactly when the logger would alert. */
  lemma AgreesWithLogger(system: System, warning: real, critical: real)
    ensures CheckPressure([system], warning, critical).status
            == Classified(LoggerMain.CheckPressure(Some(InfoOf(system)), warning, critical))
    ensures MainExit(Returned([system]), warning, critical) == 1
            <==> IsAlert(LoggerMain.CheckPressure(Some(InfoOf(system)), warning, critical))
  {
  }
}
