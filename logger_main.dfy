/** `main` of `log_boiler_data.py`: the rate gate, the retry loop around
    `read_boiler_data`, the append to the month's CSV file, the pressure
    check and the alert. The log directory is a map from file path to the
    lines of that file; the vendor client, the clock and the Pushover
    transport are inputs collected in a `World`. */
module LoggerMain {
  import opened Wrappers
  import opened Timestamps
  import opened Vendor
  import opened Pressure
  import opened Retry
  import opened BoilerRows
  import opened BoilerLog
  import opened Pushover

  /** `wait = 120 * (attempt + 1)`. */
  const BACKOFF_BASE: int := 120

  /** The settings the script reads from the environment. */
  datatype Config = Config(
    dir: string,            // CSV_DIR
    minInterval: int,       // MIN_INTERVAL_SECONDS
    warning: real,          // PRESSURE_WARNING
    critical: real,         // PRESSURE_CRITICAL
    token: Option<string>,  // PUSHOVER_APP_TOKEN
    users: string)          // PUSHOVER_USER_KEY

  /** What one run meets from outside: the time `too_soon` reads, the
      outcome of each `read_boiler_data` attempt (the systems listed, or
      the exception raised), the times at which the systems of the
      successful attempt are read, the time `append_to_csv` reads, the
      report text, and whether Pushover accepts a request. */
  datatype World = World(
    gateNow: Instant,
    fetches: seq<Attempt<seq<System>>>,
    clock: seq<Instant>,
    appendNow: Instant,
    report: string,
    accepts: Message -> bool)

  /** One outcome scripted per attempt, and a clock reading for every
      system a successful attempt lists. */
  predicate WellFormed(w: World) {
    |w.fetches| >= MAX_RETRIES
    && forall k :: 0 <= k < |w.fetches| && w.fetches[k].Returned? ==> |w.fetches[k].value| <= |w.clock|
  }

  /** How a run ends: the exit status, the number of `read_boiler_data`
      calls, the sleeps, the log directory afterwards, the status of the
      pressure check (when it ran), and the Pushover requests made and the
      users whose request failed. */
  datatype Outcome = Outcome(
    exitCode: int,
    fetches: nat,
    sleeps: seq<int>,
    files: map<string, seq<string>>,
    status: Option<Status>,
    requests: seq<Message>,
    failed: seq<string>)

  /** The file at `path`, or `None` when it does not exist. */
  function FileAt(files: map<string, seq<string>>, path: string): (f: Option<seq<string>>)
    ensures f.Some? <==> path in files
    ensures f.Some? ==> f.value == files[path]
  {
    if path in files then Some(files[path]) else None
  }

  /** `check_pressure(info)`: the status of the pressure in `info`; an
      empty `info` (`None`) has no pressure and is UNKNOWN. */
  function CheckPressure(info: Option<Info>, warning: real, critical: real): (s: Status)
    ensures s == Unknown <==> info.None? || info.value.pressure.None?
    ensures s == Critical <==> info.Some? && info.value.pressure.Some? && info.value.pressure.value.x < critical
    ensures s == Warning <==> info.Some? && info.value.pressure.Some?
                              && critical <= info.value.pressure.value.x < warning
  {
    Classify(if info.None? then None else Reading(info.value.pressure), warning, critical)
  }

  /** The second half of `main`, once `read_boiler_data` has returned
      the rows of `systems`: no rows exit 1; otherwise the rows go to the
      month's file (an `IndexError` there exits 1), and the pressure of
      the last system is checked, alerting unless it is OK. */
  function Logged(cfg: Config, files: map<string, seq<string>>, w: World,
                  systems: seq<System>, calls: nat, sleeps: seq<int>): Outcome
    requires |systems| <= |w.clock|
  {
    var rows := AllRows(systems, w.clock);
    if |rows| == 0 then Outcome(1, calls, sleeps, files, None, [], [])
    else
      var path := LogPath(cfg.dir, w.appendNow);
      match Appended(FileAt(files, path), rows)
      case Failure(_) => Outcome(1, calls, sleeps, files, None, [], [])
      case Success(lines) =>
        var status := CheckPressure(Some(InfoOf(systems[|systems| - 1])), cfg.warning, cfg.critical);
        var requests := if IsAlert(status) then Requests(w.report, status, cfg.token, cfg.users) else [];
        Outcome(0, calls, sleeps, files[path := lines], Some(status), requests, FailedUsers(requests, w.accepts))
  }

  /** The gate that opens a run: `too_soon()` on the month's file. */
  predicate Skipped(cfg: Config, files: map<string, seq<string>>, w: World) {
    TooSoon(FileAt(files, LogPath(cfg.dir, w.gateNow)), w.gateNow, cfg.minInterval)
  }

  /** `main` after the gate, once the retry loop has ended as `run`: a
      final error exits 1, the rows fetched are logged. */
  function Fetched(cfg: Config, files: map<string, seq<string>>, w: World, run: Run<seq<System>>): Outcome
    requires run.Finished? ==> |run.value| <= |w.clock|
  {
    match run
    case Failed(_, sleeps) => Outcome(1, Calls(run), sleeps, files, None, [], [])
    case Exhausted(sleeps) => Outcome(1, Calls(run), sleeps, files, None, [], [])
    case Finished(systems, sleeps) => Logged(cfg, files, w, systems, Calls(run), sleeps)
  }

  /** The retry loop's run honours the clock precondition. */
  lemma RunFits(w: World)
    requires WellFormed(w)
    ensures var run := RetryFrom(w.fetches, 0, BACKOFF_BASE);
            run.Finished? ==> |run.value| <= |w.clock|
  {
    RetryRun(w.fetches, BACKOFF_BASE);
  }

  /** What `main` does, as a function of the configuration, the log
      directory and the world: skip when the gate holds, else fetch with
      retries and log what was fetched. */
  function MainRun(cfg: Config, files: map<string, seq<string>>, w: World): Outcome
    requires WellFormed(w)
  {
    if Skipped(cfg, files, w) then Outcome(0, 0, [], files, None, [], [])
    else
      RunFits(w);
      Fetched(cfg, files, w, RetryFrom(w.fetches, 0, BACKOFF_BASE))
  }

  /** `main()`: the script run once. */
  method RunLogger(cfg: Config, files: map<string, seq<string>>, w: World) returns (out: Outcome)
    requires WellFormed(w)
    ensures out == MainRun(cfg, files, w)
  {
    if TooSoon(FileAt(files, LogPath(cfg.dir, w.gateNow)), w.gateNow, cfg.minInterval) {
      return Outcome(0, 0, [], files, None, [], []);
    }
    assert !Skipped(cfg, files, w);
    var run, rows, info := ReadWithRetry(w);
    if run.Failed? {
      return Outcome(1, Calls(run), run.sleeps, files, None, [], []);
    }
    // the loop never falls through (see `NeverExhausted`); if it did, the
    // rows would still be empty
    out := LogAndAlert(cfg, files, w, if run.Finished? then run.value else [], rows, info, Calls(run), run.sleeps);
  }

  /** The retry loop of `main` around `read_boiler_data()`: how it ended,
      and the rows and `info` built from the systems of the attempt that
      returned. */
  method ReadWithRetry(w: World) returns (run: Run<seq<System>>, rows: seq<Row>, info: Option<Info>)
    requires WellFormed(w)
    ensures run == RetryFrom(w.fetches, 0, BACKOFF_BASE)
    ensures run.Finished? ==> |run.value| <= |w.clock| && rows == AllRows(run.value, w.clock)
                              && info == if |run.value| == 0 then None else Some(InfoOf(run.value[|run.value| - 1]))
    ensures !run.Finished? ==> rows == [] && info == None
  {
    run := RetryReads(w.fetches);
    rows, info := [], None;
    if run.Finished? {
      RunFits(w);
      rows, info := ReadBoilerData(run.value, w.clock);
    }
  }

  /** `for attempt in range(max_retries)` with its `try`/`except`: the
      vendor listing of each attempt is `fetches[attempt]`. */
  method RetryReads(fetches: seq<Attempt<seq<System>>>) returns (run: Run<seq<System>>)
    requires |fetches| >= MAX_RETRIES
    ensures run == RetryFrom(fetches, 0, BACKOFF_BASE)
  {
    ghost var whole := RetryFrom(fetches, 0, BACKOFF_BASE);
    var sleeps: seq<int> := [];
    var attempt := 0;
    assert whole == After(sleeps, whole);
    while attempt < MAX_RETRIES
      invariant 0 <= attempt <= MAX_RETRIES
      invariant |sleeps| == attempt
      invariant whole == After(sleeps, RetryFrom(fetches, attempt, BACKOFF_BASE))
      decreases MAX_RETRIES - attempt
    {
      RetryStep(fetches, attempt, BACKOFF_BASE, sleeps);
      match fetches[attempt] {
        case Returned(systems) =>
          return Finished(systems, sleeps);
        case Raised(m) =>
          if IsAuthError(m) && attempt < MAX_RETRIES - 1 {
            sleeps := sleeps + [BACKOFF_BASE * (attempt + 1)];
          } else {
            return Failed(m, sleeps);
          }
      }
      attempt := attempt + 1;
    }
    run := Exhausted(sleeps);
  }

  /** The statements of `main` after the retry loop, given the rows and
      `info` that `read_boiler_data` returned for `systems`. */
  method LogAndAlert(cfg: Config, files: map<string, seq<string>>, w: World, ghost systems: seq<System>,
                     rows: seq<Row>, info: Option<Info>, calls: nat, sleeps: seq<int>)
    returns (out: Outcome)
    requires |systems| <= |w.clock|
    requires rows == AllRows(systems, w.clock)
    requires info == if |systems| == 0 then None else Some(InfoOf(systems[|systems| - 1]))
    ensures out == Logged(cfg, files, w, systems, calls, sleeps)
  {
    if |rows| == 0 {
      return Outcome(1, calls, sleeps, files, None, [], []);
    }
    assert |systems| > 0 by {
      NoRowsIffNoSystems(systems, w.clock);
    }
    var path := LogPath(cfg.dir, w.appendNow);
    var appended := AppendToCsv(FileAt(files, path), rows);
    if appended.Failure? {
      return Outcome(1, calls, sleeps, files, None, [], []);
    }
    var status := CheckPressure(info, cfg.warning, cfg.critical);
    var requests: seq<Message> := [];
    var failed: seq<string> := [];
    if IsAlert(status) {
      requests, failed := SendPushoverAlert(w.report, status, cfg.token, cfg.users, w.accepts);
    }
    out := Outcome(0, calls, sleeps, files[path := appended.value], Some(status), requests, failed);
  }

  // ---- what a run does ----

  /** No vendor call is made exactly when the gate holds, and a skipped run
      leaves the log as it was and exits 0. */
  lemma NoFetchIffSkipped(cfg: Config, files: map<string, seq<string>>, w: World)
    requires WellFormed(w)
    ensures MainRun(cfg, files, w).fetches == 0 <==> Skipped(cfg, files, w)
    ensures Skipped(cfg, files, w) ==> MainRun(cfg, files, w).exitCode == 0 && MainRun(cfg, files, w).files == files
  {
    NeverExhausted(w.fetches, BACKOFF_BASE);
  }

  /** The calls and sleeps of a run are those of the retry loop, or none
      when the gate holds. */
  lemma MainTrace(cfg: Config, files: map<string, seq<string>>, w: World)
    requires WellFormed(w)
    ensures var out := MainRun(cfg, files, w);
            var run := RetryFrom(w.fetches, 0, BACKOFF_BASE);
            out.fetches == (if Skipped(cfg, files, w) then 0 else Calls(run))
            && out.sleeps == (if Skipped(cfg, files, w) then [] else run.sleeps)
  {
  }

  /** At most three calls to `read_boiler_data`, with 120 s after the first
      failed call and 240 s after the second: one sleep fewer than calls,
      and 360 s of sleep at most. */
  lemma FetchBounds(cfg: Config, files: map<string, seq<string>>, w: World)
    requires WellFormed(w)
    ensures var out := MainRun(cfg, files, w);
            out.fetches <= MAX_RETRIES
            && (out.fetches == 0 ==> out.sleeps == [])
            && (out.fetches > 0 ==> |out.sleeps| == out.fetches - 1)
            && (forall k :: 0 <= k < |out.sleeps| ==> out.sleeps[k] == 120 * (k + 1))
            && 0 <= Sum(out.sleeps) <= 360
  {
    MainTrace(cfg, files, w);
    var run := RetryFrom(w.fetches, 0, BACKOFF_BASE);
    RetryBounds(w.fetches, BACKOFF_BASE);
    RetryRun(w.fetches, BACKOFF_BASE);
    assert !run.Exhausted?;
    assert run.sleeps == Schedule(BACKOFF_BASE, SettlingAttempt(w.fetches, 0));
  }

  /** The run writes one file at most, the month's file `append_to_csv`
      names; every other file is left alone, and a run that exits 1 writes
      nothing. */
  lemma OnlyMonthFileChanges(cfg: Config, files: map<string, seq<string>>, w: World)
    requires WellFormed(w)
    ensures var out := MainRun(cfg, files, w);
            (forall p :: p != LogPath(cfg.dir, w.appendNow) ==>
               (p in out.files <==> p in files) && (p in files ==> out.files[p] == files[p]))
            && (out.exitCode != 0 ==> out.files == files)
  {
  }

  /** The run exits 1 exactly when the gate is open and then the retry
      loop gives up, or the systems listing is empty, or the month's file
      exists but is empty (the header migration raises `IndexError`); in
      every other case it exits 0. */
  lemma ExitOneIff(cfg: Config, files: map<string, seq<string>>, w: World)
    requires WellFormed(w)
    ensures var out := MainRun(cfg, files, w);
            var run := RetryFrom(w.fetches, 0, BACKOFF_BASE);
            (out.exitCode == 0 || out.exitCode == 1)
            && (out.exitCode == 1 <==>
                  !Skipped(cfg, files, w)
                  && (run.Failed?
                      || (run.Finished? && |run.value| == 0)
                      || (run.Finished? && FileAt(files, LogPath(cfg.dir, w.appendNow)) == Some([]))))
  {
    NeverExhausted(w.fetches, BACKOFF_BASE);
    var run := RetryFrom(w.fetches, 0, BACKOFF_BASE);
    if !Skipped(cfg, files, w) && run.Finished? {
      var systems := run.value;
      assert |systems| <= |w.clock|;
      NoRowsIffNoSystems(systems, w.clock);
      AppendFailsOnlyOnEmptyFile(FileAt(files, LogPath(cfg.dir, w.appendNow)), AllRows(systems, w.clock));
    }
  }

  /** The pressure is checked exactly when the run fetched data and exits
      0: an alert, whether or not Pushover accepts it, never makes the run
      fail. Requests are made only for a status other than OK, one per
      recipient when Pushover is configured. */
  lemma AlertOnlyWhenNotOk(cfg: Config, files: map<string, seq<string>>, w: World)
    requires WellFormed(w)
    ensures var out := MainRun(cfg, files, w);
            (out.status.Some? <==> out.exitCode == 0 && out.fetches > 0)
            && (out.requests != [] ==> out.status.Some? && IsAlert(out.status.value))
            && (out.status.Some? && IsAlert(out.status.value) && Configured(cfg.token, cfg.users) ==>
                  |out.requests| == |Recipients(cfg.users)|)
            && (out.status.Some? && !IsAlert(out.status.value) ==> out.requests == [] && out.failed == [])
  {
    NeverExhausted(w.fetches, BACKOFF_BASE);
  }

  /** Logging the rows of `systems` arms the gate for a later time in the
      same month: it holds exactly when that time is less than
      `minInterval` seconds after the last system was read. */
  lemma LoggedArmsGate(cfg: Config, files: map<string, seq<string>>, w: World,
                       systems: seq<System>, calls: nat, sleeps: seq<int>, later: Instant)
    requires |systems| <= |w.clock|
    requires Logged(cfg, files, w, systems, calls, sleeps).status.Some?
    requires later.year == w.appendNow.year && later.month == w.appendNow.month
    ensures 0 < |systems|
    ensures TooSoon(FileAt(Logged(cfg, files, w, systems, calls, sleeps).files, LogPath(cfg.dir, later)), later, cfg.minInterval)
            <==> ElapsedSeconds(later, w.clock[|systems| - 1]) < cfg.minInterval
  {
    NoRowsIffNoSystems(systems, w.clock);
    var rows := AllRows(systems, w.clock);
    var path := LogPath(cfg.dir, w.appendNow);
    LogPathPerMonth(cfg.dir, later, w.appendNow);
    LastRowStamp(systems, w.clock);
    GateAfterAppend(FileAt(files, path), rows, w.clock[|systems| - 1], later, cfg.minInterval);
  }

  /** The run that logged rows arms the gate of the next run in the same
      month: `too_soon` at `later` holds exactly when `later` comes less
      than `minInterval` seconds after the moment the last system was
      read. */
  lemma NextRunGated(cfg: Config, files: map<string, seq<string>>, w: World, later: Instant)
    requires WellFormed(w)
    requires MainRun(cfg, files, w).status.Some?
    requires later.year == w.appendNow.year && later.month == w.appendNow.month
    ensures var run := RetryFrom(w.fetches, 0, BACKOFF_BASE);
            run.Finished? && 0 < |run.value| <= |w.clock|
            && (TooSoon(FileAt(MainRun(cfg, files, w).files, LogPath(cfg.dir, later)), later, cfg.minInterval)
                <==> ElapsedSeconds(later, w.clock[|run.value| - 1]) < cfg.minInterval)
  {
    var run := RetryFrom(w.fetches, 0, BACKOFF_BASE);
    MainLogged(cfg, files, w);
    LoggedArmsGate(cfg, files, w, run.value, Calls(run), run.sleeps, later);
  }

  /** A run that checked the pressure passed the gate and fetched data. */
  lemma MainLogged(cfg: Config, files: map<string, seq<string>>, w: World)
    requires WellFormed(w)
    requires MainRun(cfg, files, w).status.Some?
    ensures var run := RetryFrom(w.fetches, 0, BACKOFF_BASE);
            !Skipped(cfg, files, w) && run.Finished? && |run.value| <= |w.clock|
            && MainRun(cfg, files, w) == Logged(cfg, files, w, run.value, Calls(run), run.sleeps)
  {
    var run := RetryFrom(w.fetches, 0, BACKOFF_BASE);
    NeverExhausted(w.fetches, BACKOFF_BASE);
    RunFits(w);
  }
}
