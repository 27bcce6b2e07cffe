# Vaillant boiler scripts, modelled in Dafny

Three cron-style scripts drive a Vaillant heating system through the
myVAILLANT cloud API.

- `log_boiler_data.py` is run from a scheduler (about every 16 minutes) and does the following:
  - It skips the run when the monthly CSV log already holds a recent reading (the rate gate `too_soon`).
  - Otherwise it reads every system with a retry loop around the API call. Auth errors are retried with a 120 s linear backoff.
  - It appends one row per (zone, hot-water device) pair to `data/boiler_YYYY-MM.csv`, first widening an old, narrower header.
  - It classifies the water pressure and sends a Pushover alert to every configured user key unless the pressure is OK.
- `monitor_pressure.py` classifies the pressure of the first system and lists its zones and hot-water devices. It exits 1 whenever the status needs attention.
- `boost_dhw.py` starts a hot-water boost on the first device of the first system, unless that device is already boosting. It uses the same retry loop with a 60 s backoff.

The model works on values. It does not call the vendor client; instead, what
the client returns or raises is an input:

- a systems listing, or the exception that listing raised;
- for a retry loop, one scripted outcome per attempt.

The other external effects are modelled as follows:

- The clock is a parameter: one `Instant` per reading.
- The log directory is a map from path to the file's lines, without line terminators.
- Pushover's answer is a predicate `accepts` on the request.
- The sleeps of a retry loop are returned as a trace.

Each piece of the scripts has its own module:

| Module (file) | What it covers |
|---|---|
| `Text` (text.dfy) | Python's `str.split`, `",".join`, `str.strip` and substring `in`. |
| `Timestamps` (timestamps.dfy) | The `%Y-%m-%d %H:%M:%S` format and its parser. `datetime` subtraction in seconds. The `%Y-%m` month key. |
| `Vendor` (vendor.dfy) | The attributes of the client's system, zone, circuit and hot-water objects. |
| `Pressure` (pressure.dfy) | The UNKNOWN / CRITICAL / WARNING / OK chain that both the logger and the monitor use. |
| `Retry` (retry.dfy) | The `for attempt in range(3)` retry loop, with a specification by cases: the settling attempt and the backoff schedule. |
| `BoilerRows` (boiler_rows.dfy) | `read_boiler_data`: the zone-major cartesian product of zones and devices, and the `info` record of the last system. |
| `BoilerLog` (boiler_log.dfy) | How a row is written, the rate gate, and `append_to_csv` with its header migration. |
| `Pushover` (pushover.dfy) | `send_pushover_alert`: the recipients, the parameters of each request, and the users whose request failed. |
| `LoggerMain` (logger_main.dfy) | `main` of the logger, as a specification function `MainRun` and the methods that carry it out. |
| `MonitorPressure` (monitor_pressure.dfy) | `monitor_pressure.py`. |
| `BoostDhw` (boost_dhw.dfy) | `boost_dhw.py`. |

The loops of the logger are Dafny methods with loops:
- the retry loop (`RetryReads`, and `RunBoost` for the boost script);
- the loops over systems, zones and devices in `read_boiler_data` (`ReadBoilerData`, `ReadSystemRows`, `ReadZoneRows`);
- the row loop of `append_to_csv` (`AppendToCsv`);
- the recipient loop of `send_pushover_alert` (`SendToKeys`, `SendToPiece`).

Each such method's `ensures` ties the result to a specification function, and
the properties of that function are proved as lemmas. The `async for` loops
of `boost_dhw.py` and `monitor_pressure.py` return during their first pass,
so they are modelled as a look at the first system, without a loop. The loops
that only build report text or log lines are left out (see below).

## Model

| member | source | states |
|---|---|---|
| Text.Split | log_boiler_data.py:124 | `str.split(sep)` yields at least one piece |
| Text.SplitPiecesFree | log_boiler_data.py:124 | no piece of a split contains the separator |
| Text.JoinSplit | log_boiler_data.py:124 | joining the pieces of a split gives back the string |
| Text.SplitJoin | log_boiler_data.py:145-150 | splitting a join of separator-free pieces gives back the pieces |
| Text.SplitAtSeparator | log_boiler_data.py:124 | splitting at the first separator: the text before it, then the split of the rest |
| Text.SplitLast | log_boiler_data.py:217 | appending a separator and a separator-free piece appends that piece to the split |
| Text.SplitNoSeparator | log_boiler_data.py:124 | a string without the separator splits into itself alone |
| Text.FirstField | log_boiler_data.py:124 | `s.split(",")[0]` holds no comma |
| Text.FirstFieldOf | log_boiler_data.py:124 | the first field of `a + "," + b` is `a` when `a` has no comma |
| Text.TrimStart | log_boiler_data.py:121 | the result is no longer than the input and starts with no whitespace |
| Text.TrimStartDropsSpace | log_boiler_data.py:121 | the result is a suffix of the input, and every character removed is whitespace |
| Text.TrimEnd | log_boiler_data.py:121 | the result is no longer than the input and ends with no whitespace |
| Text.TrimEndDropsSpace | log_boiler_data.py:121 | the result is a prefix of the input, and every character removed is whitespace |
| Text.Strip | log_boiler_data.py:121 | `strip()` leaves no whitespace at either end |
| Text.StripUnpadded | log_boiler_data.py:144 | `strip()` leaves a string without surrounding whitespace unchanged |
| Text.Contains | log_boiler_data.py:260 | `needle in text` holds exactly when the needle occurs at some index |
| Timestamps.Pad2 | log_boiler_data.py:63 | `%m %d %H %M %S` print two digits |
| Timestamps.Pad4 | log_boiler_data.py:63 | `%Y` prints four digits |
| Timestamps.Pad2RoundTrip | log_boiler_data.py:63 | reading a two-digit field back gives the number |
| Timestamps.Value2RoundTrip | log_boiler_data.py:124 | printing a parsed two-digit field gives the text back |
| Timestamps.Pad4RoundTrip | log_boiler_data.py:63 | reading a four-digit year back gives the number |
| Timestamps.Value4RoundTrip | log_boiler_data.py:124 | printing a parsed year gives the text back |
| Timestamps.Format | log_boiler_data.py:63 | the timestamp has 19 characters, each a digit or one of `- :` |
| Timestamps.Parse | log_boiler_data.py:124 | `strptime` yields only valid calendar date-times |
| Timestamps.ParseFormat | log_boiler_data.py:63 | every timestamp written parses back to the same date-time |
| Timestamps.FormatParse | log_boiler_data.py:124 | the parser accepts exactly the formatted text of what it returns |
| Timestamps.MonthKey | log_boiler_data.py:112 | the month key has 7 characters |
| Timestamps.MonthKeySame | log_boiler_data.py:136 | two instants share a month key exactly when they share year and month |
| Vendor.Reading | log_boiler_data.py:167-170 | a numeric reading exists exactly when the pressure attribute is set |
| Pressure.Classify | log_boiler_data.py:170-181 | UNKNOWN when there is no reading; CRITICAL when below the critical cutoff; WARNING when in [critical, warning); OK otherwise; each as an iff |
| Pressure.NoWarningWhenCutoffsInverted | log_boiler_data.py:173-178 | with critical ≥ warning, WARNING never occurs |
| Pressure.LowerIsNoBetter | monitor_pressure.py:66-77 | a lower pressure is never less severe |
| Pressure.DefaultCutoffExamples | log_boiler_data.py:28-29 | with the defaults 1.0 and 0.8: 0.75 is CRITICAL, 0.9 WARNING, 1.2 OK, no reading UNKNOWN |
| Retry.RetryStep | log_boiler_data.py:255-266 | one attempt of the loop: a value ends it, a retryable auth error sleeps `base·(attempt+1)` and goes on, any other error ends it |
| Retry.SettlingAttempt | log_boiler_data.py:255-266 | the attempt where the loop stops: every earlier attempt raised an auth error, and it is the last attempt or not retryable |
| Retry.Schedule | log_boiler_data.py:261 | the sleeps before attempt n are base·1, …, base·n |
| Retry.RetryFromSettles | log_boiler_data.py:255-266 | from any attempt on, the loop equals the settling attempt's outcome after the scheduled sleeps |
| Retry.RetryRun | boost_dhw.py:49-65 | the whole loop equals that outcome after sleeps base, 2·base, … |
| Retry.NeverExhausted | log_boiler_data.py:255-266 | the loop never falls through its last attempt |
| Retry.NonAuthFailsImmediately | boost_dhw.py:63-65 | a non-auth error on the first call ends the loop at once, without sleeping |
| Retry.AuthFailuresThenSuccess | log_boiler_data.py:259-263 | n < 3 auth errors and then a value give that value after sleeps base, …, n·base |
| Retry.SettlesAt | log_boiler_data.py:260 | the settling attempt is the first one that is not retryable |
| Retry.ScheduleTotal | log_boiler_data.py:261 | the schedule sums to base·n·(n+1)/2 |
| Retry.RetryBounds | boost_dhw.py:48-62 | at most 3 calls, at most 2 sleeps, at most 3·base seconds of sleep |
| BoostDhw.Boost | boost_dhw.py:23-44 | a boost call is made iff the first system's first device exists and is not boosting; False iff there is no system or no device; True iff the device was boosting or the call returned; an exception comes from the listing or from the call |
| BoostDhw.BoostCalls | boost_dhw.py:40 | at most one boost call per run of `boost()` |
| BoostDhw.RunBoost | boost_dhw.py:47-65 | the loop's exit status, sleeps, calls and boosted devices are those of the retry specification with base 60 |
| BoostDhw.ExitZeroIffBoosted | boost_dhw.py:51-57 | exit 0 iff the settling attempt returned True |
| BoostDhw.RunBoostBounds | boost_dhw.py:48-62 | fewer than 3 sleeps, at most 180 s of sleep, at most 3 boost calls |
| BoostDhw.FalseIsFinal | boost_dhw.py:55-57 | a False is not retried and exits 1 |
| BoilerRows.ZonesOrNone | log_boiler_data.py:73 | `zones or [None]`: `[None]` when there are no zones, else each zone in order |
| BoilerRows.DhwOrNone | log_boiler_data.py:74 | `domestic_hot_water or [None]`: the same for devices |
| BoilerRows.ReadSystemRows | log_boiler_data.py:76-96 | the nested loops build the rows of one system |
| BoilerRows.ReadZoneRows | log_boiler_data.py:77-96 | the inner loop appends one row per device of a zone, in device order |
| BoilerRows.ReadBoilerData | log_boiler_data.py:53-107 | the rows of all systems in order, and `info` taken from the last system (`{}` when there is none) |
| BoilerRows.ProductRowsLength | log_boiler_data.py:76-77 | the nested loops give \|zones\|·\|devices\| rows |
| BoilerRows.ProductRowAt | log_boiler_data.py:76-96 | zone-major product: the row for zone i and device j sits at i·\|devices\|+j |
| BoilerRows.ProductRowsShareCells | log_boiler_data.py:78-85 | all rows of a system carry the same system cells |
| BoilerRows.SystemRowsShape | log_boiler_data.py:63-96 | max(1,\|zones\|)·max(1,\|devices\|) rows; the shared cells are the time, the pressure, the outdoor temperature, the energy state, the connection, and the first circuit's cells (None with no circuit) |
| BoilerRows.ZoneDeviceRow | log_boiler_data.py:86-94 | the row of zone i and device j holds their attributes |
| BoilerRows.EmptyListColumns | log_boiler_data.py:73-94 | with no zones every row has `None` in the zone columns; with no device, `None` in the device columns |
| BoilerRows.AllRowsSnoc | log_boiler_data.py:57-107 | one more system adds its rows at the end |
| BoilerRows.NoRowsIffNoSystems | log_boiler_data.py:268-270 | no rows exactly when there is no system |
| BoilerRows.LastRowStamp | log_boiler_data.py:63 | the last row carries the time at which the last system was read |
| BoilerLog.RowCells | log_boiler_data.py:157-159 | one cell per column, the timestamp first |
| BoilerLog.QuoteMinimal | log_boiler_data.py:155-159 | `QUOTE_MINIMAL`: a field is written as it stands exactly when it holds no comma, quote, CR or LF |
| BoilerLog.EscapeQuotesLength | log_boiler_data.py:159 | doubling the quotes adds one character per quote and leaves a quote-free field unchanged |
| BoilerLog.UnescapeEscape | log_boiler_data.py:159 | un-doubling the quotes restores the field |
| BoilerLog.UnquoteQuote | log_boiler_data.py:155-159 | reading a written field back gives the field, quoted or not |
| BoilerLog.RenderAll | log_boiler_data.py:158-159 | one written line per row, in order |
| BoilerLog.RenderedRowStart | log_boiler_data.py:159 | a written row starts with its unquoted timestamp and a comma |
| BoilerLog.TooSoon | log_boiler_data.py:110-130 | fails open: no file, fewer than two lines, or an unparsable timestamp give False |
| BoilerLog.StripKeepsTimestamp | log_boiler_data.py:121-124 | stripping a written line keeps the timestamp before its first comma |
| BoilerLog.GateSeesLastRow | log_boiler_data.py:121-127 | with a written row last, the gate holds iff elapsed < minInterval |
| BoilerLog.GateSkipsBlankLastLine | log_boiler_data.py:121-127 | with a blank last line and a written row before it, the gate holds iff that row's elapsed time < minInterval |
| BoilerLog.AppendToCsv | log_boiler_data.py:133-162 | the file after `append_to_csv`, or its IndexError, equals `Appended` |
| BoilerLog.HeaderSplit | log_boiler_data.py:145-150 | the header line splits into exactly the 16 column names |
| BoilerLog.HeaderFields | log_boiler_data.py:144-146 | the header line is wide enough and unchanged by `strip()` |
| BoilerLog.AppendFailsOnlyOnEmptyFile | log_boiler_data.py:142-150 | appending raises exactly on an existing empty file |
| BoilerLog.AppendToNewFile | log_boiler_data.py:154-159 | a new file gets the header and then one line per row, in order |
| BoilerLog.AppendToExistingFile | log_boiler_data.py:142-159 | an existing file keeps its length plus one line per row; only line 0 may change, into the header, and only when the header was too narrow |
| BoilerLog.MigrationIdempotent | log_boiler_data.py:142-152 | after a migration, or on a file the script created, no further migration happens |
| BoilerLog.WideHeaderUntouched | log_boiler_data.py:146 | a header at least 16 fields wide is kept, even a wider one |
| BoilerLog.GateAfterAppend | log_boiler_data.py:110-160 | after an append, the gate holds iff the last row's time lies less than minInterval before now |
| BoilerLog.LogPathPerMonth | log_boiler_data.py:112-113 | two instants share a log file iff they share year and month |
| Pushover.Priority | log_boiler_data.py:214 | priority 1 iff CRITICAL |
| Pushover.Sound | log_boiler_data.py:227 | "siren" iff CRITICAL, otherwise "pushover" |
| Pushover.Title | log_boiler_data.py:215 | the critical title iff CRITICAL |
| Pushover.Truncated | log_boiler_data.py:225 | `report[:1024]`: a prefix, at most 1024 characters long, the whole report when it is short |
| Pushover.KeysOf | log_boiler_data.py:217-220 | there are no more keys than pieces |
| Pushover.KeysAreStripped | log_boiler_data.py:218-220 | every key is non-empty and `strip()` leaves it unchanged |
| Pushover.KeysOfPrefix | log_boiler_data.py:217-220 | one more piece adds its stripped text as a key, or nothing when that is empty |
| Pushover.RecipientsClean | log_boiler_data.py:217-220 | recipients are non-empty, stripped and comma-free |
| Pushover.KeysComeFromPieces | log_boiler_data.py:218 | keys cut from comma-free pieces hold no comma |
| Pushover.RecipientsOfJoin | log_boiler_data.py:217-220 | the recipients of a comma-joined list of plain keys are those keys |
| Pushover.RecipientsAppend | log_boiler_data.py:217-220 | one more piece adds its stripped text, or nothing when it is blank |
| Pushover.KeysOfPlain | log_boiler_data.py:218-220 | plain keys pass through unchanged |
| Pushover.MessagesForSnoc | log_boiler_data.py:217-230 | one more key adds its request at the end |
| Pushover.MessagesForAt | log_boiler_data.py:221-230 | request i goes to key i, with the same parameters for every key |
| Pushover.Requests | log_boiler_data.py:210-220 | nothing is sent when unconfigured; otherwise one request per recipient |
| Pushover.RequestsAt | log_boiler_data.py:221-230 | each request's user, token, title, message, priority, sound and link |
| Pushover.FailedUsers | log_boiler_data.py:232-237 | at most one failure per request |
| Pushover.FailedUsersSnoc | log_boiler_data.py:232-237 | one more request adds its user to the failures exactly when it is rejected |
| Pushover.FailedAreRejected | log_boiler_data.py:232-237 | no failures iff Pushover accepted every request |
| Pushover.SendPushoverAlert | log_boiler_data.py:205-237 | the requests equal `Requests` and the failures equal `FailedUsers`; a failure does not stop the loop |
| Pushover.MessagesStep | log_boiler_data.py:217-230 | one more piece adds the request for its key, or nothing when the piece is blank |
| Pushover.SendToKeys | log_boiler_data.py:217-237 | the loop over the pieces sends one request per key, in order, and collects the users whose post raised |
| Pushover.SendToPiece | log_boiler_data.py:218-237 | one round of the loop keeps both: requests for the keys so far, failures among those requests |
| LoggerMain.CheckPressure | log_boiler_data.py:165-181 | UNKNOWN for an empty info or no pressure; CRITICAL / WARNING by the cutoffs |
| LoggerMain.RunLogger | log_boiler_data.py:248-293 | one run equals the specification `MainRun` |
| LoggerMain.RetryReads | log_boiler_data.py:255-266 | the retry loop over the reads equals `RetryFrom` with base 120 |
| LoggerMain.ReadWithRetry | log_boiler_data.py:253-266 | the retry loop ends as `RetryFrom` with base 120, with the rows and info of the attempt that returned |
| LoggerMain.LogAndAlert | log_boiler_data.py:268-293 | the statements after the loop equal `Logged` |
| LoggerMain.NoFetchIffSkipped | log_boiler_data.py:249-251 | no fetch iff the gate holds; a skipped run exits 0 and writes nothing |
| LoggerMain.MainTrace | log_boiler_data.py:249-266 | the calls and sleeps of a run are those of the retry loop, or none when skipped |
| LoggerMain.FetchBounds | log_boiler_data.py:253-262 | at most 3 fetches; one sleep fewer than fetches; the sleeps are 120·(k+1); at most 360 s in all |
| LoggerMain.OnlyMonthFileChanges | log_boiler_data.py:133-162 | only the append month's file may change; a run that exits 1 writes nothing |
| LoggerMain.ExitOneIff | log_boiler_data.py:248-273 | exit 1 iff not skipped and then the retry gives up, or there is no system, or the month's file is empty; otherwise exit 0 |
| LoggerMain.AlertOnlyWhenNotOk | log_boiler_data.py:284-293 | the pressure check runs iff the run fetched and exits 0; requests are made only for a non-OK status, one per recipient |
| LoggerMain.LoggedArmsGate | log_boiler_data.py:110-162 | after logging, the gate at a later time in the same month holds iff it is less than minInterval after the last reading |
| LoggerMain.NextRunGated | log_boiler_data.py:248-293 | the same for a whole run: the next run in that month is skipped iff it comes within minInterval of the last reading |
| LoggerMain.MainLogged | log_boiler_data.py:284-286 | a run that checked the pressure passed the gate and fetched data |
| MonitorPressure.ZoneLines | monitor_pressure.py:49-55 | one line per zone, in order |
| MonitorPressure.DhwLines | monitor_pressure.py:58-63 | one line per hot-water device, in order |
| MonitorPressure.Section | monitor_pressure.py:95 | the placeholder when there are no lines |
| MonitorPressure.SectionLines | monitor_pressure.py:95 | the joined lines split back one for one |
| MonitorPressure.ZoneLineOneLine | monitor_pressure.py:51-55 | a zone whose attributes print on one line takes one line |
| MonitorPressure.DhwLineOneLine | monitor_pressure.py:60-63 | the same for a device |
| MonitorPressure.ZonesSectionLines | monitor_pressure.py:95 | "  (no zones)" with no zones, else exactly the zone lines |
| MonitorPressure.DhwSectionLines | monitor_pressure.py:98 | "  (no DHW)" with no devices, else exactly the device lines |
| MonitorPressure.CheckPressure | monitor_pressure.py:30-103 | ERROR with "Could not retrieve any system data." iff there is no system; otherwise the first system's pressure and its classification |
| MonitorPressure.RunCheck | monitor_pressure.py:36-101 | the loop body runs once, for the first system, and equals `CheckPressure` |
| MonitorPressure.ExitCode | monitor_pressure.py:127-138 | 1 iff CRITICAL, WARNING or UNKNOWN; 0 for OK and ERROR |
| MonitorPressure.RunMonitor | monitor_pressure.py:121-138 | the exit status of `main`; a result exists iff the listing did not raise |
| MonitorPressure.ExitOneIff | monitor_pressure.py:121-138 | exit 1 iff the listing raised, or the first pressure is missing or below a cutoff |
| MonitorPressure.OnlyFirstSystem | monitor_pressure.py:36-101 | systems after the first change nothing |
| MonitorPressure.AgreesWithLogger | monitor_pressure.py:66-77 | on one system the monitor classifies like the logger and exits 1 iff the logger would alert |

## Left out

- The vendor client (log-in, `get_systems`, `boost_domestic_hot_water`) and `asyncio`: what they return or raise is an input.
- A systems listing that raises partway through: such a listing is a single exception, whatever it yielded before.
- HTTP to Pushover, writes to `GITHUB_STEP_SUMMARY` / `GITHUB_OUTPUT`, `print` and logging.
  - Only the requests made, and whether each one failed, are modelled.
- `time.sleep` and `datetime.now`: sleeps are a returned trace and times are parameters.
- Microseconds are dropped.
  - `elapsed < MIN_INTERVAL_SECONDS` with an integer interval and a whole-second logged time has the same outcome.
- The wording of the reports:
  - `check_pressure` in both scripts: the banner, emoji, `{pressure:.2f}`, the time line.
  - The logger's report text is a parameter of `main`.
  - The monitor's report keeps only its zone and hot-water sections.
- IEEE floating point: pressures are reals, and NaN is not modelled.
- `strptime` leniency: unpadded fields and glibc's short years are not modelled.
  - The parser is fixed-width, which is exactly what the scripts write.
- The byte level of the CSV file:
  - The model does not cover line terminators, a last line without a terminator, quoted cells that span lines, or the newline translation of text mode.
  - A file is its list of lines.
- `CSV_DIR.mkdir`, and I/O errors when reading or writing a file.
- The month boundary: `too_soon` and `append_to_csv` each read the clock.
  - `main` passes both times, so a run straddling midnight at a month's end is modelled, but no property is stated about it.
- `test_boiler.py` and `export_data.py`: interactive printing and JSON dumps of vendor objects, with no logic to state.
- Environment parsing: `float(...)` / `int(...)` of the variables, their defaults (`MIN_INTERVAL_SECONDS` 900, `CSV_DIR` "data"), and the `KeyError` for missing credentials.
  - The settings are a `Config` value.
- Pushover.RecipientsAppend: stated on a string plus one piece rather than as a full characterisation of `split`. Together with `RecipientsOfJoin` it covers padded keys, blank pieces and trailing commas.
- MonitorPressure.ZonesSectionLines: assumes that no attribute prints a newline. Otherwise a zone's line would read back as several lines.
- The logger's backoff base is 120 s (`log_boiler_data.py:261`); the boost script's is 60 s.
- `None` list attributes of a system (`zones`, `domestic_hot_water`, `circuits`) are modelled as empty lists. The logger and the boost script treat the two alike. `monitor_pressure.py:50` and `:59` iterate the lists directly, so a `None` list there raises `TypeError` and the script exits 1. The model instead prints the placeholder and exits by status, so that exit is not captured: `MonitorPressure.ExitOneIff` treats a `None` list as an empty one.
