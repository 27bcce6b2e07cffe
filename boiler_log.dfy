/** The monthly CSV log of `log_boiler_data.py`: how a row is written
    (`csv.DictWriter` with the default dialect), the rate gate `too_soon`
    that reads the timestamp of the last line back, and `append_to_csv`
    with its header migration.

    A file is its list of lines without line terminators, or `None` when it
    does not exist. */
module BoilerLog {
  import opened Wrappers
  import opened Text
  import opened Vendor
  import opened Timestamps
  import opened BoilerRows

  /** `CSV_HEADERS`: the column names, in order. */
  const CSV_HEADERS: seq<string> := [
    "timestamp", "water_pressure_bar", "outdoor_temp_c", "circuit_flow_temp_c",
    "energy_manager_state", "circuit_state", "connected", "zone_name",
    "zone_current_temp_c", "zone_target_temp_c", "zone_humidity_pct", "zone_heating_state",
    "dhw_current_temp_c", "dhw_target_temp_c", "dhw_operation_mode", "dhw_current_special_function"]

  /** The header line, `",".join(CSV_HEADERS)`, which is also what
      `writeheader()` writes, since no column name needs quoting (see
      `HeaderFields`). */
  const HEADER_LINE: string :=
    CSV_HEADERS[0] + "," + CSV_HEADERS[1] + "," + CSV_HEADERS[2] + "," + CSV_HEADERS[3]
    + "," + CSV_HEADERS[4] + "," + CSV_HEADERS[5] + "," + CSV_HEADERS[6] + "," + CSV_HEADERS[7]
    + "," + CSV_HEADERS[8] + "," + CSV_HEADERS[9] + "," + CSV_HEADERS[10] + "," + CSV_HEADERS[11]
    + "," + CSV_HEADERS[12] + "," + CSV_HEADERS[13] + "," + CSV_HEADERS[14] + "," + CSV_HEADERS[15]

  /** `CSV_DIR / f"boiler_{month}.csv"` for the month of `now`. */
  function LogPath(dir: string, now: Instant): string {
    dir + "/boiler_" + MonthKey(now) + ".csv"
  }

  // ---- writing a row ----

  /** What `DictWriter` writes for a cell: nothing for `None`, `str(v)`
      otherwise. */
  function CellText(v: Option<Value>): string {
    if v.None? then "" else Str(v)
  }

  /** The cells of a row in the order of `CSV_HEADERS`. */
  function RowCells(row: Row): (cells: seq<string>)
    ensures |cells| == |CSV_HEADERS| && cells[0] == row.system.timestamp
  {
    var s, z, d := row.system, row.zone, row.dhw;
    [s.timestamp, CellText(s.pressure), CellText(s.outdoorTemp), CellText(s.circuitFlow),
     CellText(s.energyState), CellText(s.circuitState), CellText(s.connected),
     CellText(z.name), CellText(z.currentTemp), CellText(z.targetTemp), CellText(z.humidity),
     CellText(z.heatingState),
     CellText(d.currentTemp), CellText(d.targetTemp), CellText(d.operationMode), CellText(d.specialFunction)]
  }

  /** The characters that make the default dialect (`QUOTE_MINIMAL`) quote
      a field: the delimiter, the quote character and the characters of the
      line terminator "\r\n". */
  predicate IsSpecial(c: char) {
    c == ',' || c == '"' || c == '\r' || c == '\n'
  }

  predicate NeedsQuotes(field: string) {
    exists i :: 0 <= i < |field| && IsSpecial(field[i])
  }

  /** The field with every quote character doubled. */
  function EscapeQuotes(field: string): (r: string)
    ensures |r| >= |field|
  {
    if |field| == 0 then ""
    else (if field[0] == '"' then "\"\"" else [field[0]]) + EscapeQuotes(field[1..])
  }

  /** Doubling adds one character per quote and changes nothing else: a
      field without quotes is left as it is. */
  lemma {:induction false} EscapeQuotesLength(field: string)
    ensures |EscapeQuotes(field)| == |field| + multiset(field)['"']
    ensures '"' !in field ==> EscapeQuotes(field) == field
    decreases |field|
  {
    if |field| > 0 {
      EscapeQuotesLength(field[1..]);
      assert field == [field[0]] + field[1..];
      assert multiset(field) == multiset([field[0]]) + multiset(field[1..]);
    }
  }

  /** A field as the writer puts it on the line. */
  function Quote(field: string): string {
    if NeedsQuotes(field) then "\"" + EscapeQuotes(field) + "\"" else field
  }

  /** What a CSV reader does with a doubled quote inside a quoted field:
      it reads one quote. */
  function UnescapeQuotes(s: string): string
    decreases |s|
  {
    if |s| == 0 then ""
    else if |s| >= 2 && s[0] == '"' && s[1] == '"' then "\"" + UnescapeQuotes(s[2..])
    else [s[0]] + UnescapeQuotes(s[1..])
  }

  /** What a CSV reader makes of one field: a field in quotes loses them
      and its doubled quotes; any other field is read as it stands. */
  function Unquote(s: string): string {
    if |s| >= 2 && s[0] == '"' && s[|s| - 1] == '"' then UnescapeQuotes(s[1..|s| - 1]) else s
  }

  /** Un-doubling the quotes undoes `EscapeQuotes`. */
  lemma {:induction false} UnescapeEscape(field: string)
    ensures UnescapeQuotes(EscapeQuotes(field)) == field
    decreases |field|
  {
    if |field| > 0 {
      UnescapeEscape(field[1..]);
      var rest := EscapeQuotes(field[1..]);
      if field[0] == '"' {
        assert ("\"\"" + rest)[2..] == rest;
      } else {
        assert ([field[0]] + rest)[1..] == rest;
      }
      assert field == [field[0]] + field[1..];
    }
  }

  /** `QUOTE_MINIMAL`: the writer leaves a field as it is exactly when the
      field holds no delimiter, quote or line-break character. */
  lemma QuoteMinimal(field: string)
    ensures Quote(field) == field <==> !NeedsQuotes(field)
  {
  }

  /** Reading a written field gives the field back, whether or not the
      writer quoted it. */
  lemma UnquoteQuote(field: string)
    ensures Unquote(Quote(field)) == field
  {
    if NeedsQuotes(field) {
      var e := EscapeQuotes(field);
      var q := "\"" + e + "\"";
      assert q[1..|q| - 1] == e;
      UnescapeEscape(field);
    } else if |field| >= 2 {
      assert !IsSpecial(field[0]);
    }
  }

  function QuoteAll(fields: seq<string>): (r: seq<string>)
    ensures |r| == |fields| && forall i :: 0 <= i < |fields| ==> r[i] == Quote(fields[i])
  {
    seq(|fields|, (i: int) requires 0 <= i < |fields| => Quote(fields[i]))
  }

  /** `writer.writerow(row)`, without the line terminator. */
  function RenderRow(row: Row): string {
    Join(QuoteAll(RowCells(row)), ',')
  }

  function RenderAll(rows: seq<Row>): (lines: seq<string>)
    ensures |lines| == |rows| && forall k :: 0 <= k < |rows| ==> lines[k] == RenderRow(rows[k])
  {
    seq(|rows|, (k: int) requires 0 <= k < |rows| => RenderRow(rows[k]))
  }

  /** A written row starts with its timestamp and a comma: the timestamp is
      never quoted, since it holds only digits, '-', ' ' and ':'. */
  lemma RenderedRowStart(row: Row, now: Instant)
    requires row.system.timestamp == Format(now)
    ensures var line := RenderRow(row);
            |line| > 19 && line[..19] == Format(now) && line[19] == ','
  {
    var ts := Format(now);
    var fields := QuoteAll(RowCells(row));
    assert Quote(ts) == ts by {
      assert !NeedsQuotes(ts) by {
        forall i | 0 <= i < |ts| ensures !IsSpecial(ts[i]) {
          assert IsDigit(ts[i]) || ts[i] in "- :";
        }
      }
    }
    assert fields[0] == ts;
    var rest := Join(fields[1..], ',');
    assert RenderRow(row) == ts + [','] + rest;
  }

  // ---- the rate gate ----

  /** The line `too_soon` reads: the stripped last line, or the stripped
      second-to-last when the last is blank. */
  function LastEntry(lines: seq<string>): string
    requires |lines| >= 2
  {
    var last := Strip(lines[|lines| - 1]);
    if last == "" then Strip(lines[|lines| - 2]) else last
  }

  /** `too_soon()` on the month's file at time `now`: True iff the last
      entry's leading timestamp lies less than `minInterval` seconds before
      `now`. It fails open: no file, fewer than two lines, or a timestamp
      that does not parse all give False. */
  function TooSoon(file: Option<seq<string>>, now: Instant, minInterval: int): (soon: bool)
    ensures file.None? ==> !soon
    ensures file.Some? && |file.value| < 2 ==> !soon
    ensures file.Some? && |file.value| >= 2 && Parse(FirstField(LastEntry(file.value), ',')).None? ==> !soon
  {
    match file
    case None => false
    case Some(lines) =>
      if |lines| < 2 then false
      else
        match Parse(FirstField(LastEntry(lines), ','))
        case None => false
        case Some(last) => ElapsedSeconds(now, last) < minInterval
  }

  /** Stripping a written row keeps its timestamp and the comma after it:
      the row starts with a digit, and the comma stops the trailing strip. */
  lemma StripKeepsTimestamp(line: string, ts: string)
    requires |line| > |ts| > 0 && line[..|ts|] == ts && line[|ts|] == ',' && !IsSpace(ts[0])
    requires ',' !in ts
    ensures FirstField(Strip(line), ',') == ts
  {
    assert line[0] == ts[0];
    assert TrimStart(line) == line;
    var r := TrimEnd(line);
    VisibleNotSpace(line[|ts|]);
    TrimEndDropsSpace(line);
    assert |r| > |ts|;
    assert r == ts + [','] + r[|ts| + 1..] by {
      assert r[..|ts|] == line[..|ts|];
    }
    FirstFieldOf(ts, r[|ts| + 1..], ',');
  }

  /** A written row, stripped, still starts with its timestamp field. */
  lemma RenderedEntry(row: Row, stamp: Instant)
    requires row.system.timestamp == Format(stamp)
    ensures Strip(RenderRow(row)) != ""
    ensures FirstField(Strip(RenderRow(row)), ',') == Format(stamp)
  {
    var line := RenderRow(row);
    var ts := Format(stamp);
    RenderedRowStart(row, stamp);
    assert ts[0] == line[0];
    assert !IsSpace(ts[0]) by {
      assert IsDigit(ts[0]);
      VisibleNotSpace(ts[0]);
    }
    StripKeepsTimestamp(line, ts);
  }

  /** The rate gate reads back what the logger wrote: once rows are
      appended, `too_soon` at `now` holds exactly when the last row's time
      of reading lies less than `minInterval` seconds before `now`. */
  lemma GateSeesLastRow(lines: seq<string>, rows: seq<Row>, stamp: Instant, now: Instant, minInterval: int)
    requires |rows| > 0 && rows[|rows| - 1].system.timestamp == Format(stamp)
    requires |lines| >= 2 && lines[|lines| - 1] == RenderRow(rows[|rows| - 1])
    ensures TooSoon(Some(lines), now, minInterval) <==> ElapsedSeconds(now, stamp) < minInterval
  {
    RenderedEntry(rows[|rows| - 1], stamp);
    ParseFormat(stamp);
  }

  /** A blank last line (such as the empty line after a final line break)
      is passed over: `too_soon` then reads the row before it. */
  lemma GateSkipsBlankLastLine(lines: seq<string>, row: Row, stamp: Instant, now: Instant, minInterval: int)
    requires row.system.timestamp == Format(stamp)
    requires |lines| >= 2 && Strip(lines[|lines| - 1]) == "" && lines[|lines| - 2] == RenderRow(row)
    ensures TooSoon(Some(lines), now, minInterval) <==> ElapsedSeconds(now, stamp) < minInterval
  {
    RenderedEntry(row, stamp);
    ParseFormat(stamp);
  }

  // ---- appending ----

  /** The exception `append_to_csv` can raise: `all_lines[0] = ...` on an
      existing file with no lines. */
  datatype AppendError = IndexError

  /** `f.readline().strip()` on the file. */
  function FirstLine(lines: seq<string>): string {
    if |lines| == 0 then "" else Strip(lines[0])
  }

  /** The migration condition: the existing header has fewer fields than
      `CSV_HEADERS`. */
  predicate NeedsMigration(lines: seq<string>) {
    |Split(FirstLine(lines), ',')| < |CSV_HEADERS|
  }

  /** The lines of the file after writing the lines `added` below header
      line `header`: a new file gets the header first, an existing one
      whose first line is too narrow has it replaced by the header. */
  function Extended(file: Option<seq<string>>, header: string, added: seq<string>): Result<seq<string>, AppendError> {
    match file
    case None => Success([header] + added)
    case Some(lines) =>
      if !NeedsMigration(lines) then Success(lines + added)
      else if |lines| == 0 then Failure(IndexError)
      else Success(lines[0 := header] + added)
  }

  /** The file after `append_to_csv(rows)`, or the error it raises. */
  function Appended(file: Option<seq<string>>, rows: seq<Row>): Result<seq<string>, AppendError> {
    Extended(file, HEADER_LINE, RenderAll(rows))
  }

  /** `append_to_csv(rows)`: migrate the header of an existing file if it
      is narrower than `CSV_HEADERS`, then append, writing the header first
      only for a new file. */
  method AppendToCsv(file: Option<seq<string>>, rows: seq<Row>) returns (result: Result<seq<string>, AppendError>)
    ensures result == Appended(file, rows)
  {
    var fileExists := file.Some?;
    var lines: seq<string> := if fileExists then file.value else [];
    if fileExists {
      var firstLine := if |lines| == 0 then "" else Strip(lines[0]);
      var existingHeaders := Split(firstLine, ',');
      if |existingHeaders| < |CSV_HEADERS| {
        if |lines| == 0 {
          return Failure(IndexError);
        }
        lines := lines[0 := HEADER_LINE];
      }
    }
    if !fileExists {
      lines := lines + [HEADER_LINE];
    }
    ghost var start := lines;
    var i := 0;
    while i < |rows|
      invariant 0 <= i <= |rows|
      invariant lines == start + RenderAll(rows[..i])
    {
      lines := lines + [RenderRow(rows[i])];
      assert RenderAll(rows[..i + 1]) == RenderAll(rows[..i]) + [RenderRow(rows[i])];
      i := i + 1;
    }
    assert rows[..|rows|] == rows;
    assert file.None? ==> start == [HEADER_LINE];
    assert file.Some? && !NeedsMigration(file.value) ==> start == file.value;
    assert file.Some? && NeedsMigration(file.value) ==> start == file.value[0 := HEADER_LINE];
    return Success(lines);
  }

  // ---- what appending does ----

  /** No column name contains the delimiter. */
  lemma HeaderNamesPlain()
    ensures forall i :: 0 <= i < |CSV_HEADERS| ==> ',' !in CSV_HEADERS[i]
  {
    SystemColumnsPlain();
    ZoneColumnsPlain();
    DhwColumnsPlain();
  }

  // one lemma per group of columns keeps each look at the literals small
  lemma SystemColumnsPlain()
    ensures forall i :: 0 <= i < 7 ==> ',' !in CSV_HEADERS[i]
  {
  }

  lemma ZoneColumnsPlain()
    ensures forall i :: 7 <= i < 12 ==> ',' !in CSV_HEADERS[i]
  {
  }

  lemma DhwColumnsPlain()
    ensures forall i :: 12 <= i < 16 ==> ',' !in CSV_HEADERS[i]
  {
  }

  lemma HeaderStep(prefix: string, k: nat)
    requires 1 <= k < |CSV_HEADERS| && Split(prefix, ',') == CSV_HEADERS[..k]
    ensures Split(prefix + "," + CSV_HEADERS[k], ',') == CSV_HEADERS[..k + 1]
  {
    HeaderNamesPlain();
    SplitLast(prefix, CSV_HEADERS[k], ',');
    assert CSV_HEADERS[..k] + [CSV_HEADERS[k]] == CSV_HEADERS[..k + 1];
  }

  /** The header line splits back into exactly the column names. */
  lemma HeaderSplit()
    ensures Split(HEADER_LINE, ',') == CSV_HEADERS
  {
    HeaderNamesPlain();
    SplitNoSeparator(CSV_HEADERS[0], ',');
    HeaderStep(CSV_HEADERS[0], 1);
    HeaderStep(CSV_HEADERS[0] + "," + CSV_HEADERS[1], 2);
    HeaderStep(CSV_HEADERS[0] + "," + CSV_HEADERS[1] + "," + CSV_HEADERS[2], 3);
    HeaderStep(CSV_HEADERS[0] + "," + CSV_HEADERS[1] + "," + CSV_HEADERS[2] + "," + CSV_HEADERS[3], 4);
    HeaderStep(CSV_HEADERS[0] + "," + CSV_HEADERS[1] + "," + CSV_HEADERS[2] + "," + CSV_HEADERS[3] + "," + CSV_HEADERS[4], 5);
    HeaderStep(CSV_HEADERS[0] + "," + CSV_HEADERS[1] + "," + CSV_HEADERS[2] + "," + CSV_HEADERS[3] + "," + CSV_HEADERS[4] + "," + CSV_HEADERS[5], 6);
    HeaderStep(CSV_HEADERS[0] + "," + CSV_HEADERS[1] + "," + CSV_HEADERS[2] + "," + CSV_HEADERS[3] + "," + CSV_HEADERS[4] + "," + CSV_HEADERS[5] + "," + CSV_HEADERS[6], 7);
    HeaderStep(CSV_HEADERS[0] + "," + CSV_HEADERS[1] + "," + CSV_HEADERS[2] + "," + CSV_HEADERS[3] + "," + CSV_HEADERS[4] + "," + CSV_HEADERS[5] + "," + CSV_HEADERS[6] + "," + CSV_HEADERS[7], 8);
    HeaderStep(CSV_HEADERS[0] + "," + CSV_HEADERS[1] + "," + CSV_HEADERS[2] + "," + CSV_HEADERS[3] + "," + CSV_HEADERS[4] + "," + CSV_HEADERS[5] + "," + CSV_HEADERS[6] + "," + CSV_HEADERS[7] + "," + CSV_HEADERS[8], 9);
    HeaderStep(CSV_HEADERS[0] + "," + CSV_HEADERS[1] + "," + CSV_HEADERS[2] + "," + CSV_HEADERS[3] + "," + CSV_HEADERS[4] + "," + CSV_HEADERS[5] + "," + CSV_HEADERS[6] + "," + CSV_HEADERS[7] + "," + CSV_HEADERS[8] + "," + CSV_HEADERS[9], 10);
    HeaderStep(CSV_HEADERS[0] + "," + CSV_HEADERS[1] + "," + CSV_HEADERS[2] + "," + CSV_HEADERS[3] + "," + CSV_HEADERS[4] + "," + CSV_HEADERS[5] + "," + CSV_HEADERS[6] + "," + CSV_HEADERS[7] + "," + CSV_HEADERS[8] + "," + CSV_HEADERS[9] + "," + CSV_HEADERS[10], 11);
    HeaderStep(CSV_HEADERS[0] + "," + CSV_HEADERS[1] + "," + CSV_HEADERS[2] + "," + CSV_HEADERS[3] + "," + CSV_HEADERS[4] + "," + CSV_HEADERS[5] + "," + CSV_HEADERS[6] + "," + CSV_HEADERS[7] + "," + CSV_HEADERS[8] + "," + CSV_HEADERS[9] + "," + CSV_HEADERS[10] + "," + CSV_HEADERS[11], 12);
    HeaderStep(CSV_HEADERS[0] + "," + CSV_HEADERS[1] + "," + CSV_HEADERS[2] + "," + CSV_HEADERS[3] + "," + CSV_HEADERS[4] + "," + CSV_HEADERS[5] + "," + CSV_HEADERS[6] + "," + CSV_HEADERS[7] + "," + CSV_HEADERS[8] + "," + CSV_HEADERS[9] + "," + CSV_HEADERS[10] + "," + CSV_HEADERS[11] + "," + CSV_HEADERS[12], 13);
    HeaderStep(CSV_HEADERS[0] + "," + CSV_HEADERS[1] + "," + CSV_HEADERS[2] + "," + CSV_HEADERS[3] + "," + CSV_HEADERS[4] + "," + CSV_HEADERS[5] + "," + CSV_HEADERS[6] + "," + CSV_HEADERS[7] + "," + CSV_HEADERS[8] + "," + CSV_HEADERS[9] + "," + CSV_HEADERS[10] + "," + CSV_HEADERS[11] + "," + CSV_HEADERS[12] + "," + CSV_HEADERS[13], 14);
    HeaderStep(CSV_HEADERS[0] + "," + CSV_HEADERS[1] + "," + CSV_HEADERS[2] + "," + CSV_HEADERS[3] + "," + CSV_HEADERS[4] + "," + CSV_HEADERS[5] + "," + CSV_HEADERS[6] + "," + CSV_HEADERS[7] + "," + CSV_HEADERS[8] + "," + CSV_HEADERS[9] + "," + CSV_HEADERS[10] + "," + CSV_HEADERS[11] + "," + CSV_HEADERS[12] + "," + CSV_HEADERS[13] + "," + CSV_HEADERS[14], 15);
  }

  /** The header line is `",".join(CSV_HEADERS)`, and `strip()` leaves it
      as it is. */
  lemma HeaderFields()
    ensures Split(HEADER_LINE, ',') == CSV_HEADERS
    ensures Strip(HEADER_LINE) == HEADER_LINE
  {
    HeaderSplit();
    assert HEADER_LINE[0] == 't';
    assert HEADER_LINE[|HEADER_LINE| - 1] == 'n';
    VisibleNotSpace('t');
    VisibleNotSpace('n');
    StripUnpadded(HEADER_LINE);
  }

  /** Appending raises exactly on an existing file with no lines: its
      empty first line counts as a one-field header, and the migration then
      indexes line 0 of an empty list. */
  lemma AppendFailsOnlyOnEmptyFile(file: Option<seq<string>>, rows: seq<Row>)
    ensures Appended(file, rows).Failure? <==> file == Some([])
  {
    if file == Some([]) {
      assert Split("", ',') == [""];
    }
  }

  /** A new file gets the header line, then one line per row in order. */
  lemma AppendToNewFile(rows: seq<Row>)
    ensures Appended(None, rows).Success?
    ensures var lines := Appended(None, rows).value;
            |lines| == 1 + |rows| && lines[0] == HEADER_LINE
            && forall k :: 0 <= k < |rows| ==> lines[1 + k] == RenderRow(rows[k])
  {
  }

  lemma ExtendedExisting(lines: seq<string>, header: string, added: seq<string>)
    requires |lines| > 0
    ensures Extended(Some(lines), header, added).Success?
    ensures var out := Extended(Some(lines), header, added).value;
            |out| == |lines| + |added|
            && out[0] == (if NeedsMigration(lines) then header else lines[0])
            && (forall k :: 1 <= k < |lines| ==> out[k] == lines[k])
            && (forall k :: 0 <= k < |added| ==> out[|lines| + k] == added[k])
  {
  }

  /** On an existing file, only line 0 may change, and only into the
      header line, and only if the old header was too narrow; no header is
      written again, every other line stays, and the rows follow in order. */
  lemma AppendToExistingFile(lines: seq<string>, rows: seq<Row>)
    requires |lines| > 0
    ensures Appended(Some(lines), rows).Success?
    ensures var out := Appended(Some(lines), rows).value;
            |out| == |lines| + |rows|
            && out[0] == (if NeedsMigration(lines) then HEADER_LINE else lines[0])
            && (forall k :: 1 <= k < |lines| ==> out[k] == lines[k])
            && (forall k :: 0 <= k < |rows| ==> out[|lines| + k] == RenderRow(rows[k]))
  {
    ExtendedExisting(lines, HEADER_LINE, RenderAll(rows));
  }

  lemma ExtendedNotNarrow(file: Option<seq<string>>, header: string, added: seq<string>)
    requires Extended(file, header, added).Success?
    requires file.None? || NeedsMigration(file.value)
    requires Strip(header) == header && !NeedsMigration([header])
    ensures !NeedsMigration(Extended(file, header, added).value)
  {
    var out := Extended(file, header, added).value;
    assert out[0] == header;
    assert FirstLine(out) == FirstLine([header]);
  }

  /** The migration is idempotent: a file whose header was rewritten, or
      any file the script itself created, is never migrated again. */
  lemma MigrationIdempotent(file: Option<seq<string>>, rows: seq<Row>)
    requires Appended(file, rows).Success?
    requires file.None? || NeedsMigration(file.value)
    ensures !NeedsMigration(Appended(file, rows).value)
  {
    assert Strip(HEADER_LINE) == HEADER_LINE && !NeedsMigration([HEADER_LINE]) by {
      HeaderFields();
    }
    ExtendedNotNarrow(file, HEADER_LINE, RenderAll(rows));
  }

  /** A header at least as wide as `CSV_HEADERS`, even a wider one, is left
      untouched: the migration only ever widens. */
  lemma WideHeaderUntouched(lines: seq<string>, rows: seq<Row>)
    requires |lines| > 0 && |Split(Strip(lines[0]), ',')| >= |CSV_HEADERS|
    ensures Appended(Some(lines), rows) == Success(lines + RenderAll(rows))
  {
  }

  /** Logging rows stamped `stamp` arms the rate gate: on the file as
      `append_to_csv` leaves it, `too_soon` at `now` holds exactly when
      `stamp` lies less than `minInterval` seconds before `now`. */
  lemma GateAfterAppend(file: Option<seq<string>>, rows: seq<Row>, stamp: Instant, now: Instant, minInterval: int)
    requires Appended(file, rows).Success?
    requires |rows| > 0 && rows[|rows| - 1].system.timestamp == Format(stamp)
    ensures TooSoon(Some(Appended(file, rows).value), now, minInterval) <==> ElapsedSeconds(now, stamp) < minInterval
  {
    var out := Appended(file, rows).value;
    assert |out| >= 2 && out[|out| - 1] == RenderRow(rows[|rows| - 1]) by {
      if file.Some? {
        assert |file.value| > 0 by {
          AppendFailsOnlyOnEmptyFile(file, rows);
        }
        AppendToExistingFile(file.value, rows);
      } else {
        AppendToNewFile(rows);
      }
    }
    GateSeesLastRow(out, rows, stamp, now, minInterval);
  }

  /** One file per calendar month: two instants share a log file exactly
      when they fall in the same month of the same year. */
  lemma LogPathPerMonth(dir: string, a: Instant, b: Instant)
    ensures LogPath(dir, a) == LogPath(dir, b) <==> a.year == b.year && a.month == b.month
  {
    MonthKeySame(a, b);
    var p := dir + "/boiler_";
    if LogPath(dir, a) == LogPath(dir, b) {
      assert LogPath(dir, a)[|p|..|p| + 7] == MonthKey(a);
      assert LogPath(dir, b)[|p|..|p| + 7] == MonthKey(b);
    }
  }
}
