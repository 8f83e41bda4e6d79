/**
 * The batch loader: reads each table's CSV, forces the configured string
 * columns to text, derives a BigQuery schema (configured overrides first, then
 * the pandas dtype, then a look at the values for ISO-8601 timestamps) and
 * upserts the frame into `dataset.table` through a temporary table.
 */
module LoadToBigQuery {
  import opened Wrappers
  import opened Frames
  import opened Columns
  import opened Warehouse
  import opened Upsert
  import opened Config

  // ---------------------------------------------------------------------------
  // The ISO-8601 value test: re.match(r"^\d{4}-\d{2}-\d{2}T\d{2}:\d{2}:\d{2}(\.\d+)?Z?$")
  // ---------------------------------------------------------------------------

  predicate IsAsciiDigit(ch: char) {
    '0' <= ch <= '9'
  }

  /** Exactly `n` digits. */
  predicate Digits(s: string, n: nat) {
    |s| == n && forall i :: 0 <= i < |s| ==> IsAsciiDigit(s[i])
  }

  /** `\d+`. */
  predicate DigitRun(s: string) {
    |s| >= 1 && forall i :: 0 <= i < |s| ==> IsAsciiDigit(s[i])
  }

  /** `(\.\d+)?Z?` matched by the whole of `t`. */
  predicate IsoSuffix(t: string) {
    var u := if |t| > 0 && t[|t| - 1] == 'Z' then t[..|t| - 1] else t;
    u == [] || (u[0] == '.' && DigitRun(u[1..]))
  }

  /** The pattern without its anchors, matched by the whole of `s`. */
  predicate IsoBody(s: string) {
    && |s| >= 19
    && Digits(s[0..4], 4) && s[4] == '-' && Digits(s[5..7], 2) && s[7] == '-' && Digits(s[8..10], 2)
    && s[10] == 'T'
    && Digits(s[11..13], 2) && s[13] == ':' && Digits(s[14..16], 2) && s[16] == ':' && Digits(s[17..19], 2)
    && IsoSuffix(s[19..])
  }

  /** `re.match` anchored by `^…$`: `$` also matches just before a final newline. */
  predicate LooksLikeIsoTimestamp(s: string) {
    IsoBody(s) || (|s| > 0 && s[|s| - 1] == '\n' && IsoBody(s[..|s| - 1]))
  }

  /** The text `YYYY-MM-DDTHH:MM:SS[.fraction][Z]` assembled from its fields. */
  function IsoText(year: string, month: string, day: string, hour: string, minute: string,
                   second: string, fraction: string, zulu: bool): string {
    year + "-" + month + "-" + day + "T" + hour + ":" + minute + ":" + second
      + (if fraction == [] then "" else "." + fraction) + (if zulu then "Z" else "")
  }

  /** Every text assembled from well-formed fields passes the value test. */
  lemma IsoTextMatches(year: string, month: string, day: string, hour: string, minute: string,
                       second: string, fraction: string, zulu: bool)
    requires Digits(year, 4) && Digits(month, 2) && Digits(day, 2)
    requires Digits(hour, 2) && Digits(minute, 2) && Digits(second, 2)
    requires fraction == [] || DigitRun(fraction)
    ensures LooksLikeIsoTimestamp(IsoText(year, month, day, hour, minute, second, fraction, zulu))
  {
    var s := IsoText(year, month, day, hour, minute, second, fraction, zulu);
    var p5 := year + "-";
    var p7 := p5 + month;
    var p8 := p7 + "-";
    var p10 := p8 + day;
    var p11 := p10 + "T";
    var p13 := p11 + hour;
    var p14 := p13 + ":";
    var p16 := p14 + minute;
    var p17 := p16 + ":";
    var head := p17 + second;
    var frac := if fraction == [] then "" else "." + fraction;
    var tail := frac + (if zulu then "Z" else "");
    assert s == head + tail;
    assert s[..|s|] == s;
    SplitPrefix(s, 19, |s|, head, tail);
    SplitPrefix(s, 17, 19, p17, second);
    SplitPrefix(s, 16, 17, p16, ":");
    SplitPrefix(s, 14, 16, p14, minute);
    SplitPrefix(s, 13, 14, p13, ":");
    SplitPrefix(s, 11, 13, p11, hour);
    SplitPrefix(s, 10, 11, p10, "T");
    SplitPrefix(s, 8, 10, p8, day);
    SplitPrefix(s, 7, 8, p7, "-");
    SplitPrefix(s, 5, 7, p5, month);
    SplitPrefix(s, 4, 5, year, "-");
    assert s[0..4] == s[..4];
    assert s[19..] == s[19..|s|];
    IsoSuffixOf(fraction, zulu);
    IsoBodyFromParts(s, year, month, day, hour, minute, second, tail);
  }

  /** The suffix assembled from a well-formed fraction and an optional "Z" matches `(\.\d+)?Z?`. */
  lemma IsoSuffixOf(fraction: string, zulu: bool)
    requires fraction == [] || DigitRun(fraction)
    ensures IsoSuffix((if fraction == [] then "" else "." + fraction) + (if zulu then "Z" else ""))
  {
    var frac := if fraction == [] then "" else "." + fraction;
    var tail := frac + (if zulu then "Z" else "");
    if zulu {
      assert tail[..|tail| - 1] == frac;
    }
    if fraction != [] {
      assert frac[1..] == fraction;
    }
  }

  /** A text whose slices are the well-formed fields and separators matches the unanchored pattern. */
  lemma IsoBodyFromParts(s: string, year: string, month: string, day: string, hour: string,
                         minute: string, second: string, tail: string)
    requires |s| >= 19 && s[0..4] == year && s[5..7] == month && s[8..10] == day
    requires s[11..13] == hour && s[14..16] == minute && s[17..19] == second && s[19..] == tail
    requires s[4..5] == "-" && s[7..8] == "-" && s[10..11] == "T" && s[13..14] == ":" && s[16..17] == ":"
    requires Digits(year, 4) && Digits(month, 2) && Digits(day, 2)
    requires Digits(hour, 2) && Digits(minute, 2) && Digits(second, 2)
    requires IsoSuffix(tail)
    ensures IsoBody(s)
  {
    assert s[4] == s[4..5][0] && s[7] == s[7..8][0] && s[10] == s[10..11][0];
    assert s[13] == s[13..14][0] && s[16] == s[16..17][0];
  }

  /** The fraction digits of a matched text, without the dot. */
  function FractionOf(s: string): string
    requires IsoBody(s)
  {
    var t := s[19..];
    var u := if |t| > 0 && t[|t| - 1] == 'Z' then t[..|t| - 1] else t;
    if u == [] then [] else u[1..]
  }

  /** A text matching the pattern without its anchors is one assembled from well-formed fields. */
  lemma IsoBodyIsIsoText(s: string)
    requires IsoBody(s)
    ensures var zulu := |s| > 19 && s[|s| - 1] == 'Z';
      && (FractionOf(s) == [] || DigitRun(FractionOf(s)))
      && s == IsoText(s[0..4], s[5..7], s[8..10], s[11..13], s[14..16], s[17..19], FractionOf(s), zulu)
  {
    var t := s[19..];
    var zulu := |s| > 19 && s[|s| - 1] == 'Z';
    var u := if zulu then t[..|t| - 1] else t;
    assert t == u + (if zulu then "Z" else "");
    if u != [] {
      assert u == "." + u[1..];
    }
    assert s[..4] == s[0..4];
    PrefixGrows(s, 4, 5);
    assert s[4..5] == "-";
    PrefixGrows(s, 5, 7);
    PrefixGrows(s, 7, 8);
    assert s[7..8] == "-";
    PrefixGrows(s, 8, 10);
    PrefixGrows(s, 10, 11);
    assert s[10..11] == "T";
    PrefixGrows(s, 11, 13);
    PrefixGrows(s, 13, 14);
    assert s[13..14] == ":";
    PrefixGrows(s, 14, 16);
    PrefixGrows(s, 16, 17);
    assert s[16..17] == ":";
    PrefixGrows(s, 17, 19);
    PrefixGrows(s, 19, |s|);
    assert s[..|s|] == s;
  }

  /** A prefix known as x + y splits at |x| into x and y. */
  lemma SplitPrefix(s: string, n: nat, m: nat, x: string, y: string)
    requires n <= m <= |s| && |x| == n && s[..m] == x + y
    ensures s[..n] == x && s[n..m] == y
  {
    assert s[..n] == s[..m][..n] && s[n..m] == s[..m][n..];
  }

  /** A longer prefix is the shorter one followed by the slice between them. */
  lemma PrefixGrows(s: string, n: nat, m: nat)
    requires n <= m <= |s|
    ensures s[..m] == s[..n] + s[n..m]
  {
  }

  /**
   * Every text that passes the value test is one assembled from well-formed
   * fields, possibly followed by the one final newline that `$` lets through.
   */
  lemma MatchedIsIsoText(s: string)
    requires LooksLikeIsoTimestamp(s)
    ensures var b := if IsoBody(s) then s else s[..|s| - 1];
      var zulu := |b| > 19 && b[|b| - 1] == 'Z';
      && IsoBody(b)
      && (FractionOf(b) == [] || DigitRun(FractionOf(b)))
      && s == IsoText(b[0..4], b[5..7], b[8..10], b[11..13], b[14..16], b[17..19], FractionOf(b), zulu)
              + (if IsoBody(s) then "" else "\n")
  {
    var b := if IsoBody(s) then s else s[..|s| - 1];
    IsoBodyIsIsoText(b);
    if !IsoBody(s) {
      EndsInNewline(s);
    }
  }

  lemma EndsInNewline(s: string)
    requires |s| > 0 && s[|s| - 1] == '\n'
    ensures s == s[..|s| - 1] + "\n"
  {
    PrefixGrows(s, |s| - 1, |s|);
    assert s[|s| - 1..|s|] == [s[|s| - 1]];
    assert s[..|s|] == s;
  }

  // ---------------------------------------------------------------------------
  // Schema derivation
  // ---------------------------------------------------------------------------

  /** `df[c].dropna().astype(str)`: the text of each non-missing value. */
  function NonNullTexts(values: seq<Value>): (r: seq<string>)
    ensures |r| <= |values|
    ensures (forall i :: 0 <= i < |values| ==> values[i] == Null) <==> r == []
  {
    if values == [] then []
    else (if values[0] == Null then [] else [PyStr(values[0])]) + NonNullTexts(values[1..])
  }

  /** Every non-missing value of the column looks like an ISO-8601 timestamp, and there is at least one. */
  predicate AllIsoTimestamps(c: Column) {
    var texts := NonNullTexts(c.values);
    texts != [] && forall i :: 0 <= i < |texts| ==> LooksLikeIsoTimestamp(texts[i])
  }

  /**
   * The BigQuery type of one column: a configured string column is STRING, a
   * configured numeric one FLOAT64; any other column is typed from its dtype,
   * and an untyped column is TIMESTAMP only when all its values look like ISO timestamps.
   */
  function ColumnType(c: Column, table: string): (r: FieldType)
    ensures r == TIMESTAMP ==> c.dtype == Datetime64 || AllIsoTimestamps(c)
    ensures r == INTEGER ==> c.dtype == Int64
  {
    if c.name in StringColumns(table) then STRING
    else if c.name in NumericColumns(table) then FLOAT64
    else if c.dtype == Int64 then INTEGER
    else if c.dtype == Float64 then FLOAT64
    else if c.dtype == BoolDtype then BOOLEAN
    else if c.dtype == Datetime64 || AllIsoTimestamps(c) then TIMESTAMP
    else STRING
  }

  /** `build_bq_schema`: one field per column, in the frame's order. */
  function BuildBqSchema(df: Frame, table: string): (schema: seq<SchemaField>)
    ensures |schema| == |df|
    ensures forall i :: 0 <= i < |df| ==> schema[i] == SchemaField(df[i].name, ColumnType(df[i], table))
  {
    seq(|df|, i requires 0 <= i < |df| => SchemaField(df[i].name, ColumnType(df[i], table)))
  }

  /**
   * Configured columns are typed by name alone: two columns with the same
   * configured name get the same type whatever their dtype and values, a
   * string override beating a numeric one, and a numeric one is FLOAT64 even
   * when the column holds integers.
   */
  lemma ConfiguredTypeIgnoresData(c1: Column, c2: Column, table: string)
    requires c1.name == c2.name
    requires c1.name in StringColumns(table) || c1.name in NumericColumns(table)
    ensures ColumnType(c1, table) == ColumnType(c2, table)
    ensures ColumnType(c1, table) == (if c1.name in StringColumns(table) then STRING else FLOAT64)
  {
  }

  /**
   * An unconfigured column is typed from its dtype: integer INTEGER, float
   * FLOAT64, boolean BOOLEAN, datetime TIMESTAMP; an object column is
   * TIMESTAMP exactly when it passes the ISO value test, and STRING otherwise.
   */
  lemma UnconfiguredTypedByDtype(c: Column, table: string)
    requires c.name !in StringColumns(table) && c.name !in NumericColumns(table)
    ensures ColumnType(c, table) == INTEGER <==> c.dtype == Int64
    ensures ColumnType(c, table) == FLOAT64 <==> c.dtype == Float64
    ensures ColumnType(c, table) == BOOLEAN <==> c.dtype == BoolDtype
    ensures ColumnType(c, table) == TIMESTAMP <==> c.dtype == Datetime64 || (c.dtype == Object && AllIsoTimestamps(c))
    ensures ColumnType(c, table) == STRING <==> c.dtype == Object && !AllIsoTimestamps(c)
  {
  }

  /** A column whose values are all missing is never typed TIMESTAMP by the value test. */
  lemma AllMissingIsNotTimestamp(c: Column, table: string)
    requires forall i :: 0 <= i < |c.values| ==> c.values[i] == Null
    requires c.dtype != Datetime64
    ensures ColumnType(c, table) != TIMESTAMP
  {
  }

  // ---------------------------------------------------------------------------
  // One table
  // ---------------------------------------------------------------------------

  /** The frame after sanitising names and forcing the configured string columns to text. */
  function Prepared(df: Frame, table: string): Frame {
    Transformed(SanitizeColumns(df), NameSet(StringColumns(table)), FillString)
  }

  /**
   * After preparation every configured string column present holds text only
   * (missing values as ""), keeps any text it was read as, and is typed STRING;
   * every other column is the sanitised input column, untouched.
   */
  lemma PreparedStringColumns(df: Frame, table: string, i: nat)
    requires i < |df|
    ensures var p := Prepared(df, table);
      var c := SanitizeColumns(df)[i];
      && |p| == |df| && p[i].name == c.name
      && (c.name in StringColumns(table) ==>
            && p[i].dtype == Object && |p[i].values| == |c.values|
            && ColumnType(p[i], table) == STRING
            && (forall r :: 0 <= r < |c.values| ==> p[i].values[r].Str?)
            && (forall r :: 0 <= r < |c.values| && c.values[r].Str? ==> p[i].values[r] == c.values[r]))
      && (c.name !in StringColumns(table) ==> p[i] == c)
  {
    var c := SanitizeColumns(df)[i];
    FillStringNoNulls(c);
  }

  /** The MERGE statement the load script issues for a prepared frame. */
  function LoadMerge(dataset: string, table: string, df: Frame, idColumn: string): MergeStmt {
    BuildMerge(FinalTableId(dataset, table), TempTableId(dataset, table), Names(df), idColumn)
  }

  /** The whole effect of `upload_and_merge_table` on the warehouse, for the frame the CSV reader returned. */
  function UploadEffect(tables: map<string, Table>, dataset: string, table: string, csv: Frame,
                        idColumn: string, faults: Faults): Upserted
  {
    var df := Prepared(csv, table);
    if !HasColumn(df, idColumn) then Upserted(tables, [], Err(MissingIdColumn(idColumn)))
    else StageAndMergeEffect(tables, LoadMerge(dataset, table, df, idColumn),
                             BuildBqSchema(df, table), FrameRows(df), ScriptLayout, faults)
  }

  /**
   * `upload_and_merge_table` from the frame read from the CSV: sanitise, force
   * string columns, check the id column (raising before any warehouse call),
   * derive the schema and run the staging protocol with the script's layout.
   */
  method UploadAndMergeTable(wh: Client, dataset: string, table: string, csv: Frame, idColumn: string,
                             faults: Faults)
    returns (r: Result<(), UploadError>)
    modifies wh
    ensures var e := UploadEffect(old(wh.tables), dataset, table, csv, idColumn, faults);
      wh.tables == e.tables && wh.calls == old(wh.calls) + e.calls && r == e.result
  {
    var df := SanitizeColumns(csv);
    forall c: Column ensures FillString(FillString(c)) == FillString(c) {
      FillStringIdempotent(c);
    }
    df := ReassignColumns(df, StringColumns(table), FillString);
    if !HasColumn(df, idColumn) {
      return Err(MissingIdColumn(idColumn));
    }
    var schema := BuildBqSchema(df, table);
    TempIsNotFinal(dataset, table);
    var m := LoadMerge(dataset, table, df, idColumn);
    r := StageAndMerge(wh, m, schema, FrameRows(df), ScriptLayout, faults);
  }

  /** A missing id column stops the upload before the warehouse is asked anything. */
  lemma MissingIdTouchesNothing(tables: map<string, Table>, dataset: string, table: string, csv: Frame,
                                idColumn: string, faults: Faults)
    requires !HasColumn(Prepared(csv, table), idColumn)
    ensures var e := UploadEffect(tables, dataset, table, csv, idColumn, faults);
      e.tables == tables && e.calls == [] && e.result == Err(MissingIdColumn(idColumn))
  {
  }

  /**
   * The id column is checked under its name as given, not sanitised: a dotted
   * id header never matches once the frame's names are sanitised.
   */
  lemma DottedIdNeverFound(csv: Frame, table: string, idColumn: string)
    requires '.' in idColumn
    ensures !HasColumn(Prepared(csv, table), idColumn)
  {
    SanitizedNamesHaveNoDot(csv, NameSet(StringColumns(table)), idColumn);
  }

  lemma SanitizedNamesHaveNoDot(csv: Frame, names: set<string>, idColumn: string)
    requires '.' in idColumn
    ensures !HasColumn(Transformed(SanitizeColumns(csv), names, FillString), idColumn)
  {
    var s := SanitizeColumns(csv);
    var p := Transformed(s, names, FillString);
    var all := Names(p);
    forall i | 0 <= i < |all| ensures all[i] != idColumn {
      SanitizeNameNormalises(csv[i].name);
      if s[i].name in names {
        assert p[i] == FillString(s[i]);
      }
      assert all[i] == p[i].name == s[i].name;
    }
  }

  // ---------------------------------------------------------------------------
  // All tables
  // ---------------------------------------------------------------------------

  /** One entry of the upload plan: table, CSV path, id column. */
  datatype PlanEntry = PlanEntry(table: string, path: string, idColumn: string)

  /** The tables `upload_all_tables_v2` processes, in this order. */
  const UploadPlan: seq<PlanEntry> := [
    PlanEntry("products", "data/raw_csv_outputs/products.csv", "id"),
    PlanEntry("categories", "data/raw_csv_outputs/categories.csv", "id"),
    PlanEntry("manufacturers", "data/raw_csv_outputs/manufacturers.csv", "id"),
    PlanEntry("locations", "data/raw_csv_outputs/locations.csv", "id"),
    PlanEntry("clients", "data/raw_csv_outputs/clients.csv", "id"),
    PlanEntry("cashless", "data/cashless_facts_full.csv", "transaction_id")
  ]

  /** What became of one table: skipped for a missing CSV, merged, or failed (the error is caught and logged). */
  datatype TableOutcome = Skipped | Merged | Failed(reason: Option<UploadError>)

  /**
   * The file system and the CSV reader. `read(path, stringColumns, dateColumns)`
   * is `pd.read_csv` with those columns read as text and parsed as dates;
   * None when it raises.
   */
  datatype CsvSource = CsvSource(present: string -> bool, read: (string, seq<string>, seq<string>) -> Option<Frame>)

  /** One table's step: the tables after it, the calls it issued, its outcome. */
  function TableStep(tables: map<string, Table>, dataset: string, entry: PlanEntry, files: CsvSource,
                     faults: string -> Faults): (map<string, Table>, seq<Call>, TableOutcome)
  {
    if !files.present(entry.path) then (tables, [], Skipped)
    else match files.read(entry.path, StringColumns(entry.table), DateColumns(entry.table))
      case None => (tables, [], Failed(None))
      case Some(csv) =>
        var e := UploadEffect(tables, dataset, entry.table, csv, entry.idColumn, faults(entry.table));
        (e.tables, e.calls, if e.result.Ok? then Merged else Failed(Some(e.result.error)))
  }

  /** The steps of `plan` run in order, each from the tables the previous one left. */
  function RunPlan(tables: map<string, Table>, dataset: string, plan: seq<PlanEntry>, files: CsvSource,
                   faults: string -> Faults): (r: (map<string, Table>, seq<Call>, seq<TableOutcome>))
    ensures |r.2| == |plan|
  {
    if plan == [] then (tables, [], [])
    else
      var before := RunPlan(tables, dataset, plan[..|plan| - 1], files, faults);
      var step := TableStep(before.0, dataset, plan[|plan| - 1], files, faults);
      (step.0, before.1 + step.1, before.2 + [step.2])
  }

  /** One pass of the loop body: skip, a caught read failure, or the upload. */
  method UploadOne(wh: Client, dataset: string, entry: PlanEntry, files: CsvSource, faults: string -> Faults)
    returns (outcome: TableOutcome)
    modifies wh
    ensures var step := TableStep(old(wh.tables), dataset, entry, files, faults);
      wh.tables == step.0 && wh.calls == old(wh.calls) + step.1 && outcome == step.2
  {
    if !files.present(entry.path) {
      return Skipped;
    }
    var read := files.read(entry.path, StringColumns(entry.table), DateColumns(entry.table));
    if read.None? {
      return Failed(None);
    }
    var r := UploadAndMergeTable(wh, dataset, entry.table, read.value, entry.idColumn, faults(entry.table));
    outcome := if r.Ok? then Merged else Failed(Some(r.error));
  }

  /** The loop over a plan: each entry in turn, whatever became of the previous ones. */
  method RunUploads(wh: Client, dataset: string, plan: seq<PlanEntry>, files: CsvSource, faults: string -> Faults)
    returns (outcomes: seq<TableOutcome>)
    modifies wh
    ensures var run := RunPlan(old(wh.tables), dataset, plan, files, faults);
      wh.tables == run.0 && wh.calls == old(wh.calls) + run.1 && outcomes == run.2
  {
    outcomes := [];
    ghost var start := wh.tables;
    ghost var startCalls := wh.calls;
    for k := 0 to |plan|
      invariant var run := RunPlan(start, dataset, plan[..k], files, faults);
        wh.tables == run.0 && wh.calls == startCalls + run.1 && outcomes == run.2
    {
      ghost var before := RunPlan(start, dataset, plan[..k], files, faults);
      var outcome := UploadOne(wh, dataset, plan[k], files, faults);
      ghost var step := TableStep(before.0, dataset, plan[k], files, faults);
      outcomes := outcomes + [outcome];
      assert plan[..k + 1][..k] == plan[..k];
      AppendAssociates(startCalls, before.1, step.1);
    }
    assert plan[..|plan|] == plan;
  }

  /**
   * `upload_all_tables_v2`: every planned table is tried in order; a missing
   * CSV skips it and a failure is caught, so later tables are still processed.
   */
  method UploadAllTablesV2(wh: Client, dataset: string, files: CsvSource, faults: string -> Faults)
    returns (outcomes: seq<TableOutcome>)
    modifies wh
    ensures var run := RunPlan(old(wh.tables), dataset, UploadPlan, files, faults);
      wh.tables == run.0 && wh.calls == old(wh.calls) + run.1 && outcomes == run.2
  {
    outcomes := RunUploads(wh, dataset, UploadPlan, files, faults);
  }

  /**
   * Each table's outcome depends on its own CSV, never on an earlier table's
   * failure: table `k` is skipped exactly when its CSV is missing, and
   * otherwise it is tried against whatever the earlier steps left.
   */
  lemma {:induction false} EveryTableTried(tables: map<string, Table>, dataset: string, plan: seq<PlanEntry>,
                                           files: CsvSource, faults: string -> Faults, k: nat)
    requires k < |plan|
    ensures var run := RunPlan(tables, dataset, plan, files, faults);
      var before := RunPlan(tables, dataset, plan[..k], files, faults);
      run.2[k] == TableStep(before.0, dataset, plan[k], files, faults).2
      && (run.2[k] == Skipped <==> !files.present(plan[k].path))
  {
    var before := RunPlan(tables, dataset, plan[..k], files, faults);
    StepSkippedIffMissing(before.0, dataset, plan[k], files, faults);
    if k < |plan| - 1 {
      EveryTableTried(tables, dataset, plan[..|plan| - 1], files, faults, k);
      assert plan[..|plan| - 1][..k] == plan[..k];
    }
  }

  /** A step is skipped exactly when its CSV is missing; an upload that fails is a failure, not a skip. */
  lemma StepSkippedIffMissing(tables: map<string, Table>, dataset: string, entry: PlanEntry, files: CsvSource,
                              faults: string -> Faults)
    ensures TableStep(tables, dataset, entry, files, faults).2 == Skipped <==> !files.present(entry.path)
  {
  }
}
