/**
 * The warehouse side of the upsert protocol, shared by both loaders: schema
 * fields, the MERGE statement built from a frame's column list, its exact SQL
 * text, what the statement does to the final table (a ghost model of the
 * warehouse's MERGE), and the remote tables as an object whose state the
 * loaders' calls change.
 */
module Warehouse {
  import opened Wrappers
  import opened Frames

  /** The type names the schema builders emit; BigQuery reads FLOAT64 and FLOAT alike. */
  datatype FieldType = STRING | INTEGER | FLOAT64 | FLOAT | BOOLEAN | TIMESTAMP

  datatype SchemaField = SchemaField(name: string, fieldType: FieldType)

  datatype Table = Table(schema: seq<SchemaField>, rows: seq<Row>)

  // ---------------------------------------------------------------------------
  // The MERGE statement
  // ---------------------------------------------------------------------------

  /**
   * MERGE `target` T USING `source` S ON T.on = S.on
   * WHEN MATCHED THEN UPDATE SET T.c = S.c for c in setColumns
   * WHEN NOT MATCHED THEN INSERT (insertColumns) VALUES (S.c for c in insertColumns)
   */
  datatype MergeStmt = MergeStmt(
    target: string, source: string, on: string,
    setColumns: seq<string>, insertColumns: seq<string>)

  /** The columns of the UPDATE SET clause: every column but the id, in column order. */
  function SetColumns(cols: seq<string>, id: string): (r: seq<string>)
    ensures forall c :: c in r <==> c in cols && c != id
    ensures forall c :: multiset(r)[c] == if c == id then 0 else multiset(cols)[c]
  {
    if cols == [] then []
    else
      assert cols == [cols[0]] + cols[1..];
      (if cols[0] == id then [] else [cols[0]]) + SetColumns(cols[1..], id)
  }

  /** SetColumns keeps the columns' order: it is what remains of cols after dropping the id. */
  lemma {:induction false} SetColumnsInOrder(cols: seq<string>, id: string, k: nat)
    requires k <= |cols|
    ensures SetColumns(cols[..k], id) + SetColumns(cols[k..], id) == SetColumns(cols, id)
  {
    if k > 0 {
      assert cols[..k][0] == cols[0] && cols[..k][1..] == cols[1..][..k - 1];
      assert cols[k..] == cols[1..][k - 1..];
      SetColumnsInOrder(cols[1..], id, k - 1);
    }
  }

  /** Dropping the id leaves one SET column for every other occurrence in cols. */
  lemma {:induction false} SetColumnsCount(cols: seq<string>, id: string)
    ensures |SetColumns(cols, id)| == |cols| - multiset(cols)[id]
  {
    if cols != [] {
      assert cols == [cols[0]] + cols[1..];
      assert multiset(cols) == multiset{cols[0]} + multiset(cols[1..]);
      SetColumnsCount(cols[1..], id);
    }
  }

  /** The statement both loaders build from the frame's (sanitised) column list. */
  function BuildMerge(finalId: string, tempId: string, cols: seq<string>, id: string): (m: MergeStmt)
    ensures m.target == finalId && m.source == tempId
    ensures m.on == id && m.insertColumns == cols
    ensures m.setColumns == SetColumns(cols, id)
  {
    MergeStmt(finalId, tempId, id, SetColumns(cols, id), cols)
  }

  /** The whitespace of the two loaders' statement templates differs; the SQL does not. */
  datatype Layout = ScriptLayout | CloudFunctionLayout

  function Quoted(c: string): string { "`" + c + "`" }

  /** `T.`c` = S.`c`` for each SET column, in order. */
  function SetClauseParts(cols: seq<string>): (r: seq<string>)
    ensures |r| == |cols|
    ensures forall i :: 0 <= i < |cols| ==> r[i] == "T." + Quoted(cols[i]) + " = S." + Quoted(cols[i])
  {
    if cols == [] then [] else ["T." + Quoted(cols[0]) + " = S." + Quoted(cols[0])] + SetClauseParts(cols[1..])
  }

  function QuotedAll(cols: seq<string>): (r: seq<string>)
    ensures |r| == |cols|
    ensures forall i :: 0 <= i < |cols| ==> r[i] == Quoted(cols[i])
  {
    if cols == [] then [] else [Quoted(cols[0])] + QuotedAll(cols[1..])
  }

  function SourceValues(cols: seq<string>): (r: seq<string>)
    ensures |r| == |cols|
    ensures forall i :: 0 <= i < |cols| ==> r[i] == "S." + Quoted(cols[i])
  {
    if cols == [] then [] else ["S." + Quoted(cols[0])] + SourceValues(cols[1..])
  }

  /** The statement up to and including UPDATE SET: target, source, and the ON clause on the id column. */
  function MergeHead(m: MergeStmt): string {
    "\n    MERGE " + Quoted(m.target) + " T\n    USING " + Quoted(m.source) + " S\n"
      + "    ON T." + Quoted(m.on) + " = S." + Quoted(m.on) + "\n" + "    WHEN MATCHED THEN\n" + "      UPDATE SET"
  }

  /** The SET parts, one per line. */
  function SetClause(m: MergeStmt): string {
    Join(",\n        ", SetClauseParts(m.setColumns))
  }

  /** The statement from the SET parts on: the INSERT columns and the VALUES. */
  function MergeTail(m: MergeStmt): string {
    SetClause(m) + "\n" + "    WHEN NOT MATCHED THEN\n"
      + "      INSERT (" + Join(", ", QuotedAll(m.insertColumns)) + ")\n"
      + "      VALUES (" + Join(", ", SourceValues(m.insertColumns)) + ")\n    "
  }

  /**
   * The exact text the loaders send to the warehouse: the two templates differ
   * only in the line break after UPDATE SET.
   */
  function MergeSql(m: MergeStmt, layout: Layout): string {
    MergeHead(m) + (match layout case ScriptLayout => "\n        " case CloudFunctionLayout => " ") + MergeTail(m)
  }

  /**
   * The two loaders send the same statement apart from the whitespace right
   * after UPDATE SET: a line break and eight spaces in the script, one space in
   * the cloud function; what comes before and after it is the same text. The
   * SET clause text is empty exactly when there is no SET column, the
   * statement the warehouse refuses to parse.
   */
  lemma MergeSqlLayouts(m: MergeStmt)
    ensures var script := MergeSql(m, ScriptLayout);
      var cloud := MergeSql(m, CloudFunctionLayout);
      var k := |MergeHead(m)|;
      && k >= 10 && |script| == |cloud| + 8
      && script[k - 10..k] == "UPDATE SET"
      && script[..k] == cloud[..k]
      && script[k..k + 9] == "\n        " && cloud[k..k + 1] == " "
      && script[k + 9..] == cloud[k + 1..]
    ensures SetClause(m) == "" <==> m.setColumns == []
  {
    var head, tail := MergeHead(m), MergeTail(m);
    var script, cloud := head + "\n        " + tail, head + " " + tail;
    var k := |head|;
    assert head[k - 10..k] == "UPDATE SET";
    assert script[..k] == head == cloud[..k];
    assert script[k - 10..k] == head[k - 10..k];
    assert script[k..k + 9] == "\n        ";
    assert cloud[k..k + 1] == " ";
    assert script[k + 9..] == tail == cloud[k + 1..];
    var parts := SetClauseParts(m.setColumns);
    if parts != [] {
      assert |parts[0]| > 0;
      assert |Join(",\n        ", parts)| >= |parts[0]|;
    }
  }

  /**
   * The INSERT column list and the VALUES list name the same columns in the same
   * order, and the SET list assigns each non-id column from its source column.
   */
  lemma MergeClausesAligned(cols: seq<string>, id: string, finalId: string, tempId: string)
    ensures var m := BuildMerge(finalId, tempId, cols, id);
      && |QuotedAll(m.insertColumns)| == |SourceValues(m.insertColumns)| == |cols|
      && (forall i :: 0 <= i < |cols| ==>
            SourceValues(m.insertColumns)[i] == "S." + QuotedAll(m.insertColumns)[i])
      && |SetClauseParts(m.setColumns)| == |cols| - multiset(cols)[id]
  {
    SetColumnsCount(cols, id);
  }

  // ---------------------------------------------------------------------------
  // What a MERGE does (ghost model of the warehouse)
  // ---------------------------------------------------------------------------

  datatype MergeFailure =
    | EmptySetClause            // "UPDATE SET" followed by nothing: the statement does not parse
    | UnknownColumn             // the statement names a column one of the two tables lacks
    | TargetMatchedTwice        // a target row matches two source rows
    | TableNotFound
    | ServiceError              // any other failure of the query job

  /** How many rows carry key k in column `on`. */
  function KeyCount(rows: seq<Row>, on: string, k: Value): nat {
    if rows == [] then 0 else (if Get(rows[0], on) == k then 1 else 0) + KeyCount(rows[1..], on, k)
  }

  /** The first row carrying key k. */
  function FirstWithKey(rows: seq<Row>, on: string, k: Value): (r: Row)
    requires KeyCount(rows, on, k) > 0
    ensures r in rows && Get(r, on) == k
  {
    if Get(rows[0], on) == k then rows[0] else FirstWithKey(rows[1..], on, k)
  }

  /** SQL equality never holds for NULL, so a row with a NULL id matches nothing. */
  predicate Matches(rows: seq<Row>, on: string, k: Value) {
    k != Null && KeyCount(rows, on, k) > 0
  }

  function UpdateRow(t: Row, s: Row, setColumns: seq<string>): Row {
    t + map c | c in setColumns :: Get(s, c)
  }

  function InsertRow(s: Row, insertColumns: seq<string>): Row {
    map c | c in insertColumns :: Get(s, c)
  }

  /** The target rows after WHEN MATCHED: a matched row takes the SET columns of its source row. */
  function MatchedTarget(m: MergeStmt, target: seq<Row>, source: seq<Row>): (r: seq<Row>)
    ensures |r| == |target|
  {
    seq(|target|, i requires 0 <= i < |target| =>
      var k := Get(target[i], m.on);
      if Matches(source, m.on, k) then UpdateRow(target[i], FirstWithKey(source, m.on, k), m.setColumns)
      else target[i])
  }

  /** The rows WHEN NOT MATCHED adds: one per source row whose id no target row has. */
  function NotMatchedInserts(m: MergeStmt, target: seq<Row>, source: seq<Row>): seq<Row> {
    if source == [] then []
    else
      (if Matches(target, m.on, Get(source[0], m.on)) then [] else [InsertRow(source[0], m.insertColumns)])
        + NotMatchedInserts(m, target, source[1..])
  }

  predicate SomeTargetMatchedTwice(m: MergeStmt, target: seq<Row>, source: seq<Row>) {
    exists i :: 0 <= i < |target| && Get(target[i], m.on) != Null && KeyCount(source, m.on, Get(target[i], m.on)) > 1
  }

  /** The column names a table's schema declares. */
  function FieldNames(schema: seq<SchemaField>): set<string> {
    set f | f in schema :: f.name
  }

  /** The columns the statement names: the id, the INSERT columns and the SET columns. */
  function NamedColumns(m: MergeStmt): set<string> {
    {m.on} + (set c | c in m.insertColumns) + (set c | c in m.setColumns)
  }

  /**
   * The final table's rows after the MERGE, or why the statement fails: a
   * statement that does not parse, one naming a column the target or the
   * source table lacks (both are analysed before any row is read), or a target
   * row matched twice.
   */
  function Execute(m: MergeStmt, target: Table, source: Table): (r: Result<seq<Row>, MergeFailure>)
    ensures r.Ok? ==> NamedColumns(m) <= FieldNames(target.schema) * FieldNames(source.schema)
    ensures r.Ok? ==> |r.value| >= |target.rows|
    ensures r.Ok? ==> !SomeTargetMatchedTwice(m, target.rows, source.rows)
    ensures m.setColumns == [] ==> r == Err(EmptySetClause)
    ensures m.setColumns != [] && !(NamedColumns(m) <= FieldNames(target.schema) * FieldNames(source.schema)) ==>
      r == Err(UnknownColumn)
    ensures (m.setColumns != [] && NamedColumns(m) <= FieldNames(target.schema) * FieldNames(source.schema)
             && SomeTargetMatchedTwice(m, target.rows, source.rows)) ==> r == Err(TargetMatchedTwice)
  {
    if m.setColumns == [] then Err(EmptySetClause)
    else if !(NamedColumns(m) <= FieldNames(target.schema) * FieldNames(source.schema)) then Err(UnknownColumn)
    else if SomeTargetMatchedTwice(m, target.rows, source.rows) then Err(TargetMatchedTwice)
    else Ok(MatchedTarget(m, target.rows, source.rows) + NotMatchedInserts(m, target.rows, source.rows))
  }

  /** A batch whose ids are all present and pairwise different. */
  predicate DistinctKeys(rows: seq<Row>, on: string) {
    && (forall i :: 0 <= i < |rows| ==> Get(rows[i], on) != Null)
    && (forall i, j :: 0 <= i < j < |rows| ==> Get(rows[i], on) != Get(rows[j], on))
  }

  lemma {:induction false} KeyCountOfDistinct(rows: seq<Row>, on: string, k: Value)
    requires DistinctKeys(rows, on)
    ensures KeyCount(rows, on, k) <= 1
  {
    if rows != [] {
      assert DistinctKeys(rows[1..], on);
      KeyCountOfDistinct(rows[1..], on, k);
      if Get(rows[0], on) == k {
        KeyCountZero(rows[1..], on, k);
      }
    }
  }

  lemma {:induction false} KeyCountZero(rows: seq<Row>, on: string, k: Value)
    requires forall i :: 0 <= i < |rows| ==> Get(rows[i], on) != k
    ensures KeyCount(rows, on, k) == 0
  {
    if rows != [] {
      KeyCountZero(rows[1..], on, k);
    }
  }

  lemma {:induction false} KeyCountPositive(rows: seq<Row>, on: string, i: nat)
    requires i < |rows|
    ensures KeyCount(rows, on, Get(rows[i], on)) > 0
  {
    if i > 0 {
      KeyCountPositive(rows[1..], on, i - 1);
    }
  }

  lemma {:induction false} KeyCountAppend(a: seq<Row>, b: seq<Row>, on: string, k: Value)
    ensures KeyCount(a + b, on, k) == KeyCount(a, on, k) + KeyCount(b, on, k)
  {
    if a != [] {
      assert (a + b)[0] == a[0] && (a + b)[1..] == a[1..] + b;
      KeyCountAppend(a[1..], b, on, k);
    } else {
      assert a + b == b;
    }
  }

  /** In a batch with distinct ids, the row found for a row's own id is that row. */
  lemma {:induction false} FirstWithOwnKey(rows: seq<Row>, on: string, i: nat)
    requires DistinctKeys(rows, on) && i < |rows|
    ensures KeyCount(rows, on, Get(rows[i], on)) > 0
    ensures FirstWithKey(rows, on, Get(rows[i], on)) == rows[i]
  {
    KeyCountPositive(rows, on, i);
    if i > 0 {
      assert DistinctKeys(rows[1..], on);
      assert Get(rows[0], on) != Get(rows[i], on);
      FirstWithOwnKey(rows[1..], on, i - 1);
    }
  }

  /** Every row NotMatchedInserts adds is the INSERT image of a source row with no target match. */
  lemma {:induction false} InsertsCome(m: MergeStmt, target: seq<Row>, source: seq<Row>, j: nat)
    requires j < |NotMatchedInserts(m, target, source)|
    ensures exists i :: (0 <= i < |source| && !Matches(target, m.on, Get(source[i], m.on))
      && NotMatchedInserts(m, target, source)[j] == InsertRow(source[i], m.insertColumns))
  {
    var head := if Matches(target, m.on, Get(source[0], m.on)) then [] else [InsertRow(source[0], m.insertColumns)];
    if j < |head| {
      assert NotMatchedInserts(m, target, source)[j] == InsertRow(source[0], m.insertColumns);
    } else {
      InsertsCome(m, target, source[1..], j - |head|);
      var i :| 0 <= i < |source[1..]| && !Matches(target, m.on, Get(source[1..][i], m.on))
        && NotMatchedInserts(m, target, source[1..])[j - |head|] == InsertRow(source[1..][i], m.insertColumns);
      assert source[1..][i] == source[i + 1];
    }
  }

  /** Nothing is inserted when every source id already has a target row. */
  lemma {:induction false} NothingToInsert(m: MergeStmt, target: seq<Row>, source: seq<Row>)
    requires forall i :: 0 <= i < |source| ==> Matches(target, m.on, Get(source[i], m.on))
    ensures NotMatchedInserts(m, target, source) == []
  {
    if source != [] {
      NothingToInsert(m, target, source[1..]);
    }
  }

  /** The statement shape BuildMerge produces, for a frame that has its id column. */
  predicate WellShaped(m: MergeStmt) {
    && m.on in m.insertColumns
    && m.on !in m.setColumns
    && (forall c :: c in m.setColumns ==> c in m.insertColumns)
  }

  lemma BuildMergeWellShaped(finalId: string, tempId: string, cols: seq<string>, id: string)
    requires id in cols
    ensures WellShaped(BuildMerge(finalId, tempId, cols, id))
  {
  }

  /**
   * What one MERGE of a batch does, row by row: a target row whose id the batch
   * has takes every non-id column from the batch and keeps its id and the
   * columns the batch lacks; a batch row whose id no target row has is inserted
   * with exactly the batch's columns.
   */
  lemma MergeRowEffect(m: MergeStmt, t: Row, s: Row, c: string)
    requires WellShaped(m)
    ensures Get(UpdateRow(t, s, m.setColumns), m.on) == Get(t, m.on)
    ensures c in m.setColumns ==> Get(UpdateRow(t, s, m.setColumns), c) == Get(s, c)
    ensures c !in m.setColumns ==> Get(UpdateRow(t, s, m.setColumns), c) == Get(t, c)
    ensures InsertRow(s, m.insertColumns).Keys == set x | x in m.insertColumns
    ensures c in m.insertColumns ==> Get(InsertRow(s, m.insertColumns), c) == Get(s, c)
  {
  }

  /** Re-applying the update a row already received changes nothing. */
  lemma UpdateIdempotent(m: MergeStmt, t: Row, s: Row)
    ensures UpdateRow(UpdateRow(t, s, m.setColumns), s, m.setColumns) == UpdateRow(t, s, m.setColumns)
  {
  }

  /** An inserted row already holds what the update would write into it. */
  lemma UpdateOfInserted(m: MergeStmt, s: Row)
    requires WellShaped(m)
    ensures UpdateRow(InsertRow(s, m.insertColumns), s, m.setColumns) == InsertRow(s, m.insertColumns)
  {
  }

  /**
   * Upsert idempotence: merging the same batch (ids present and distinct) a second
   * time leaves the final table's rows exactly as the first merge left them.
   */
  lemma MergeIdempotent(m: MergeStmt, targetTable: Table, sourceTable: Table)
    requires WellShaped(m) && DistinctKeys(sourceTable.rows, m.on)
    requires Execute(m, targetTable, sourceTable).Ok?
    ensures var merged := targetTable.(rows := Execute(m, targetTable, sourceTable).value);
      Execute(m, merged, sourceTable) == Execute(m, targetTable, sourceTable)
  {
    var target, source := targetTable.rows, sourceTable.rows;
    var r := MatchedTarget(m, target, source) + NotMatchedInserts(m, target, source);
    assert Execute(m, targetTable, sourceTable) == Ok(r);
    forall k ensures KeyCount(source, m.on, k) <= 1 {
      KeyCountOfDistinct(source, m.on, k);
    }
    assert !SomeTargetMatchedTwice(m, r, source);
    MatchedAgainUnchanged(m, target, source);
    MergedMatchesAll(m, target, source);
    NothingToInsert(m, r, source);
    var merged := targetTable.(rows := r);
    assert merged.schema == targetTable.schema;
    assert Execute(m, merged, sourceTable) == Ok(MatchedTarget(m, r, source) + NotMatchedInserts(m, r, source));
    assert MatchedTarget(m, r, source) + NotMatchedInserts(m, r, source) == r;
  }

  /** A second WHEN MATCHED over the merged rows changes none of them. */
  lemma MatchedAgainUnchanged(m: MergeStmt, target: seq<Row>, source: seq<Row>)
    requires WellShaped(m) && DistinctKeys(source, m.on)
    ensures var r := MatchedTarget(m, target, source) + NotMatchedInserts(m, target, source);
      MatchedTarget(m, r, source) == r
  {
    var mt := MatchedTarget(m, target, source);
    var ins := NotMatchedInserts(m, target, source);
    var r := mt + ins;
    forall i | 0 <= i < |r| ensures MatchedTarget(m, r, source)[i] == r[i] {
      if i < |mt| {
        assert r[i] == mt[i];
        MatchedRowAgain(m, target, source, i);
      } else {
        assert r[i] == ins[i - |mt|];
        InsertedRowAgain(m, target, source, i - |mt|);
      }
    }
  }

  /** A matched target row is left as it is by a second update from the same source. */
  lemma MatchedRowAgain(m: MergeStmt, target: seq<Row>, source: seq<Row>, i: nat)
    requires i < |target|
    ensures var t := MatchedTarget(m, target, source)[i];
      var k := Get(t, m.on);
      (if Matches(source, m.on, k) then UpdateRow(t, FirstWithKey(source, m.on, k), m.setColumns) else t) == t
  {
    var k := Get(target[i], m.on);
    if Matches(source, m.on, k) {
      UpdateIdempotent(m, target[i], FirstWithKey(source, m.on, k));
    }
  }

  /** An inserted row is left as it is by the update from its own source row. */
  lemma InsertedRowAgain(m: MergeStmt, target: seq<Row>, source: seq<Row>, j: nat)
    requires WellShaped(m) && DistinctKeys(source, m.on)
    requires j < |NotMatchedInserts(m, target, source)|
    ensures var t := NotMatchedInserts(m, target, source)[j];
      var k := Get(t, m.on);
      (if Matches(source, m.on, k) then UpdateRow(t, FirstWithKey(source, m.on, k), m.setColumns) else t) == t
  {
    InsertsCome(m, target, source, j);
    var i :| 0 <= i < |source| && !Matches(target, m.on, Get(source[i], m.on))
      && NotMatchedInserts(m, target, source)[j] == InsertRow(source[i], m.insertColumns);
    FirstWithOwnKey(source, m.on, i);
    UpdateOfInserted(m, source[i]);
  }

  /** After a MERGE every source id has a row in the merged rows. */
  lemma MergedMatchesAll(m: MergeStmt, target: seq<Row>, source: seq<Row>)
    requires WellShaped(m) && DistinctKeys(source, m.on)
    ensures var r := MatchedTarget(m, target, source) + NotMatchedInserts(m, target, source);
      forall j :: 0 <= j < |source| ==> Matches(r, m.on, Get(source[j], m.on))
  {
    var mt := MatchedTarget(m, target, source);
    var ins := NotMatchedInserts(m, target, source);
    var r := mt + ins;
    forall j | 0 <= j < |source| ensures Matches(r, m.on, Get(source[j], m.on)) {
      var k := Get(source[j], m.on);
      KeyCountAppend(mt, ins, m.on, k);
      if Matches(target, m.on, k) {
        var t := FirstWithKey(target, m.on, k);
        var i :| 0 <= i < |target| && target[i] == t;
        assert Get(mt[i], m.on) == k;
        KeyCountPositive(mt, m.on, i);
      } else {
        InsertedRowFound(m, target, source, j);
      }
    }
  }

  /** A source row with no target match is among the inserted rows, with its id. */
  lemma {:induction false} InsertedRowFound(m: MergeStmt, target: seq<Row>, source: seq<Row>, j: nat)
    requires WellShaped(m) && j < |source|
    requires !Matches(target, m.on, Get(source[j], m.on))
    ensures KeyCount(NotMatchedInserts(m, target, source), m.on, Get(source[j], m.on)) > 0
  {
    var k := Get(source[j], m.on);
    var rest := NotMatchedInserts(m, target, source[1..]);
    if j == 0 {
      var row := InsertRow(source[0], m.insertColumns);
      assert Get(row, m.on) == k;
      assert NotMatchedInserts(m, target, source) == [row] + rest;
    } else {
      InsertedRowFound(m, target, source[1..], j - 1);
      var head := if Matches(target, m.on, Get(source[0], m.on)) then [] else [InsertRow(source[0], m.insertColumns)];
      assert NotMatchedInserts(m, target, source) == head + rest;
      KeyCountAppend(head, rest, m.on, k);
    }
  }

  // ---------------------------------------------------------------------------
  // The remote tables
  // ---------------------------------------------------------------------------

  /** A request the loaders issue to the warehouse client. */
  datatype Call =
    | GetTableCall(tableId: string)
    | CreateTableCall(tableId: string)
    | LoadTableCall(tableId: string)
    | QueryCall(sql: string)
    | DeleteTableCall(tableId: string)

  /** The dataset's tables; `calls` records every request issued, in order. */
  class Client {
    var tables: map<string, Table>
    ghost var calls: seq<Call>

    constructor (initial: map<string, Table>)
      ensures tables == initial && calls == []
    {
      tables := initial;
      calls := [];
    }

    /** `create_table_if_not_exists`: look the table up; create it empty only when absent. */
    method CreateTableIfNotExists(tableId: string, schema: seq<SchemaField>)
      modifies this
      ensures tableId in old(tables) ==> tables == old(tables)
      ensures tableId !in old(tables) ==> tables == old(tables)[tableId := Table(schema, [])]
      ensures calls == old(calls) + [GetTableCall(tableId)]
        + (if tableId in old(tables) then [] else [CreateTableCall(tableId)])
    {
      calls := calls + [GetTableCall(tableId)];
      if tableId !in tables {
        tables := tables[tableId := Table(schema, [])];
        calls := calls + [CreateTableCall(tableId)];
      }
    }

    /** A WRITE_TRUNCATE load job: the table becomes exactly these rows, or the job raises. */
    method LoadTruncate(tableId: string, schema: seq<SchemaField>, rows: seq<Row>, jobFails: bool)
      returns (ok: bool)
      modifies this
      ensures ok == !jobFails
      ensures tables == if ok then old(tables)[tableId := Table(schema, rows)] else old(tables)
      ensures calls == old(calls) + [LoadTableCall(tableId)]
    {
      calls := calls + [LoadTableCall(tableId)];
      ok := !jobFails;
      if ok {
        tables := tables[tableId := Table(schema, rows)];
      }
    }

    /** Runs a MERGE job; the target's rows change only when the job succeeds. */
    method Merge(m: MergeStmt, layout: Layout, jobFails: bool) returns (r: Result<(), MergeFailure>)
      modifies this
      ensures calls == old(calls) + [QueryCall(MergeSql(m, layout))]
      ensures m.target !in old(tables) || m.source !in old(tables) ==> r == Err(TableNotFound)
      ensures m.target in old(tables) && m.source in old(tables) ==>
        var outcome := Execute(m, old(tables)[m.target], old(tables)[m.source]);
        r == if jobFails then Err(ServiceError) else if outcome.Ok? then Ok(()) else Err(outcome.error)
      ensures r.Ok? ==> tables == old(tables)[m.target := old(tables)[m.target].(
        rows := Execute(m, old(tables)[m.target], old(tables)[m.source]).value)]
      ensures r.Err? ==> tables == old(tables)
    {
      calls := calls + [QueryCall(MergeSql(m, layout))];
      if m.target !in tables || m.source !in tables {
        return Err(TableNotFound);
      }
      var outcome := Execute(m, tables[m.target], tables[m.source]);
      if jobFails {
        return Err(ServiceError);
      }
      if outcome.Err? {
        return Err(outcome.error);
      }
      tables := tables[m.target := tables[m.target].(rows := outcome.value)];
      r := Ok(());
    }

    /** `delete_table(..., not_found_ok=True)`. */
    method DeleteTable(tableId: string)
      modifies this
      ensures tables == old(tables) - {tableId}
      ensures calls == old(calls) + [DeleteTableCall(tableId)]
    {
      calls := calls + [DeleteTableCall(tableId)];
      tables := tables - {tableId};
    }
  }
}
