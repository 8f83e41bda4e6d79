/**
 * The staging protocol both loaders run once a frame is prepared: make sure the
 * final table exists, WRITE_TRUNCATE-load the frame into the temporary table,
 * MERGE the temporary table into the final one on the id column, and drop the
 * temporary table only after the MERGE succeeded.
 */
module Upsert {
  import opened Wrappers
  import opened Frames
  import opened Warehouse

  /** Why an upload stops; each of these is an exception in the loaders. */
  datatype UploadError = MissingIdColumn(id: string) | LoadFailed | MergeFailed(failure: MergeFailure)

  /** The warehouse tables, the calls issued and the outcome of one staged upsert. */
  datatype Upserted = Upserted(tables: map<string, Table>, calls: seq<Call>, result: Result<(), UploadError>)

  /** Which remote jobs raise: the load job, the MERGE job. */
  datatype Faults = Faults(loadFails: bool, mergeFails: bool)

  const NoFaults := Faults(false, false)

  /** The final table's name, `dataset.table`. */
  function FinalTableId(dataset: string, table: string): string {
    dataset + "." + table
  }

  /** The temporary table's name, `dataset.temp_table`. */
  function TempTableId(dataset: string, table: string): string {
    dataset + ".temp_" + table
  }

  /** The two names never coincide, so staging never overwrites the final table. */
  lemma TempIsNotFinal(dataset: string, table: string)
    ensures TempTableId(dataset, table) != FinalTableId(dataset, table)
  {
    assert |TempTableId(dataset, table)| != |FinalTableId(dataset, table)|;
  }

  /** The final table after the create-if-absent step. */
  function Created(tables: map<string, Table>, finalId: string, schema: seq<SchemaField>): map<string, Table> {
    if finalId in tables then tables else tables[finalId := Table(schema, [])]
  }

  /**
   * The MERGE step and what follows it, from the tables holding the staged
   * batch: the drop of the temporary table comes only after a successful MERGE.
   */
  function MergePhase(staged: map<string, Table>, m: MergeStmt, layout: Layout, mergeFails: bool): Upserted
    requires m.target in staged && m.source in staged
  {
    var outcome := Execute(m, staged[m.target], staged[m.source]);
    var calls := [QueryCall(MergeSql(m, layout))];
    if mergeFails then
      Upserted(staged, calls, Err(MergeFailed(ServiceError)))
    else if outcome.Err? then
      Upserted(staged, calls, Err(MergeFailed(outcome.error)))
    else
      Upserted(staged[m.target := staged[m.target].(rows := outcome.value)] - {m.source},
               calls + [DeleteTableCall(m.source)], Ok(()))
  }

  /**
   * The whole effect of the staging protocol for statement `m` (final table
   * `m.target`, temporary table `m.source`) and the batch `rows`, from the
   * tables before it.
   */
  function StageAndMergeEffect(tables: map<string, Table>, m: MergeStmt, schema: seq<SchemaField>,
                               rows: seq<Row>, layout: Layout, faults: Faults): Upserted
  {
    var createCalls := [GetTableCall(m.target)] + (if m.target in tables then [] else [CreateTableCall(m.target)]);
    var loaded := LoadPhase(Created(tables, m.target, schema), m, schema, rows, layout, faults);
    loaded.(calls := createCalls + loaded.calls)
  }

  /** The load into the temporary table and, when it succeeded, the MERGE phase. */
  function LoadPhase(tables: map<string, Table>, m: MergeStmt, schema: seq<SchemaField>,
                     rows: seq<Row>, layout: Layout, faults: Faults): Upserted
    requires m.target in tables
  {
    if faults.loadFails then
      Upserted(tables, [LoadTableCall(m.source)], Err(LoadFailed))
    else
      var merged := MergePhase(tables[m.source := Table(schema, rows)], m, layout, faults.mergeFails);
      merged.(calls := [LoadTableCall(m.source)] + merged.calls)
  }

  /** The MERGE job, then the drop of the temporary table once it succeeded. */
  method MergeAndDrop(wh: Client, m: MergeStmt, layout: Layout, mergeFails: bool)
    returns (r: Result<(), UploadError>)
    requires m.target in wh.tables && m.source in wh.tables
    modifies wh
    ensures var e := MergePhase(old(wh.tables), m, layout, mergeFails);
      wh.tables == e.tables && wh.calls == old(wh.calls) + e.calls && r == e.result
  {
    var merged := wh.Merge(m, layout, mergeFails);
    if merged.Err? {
      return Err(MergeFailed(merged.error));
    }
    wh.DeleteTable(m.source);
    r := Ok(());
  }

  /** The load into the temporary table, then (when it succeeded) the MERGE and the drop. */
  method LoadAndMerge(wh: Client, m: MergeStmt, schema: seq<SchemaField>, rows: seq<Row>,
                      layout: Layout, faults: Faults)
    returns (r: Result<(), UploadError>)
    requires m.target != m.source && m.target in wh.tables
    modifies wh
    ensures var e := LoadPhase(old(wh.tables), m, schema, rows, layout, faults);
      wh.tables == e.tables && wh.calls == old(wh.calls) + e.calls && r == e.result
  {
    ghost var before := wh.calls;
    var loaded := wh.LoadTruncate(m.source, schema, rows, faults.loadFails);
    if !loaded {
      return Err(LoadFailed);
    }
    ghost var loadedCalls := wh.calls;
    r := MergeAndDrop(wh, m, layout, faults.mergeFails);
    AppendAssociates(before, [LoadTableCall(m.source)], wh.calls[|loadedCalls|..]);
  }

  /** Runs the protocol against the client; its new state is exactly StageAndMergeEffect. */
  method StageAndMerge(wh: Client, m: MergeStmt, schema: seq<SchemaField>, rows: seq<Row>,
                       layout: Layout, faults: Faults)
    returns (r: Result<(), UploadError>)
    requires m.target != m.source
    modifies wh
    ensures var e := StageAndMergeEffect(old(wh.tables), m, schema, rows, layout, faults);
      wh.tables == e.tables && wh.calls == old(wh.calls) + e.calls && r == e.result
  {
    ghost var createCalls := [GetTableCall(m.target)] + (if m.target in wh.tables then [] else [CreateTableCall(m.target)]);
    ghost var before := wh.calls;
    wh.CreateTableIfNotExists(m.target, schema);
    assert wh.calls == before + createCalls;
    ghost var created := wh.calls;
    r := LoadAndMerge(wh, m, schema, rows, layout, faults);
    AppendAssociates(before, createCalls, wh.calls[|created|..]);
  }

  /**
   * The temporary table is dropped exactly when the MERGE succeeded: after a
   * failed MERGE it stays behind holding the batch, and the drop request is
   * issued only on success.
   */
  lemma TempDroppedOnlyOnSuccess(tables: map<string, Table>, m: MergeStmt, schema: seq<SchemaField>,
                                 rows: seq<Row>, layout: Layout, faults: Faults)
    requires m.target != m.source
    ensures var e := StageAndMergeEffect(tables, m, schema, rows, layout, faults);
      && (e.result.Ok? <==> DeleteTableCall(m.source) in e.calls)
      && (e.result.Ok? ==> m.source !in e.tables)
      && (e.result.Err? && e.result.error.MergeFailed? ==> m.source in e.tables && e.tables[m.source].rows == rows)
      && (e.result == Err(LoadFailed) ==> (m.source in e.tables <==> m.source in tables))
  {
  }

  /**
   * The create step never alters an existing table's schema, and no later step
   * touches a schema: a final table that existed keeps the schema it had.
   */
  lemma ExistingSchemaKept(tables: map<string, Table>, m: MergeStmt, schema: seq<SchemaField>,
                           rows: seq<Row>, layout: Layout, faults: Faults)
    requires m.target != m.source && m.target in tables
    ensures var e := StageAndMergeEffect(tables, m, schema, rows, layout, faults);
      m.target in e.tables && e.tables[m.target].schema == tables[m.target].schema
  {
  }

  /** No table other than the final and the temporary one is created, dropped or changed. */
  lemma OtherTablesUntouched(tables: map<string, Table>, m: MergeStmt, schema: seq<SchemaField>,
                             rows: seq<Row>, layout: Layout, faults: Faults, other: string)
    requires other != m.target && other != m.source
    ensures var e := StageAndMergeEffect(tables, m, schema, rows, layout, faults);
      (other in e.tables <==> other in tables) && (other in tables ==> e.tables[other] == tables[other])
  {
  }

  /** The tables after a run in which no job fails and the MERGE statement succeeds. */
  lemma CleanRunEffect(tables: map<string, Table>, m: MergeStmt, schema: seq<SchemaField>,
                       rows: seq<Row>, layout: Layout)
    requires m.target != m.source
    requires StageAndMergeEffect(tables, m, schema, rows, layout, NoFaults).result.Ok?
    ensures var created := Created(tables, m.target, schema);
      && Execute(m, created[m.target], Table(schema, rows)).Ok?
      && StageAndMergeEffect(tables, m, schema, rows, layout, NoFaults).tables
         == created[m.target := created[m.target].(rows := Execute(m, created[m.target], Table(schema, rows)).value)] - {m.source}
  {
    var created := Created(tables, m.target, schema);
    var staged := created[m.source := Table(schema, rows)];
    assert staged[m.target] == created[m.target];
    assert staged[m.source] == Table(schema, rows);
  }

  /**
   * A batch naming a column the final table lacks is refused by the MERGE,
   * even when no job fails: create-if-absent keeps an existing table's
   * schema, so a table created before the batch grew a column refuses it.
   */
  lemma SchemaDriftRefused(tables: map<string, Table>, m: MergeStmt, schema: seq<SchemaField>,
                           rows: seq<Row>, layout: Layout, c: string)
    requires m.target != m.source && m.target in tables && m.setColumns != []
    requires c in m.insertColumns && c !in FieldNames(tables[m.target].schema)
    ensures var e := StageAndMergeEffect(tables, m, schema, rows, layout, NoFaults);
      e.result == Err(MergeFailed(UnknownColumn)) && e.tables[m.target] == tables[m.target]
  {
    var staged := tables[m.source := Table(schema, rows)];
    assert staged[m.target] == tables[m.target];
    assert c in NamedColumns(m);
  }

  /**
   * Re-running an upsert that succeeded, with the same batch (ids present and
   * pairwise different) and no job failing, succeeds again and leaves every
   * table exactly as the first run left it.
   */
  lemma RerunChangesNothing(tables: map<string, Table>, m: MergeStmt, schema: seq<SchemaField>,
                            rows: seq<Row>, layout: Layout)
    requires m.target != m.source && WellShaped(m)
    requires DistinctKeys(rows, m.on)
    requires StageAndMergeEffect(tables, m, schema, rows, layout, NoFaults).result.Ok?
    ensures var first := StageAndMergeEffect(tables, m, schema, rows, layout, NoFaults);
      var second := StageAndMergeEffect(first.tables, m, schema, rows, layout, NoFaults);
      second.result.Ok? && second.tables == first.tables
  {
    CleanRunEffect(tables, m, schema, rows, layout);
    var created := Created(tables, m.target, schema);
    var batch := Table(schema, rows);
    var v := Execute(m, created[m.target], batch).value;
    MergeIdempotent(m, created[m.target], batch);
    var first := StageAndMergeEffect(tables, m, schema, rows, layout, NoFaults);
    assert m.target in first.tables && first.tables[m.target] == created[m.target].(rows := v);
    assert Created(first.tables, m.target, schema) == first.tables;
    var staged2 := first.tables[m.source := batch];
    assert staged2[m.target] == first.tables[m.target];
    assert Execute(m, staged2[m.target], staged2[m.source]) == Ok(v);
    var again := staged2[m.target := staged2[m.target].(rows := v)] - {m.source};
    assert again == first.tables;
  }
}
