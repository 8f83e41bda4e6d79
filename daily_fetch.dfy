/**
 * The daily Cloud Function: fetch one day of cashless facts (page by page,
 * no retries), upsert them into the `cashless` table keyed by
 * `transaction_id`, then refresh the five auxiliary tables one by one, each
 * failure of which is caught. A failure before the auxiliary tables ends the
 * run with an error.
 */
module DailyFetch {
  import opened Wrappers
  import opened Frames
  import opened Columns
  import opened Clock
  import opened Pagination
  import opened Warehouse
  import opened Upsert
  import opened CloudLoadBigQuery

  /** Why `main` raises. */
  datatype DailyError = BadDate(arg: string) | FetchFailed(fetchError: FetchError) | UploadFailed(uploadError: UploadError)

  /** What became of one auxiliary table. */
  datatype AuxOutcome = AuxUpdated(rows: nat) | AuxFailed

  /**
   * The outside world of one run: the cashless-facts API, the auxiliary
   * endpoints (None when the request raises), `pd.json_normalize`,
   * `datetime.fromisoformat(...).replace(tzinfo=utc)` (None when it raises;
   * otherwise the wall-clock time read as UTC), pandas' parsers and which
   * warehouse jobs fail, per table.
   */
  datatype Env = Env(api: Api, aux: string -> Option<seq<Value>>, normalize: seq<Value> -> Frame,
                     parseIso: string -> Option<Instant>, parsers: Parsers, faults: string -> Faults)

  const AUX_TABLES: seq<string> := ["categories", "clients", "locations", "manufacturers", "products"]

  /** The tables, calls and outcome of (part of) a run. */
  datatype Daily = Daily(tables: map<string, Table>, calls: seq<Call>, result: Result<seq<AuxOutcome>, DailyError>)

  /**
   * The day to fetch: from the parsed argument when one is given and
   * non-empty, otherwise from now minus a day; it always lasts one day.
   */
  function DayWindow(dateArg: Option<string>, parseIso: string -> Option<Instant>, now: Instant)
    : (r: Result<(Instant, Instant), DailyError>)
    ensures r.Ok? ==> r.value.1 - r.value.0 == DAY
    ensures (dateArg.None? || dateArg.value == "") ==> r == Ok((now - DAY, now))
    ensures dateArg.Some? && dateArg.value != "" ==>
      match parseIso(dateArg.value)
      case None => r == Err(BadDate(dateArg.value))
      case Some(t) => r == Ok((t, t + DAY))
  {
    if dateArg.Some? && dateArg.value != "" then
      match parseIso(dateArg.value)
      case None => Err(BadDate(dateArg.value))
      case Some(start) => Ok((start, start + DAY))
    else Ok((now - DAY, now))
  }

  /** `fetch_cashless_data`: the page loop over the day, one attempt per page, one-second pauses. */
  method FetchCashlessData(api: Api, startDate: Instant, endDate: Instant)
    returns (r: Result<seq<Value>, FetchError>, ghost events: seq<Event>)
    ensures Fetched(r, events) == Paginate(api, ApiTimestamp(startDate), ApiTimestamp(endDate), 1, Once, true)
    ensures r == Paginate(api, ApiTimestamp(startDate), ApiTimestamp(endDate), 1, Once, true).result
  {
    r, events := CollectPages(api, ApiTimestamp(startDate), ApiTimestamp(endDate), Once, true);
  }

  // ---------------------------------------------------------------------------
  // Auxiliary tables
  // ---------------------------------------------------------------------------

  /** `update_aux_table`: fetch, normalise and upsert on `id`; any failure is caught. */
  function AuxStep(tables: map<string, Table>, dataset: string, name: string, env: Env)
    : (map<string, Table>, seq<Call>, AuxOutcome)
  {
    match env.aux(name)
    case None => (tables, [], AuxFailed)
    case Some(data) =>
      var df := env.normalize(data);
      var e := UploadEffectCf(tables, dataset, df, name, "id", env.parsers, env.faults(name));
      (e.tables, e.calls, if e.result.Ok? then AuxUpdated(NRows(df)) else AuxFailed)
  }

  /** The auxiliary tables in order, each from the tables the previous one left. */
  function AuxRun(tables: map<string, Table>, dataset: string, names: seq<string>, env: Env)
    : (r: (map<string, Table>, seq<Call>, seq<AuxOutcome>))
    ensures |r.2| == |names|
  {
    if names == [] then (tables, [], [])
    else
      var before := AuxRun(tables, dataset, names[..|names| - 1], env);
      var step := AuxStep(before.0, dataset, names[|names| - 1], env);
      (step.0, before.1 + step.1, before.2 + [step.2])
  }

  method UpdateAuxTable(wh: Client, dataset: string, name: string, env: Env) returns (outcome: AuxOutcome)
    modifies wh
    ensures var step := AuxStep(old(wh.tables), dataset, name, env);
      wh.tables == step.0 && wh.calls == old(wh.calls) + step.1 && outcome == step.2
  {
    var data := env.aux(name);
    if data.None? {
      return AuxFailed;
    }
    var df := env.normalize(data.value);
    var r := UploadDataFrameToBigQuery(wh, dataset, df, name, "id", env.parsers, env.faults(name));
    outcome := if r.Ok? then AuxUpdated(NRows(df)) else AuxFailed;
  }

  /** The `for table in [...]` loop of `main`. */
  method UpdateAuxTables(wh: Client, dataset: string, names: seq<string>, env: Env)
    returns (outcomes: seq<AuxOutcome>)
    modifies wh
    ensures var run := AuxRun(old(wh.tables), dataset, names, env);
      wh.tables == run.0 && wh.calls == old(wh.calls) + run.1 && outcomes == run.2
  {
    outcomes := [];
    ghost var start := wh.tables;
    ghost var startCalls := wh.calls;
    for k := 0 to |names|
      invariant var run := AuxRun(start, dataset, names[..k], env);
        wh.tables == run.0 && wh.calls == startCalls + run.1 && outcomes == run.2
    {
      ghost var before := AuxRun(start, dataset, names[..k], env);
      var outcome := UpdateAuxTable(wh, dataset, names[k], env);
      ghost var step := AuxStep(before.0, dataset, names[k], env);
      outcomes := outcomes + [outcome];
      assert names[..k + 1][..k] == names[..k];
      AppendAssociates(startCalls, before.1, step.1);
    }
    assert names[..|names|] == names;
  }

  /**
   * Every auxiliary table is tried whatever became of the earlier ones: the
   * k-th outcome is that table's own step from the tables the earlier steps
   * left, and it fails exactly when its fetch raised or its upsert failed.
   */
  lemma {:induction false} EveryAuxTableTried(tables: map<string, Table>, dataset: string, names: seq<string>,
                                              env: Env, k: nat)
    requires k < |names|
    ensures var run := AuxRun(tables, dataset, names, env);
      var before := AuxRun(tables, dataset, names[..k], env);
      && run.2[k] == AuxStep(before.0, dataset, names[k], env).2
      && (run.2[k] == AuxFailed <==>
            env.aux(names[k]).None?
            || UploadEffectCf(before.0, dataset, env.normalize(env.aux(names[k]).value), names[k], "id",
                              env.parsers, env.faults(names[k])).result.Err?)
  {
    if k < |names| - 1 {
      EveryAuxTableTried(tables, dataset, names[..|names| - 1], env, k);
      assert names[..|names| - 1][..k] == names[..k];
    }
  }

  // ---------------------------------------------------------------------------
  // main
  // ---------------------------------------------------------------------------

  /** The cashless part of `main`: an empty day uploads nothing; records are keyed by `transaction_id`. */
  function CashlessUpload(tables: map<string, Table>, dataset: string, data: seq<Value>, env: Env): Upserted {
    if data == [] then Upserted(tables, [], Ok(()))
    else
      UploadEffectCf(tables, dataset, Renamed(env.normalize(data), "id", "transaction_id"), "cashless",
                     "transaction_id", env.parsers, env.faults("cashless"))
  }

  /** What follows a successful fetch: the cashless upsert, then (if it succeeded) the auxiliary tables. */
  function AfterFetch(tables: map<string, Table>, dataset: string, data: seq<Value>, env: Env): Daily {
    var up := CashlessUpload(tables, dataset, data, env);
    if up.result.Err? then Daily(up.tables, up.calls, Err(UploadFailed(up.result.error)))
    else
      var aux := AuxRun(up.tables, dataset, AUX_TABLES, env);
      Daily(aux.0, up.calls + aux.1, Ok(aux.2))
  }

  /** The whole effect of `main`. */
  function DailyEffect(tables: map<string, Table>, dataset: string, dateArg: Option<string>, now: Instant, env: Env)
    : Daily
  {
    match DayWindow(dateArg, env.parseIso, now)
    case Err(e) => Daily(tables, [], Err(e))
    case Ok(window) =>
      var fetched := Paginate(env.api, ApiTimestamp(window.0), ApiTimestamp(window.1), 1, Once, true);
      if fetched.result.Err? then Daily(tables, [], Err(FetchFailed(fetched.result.error)))
      else AfterFetch(tables, dataset, fetched.result.value, env)
  }

  /** The day's cashless records, fetched and upserted. */
  method LoadCashless(wh: Client, dataset: string, window: (Instant, Instant), env: Env)
    returns (r: Result<(), DailyError>)
    modifies wh
    ensures var fetched := Paginate(env.api, ApiTimestamp(window.0), ApiTimestamp(window.1), 1, Once, true);
      && (fetched.result.Err? ==> r == Err(FetchFailed(fetched.result.error)) && wh.tables == old(wh.tables)
                                  && wh.calls == old(wh.calls))
      && (fetched.result.Ok? ==>
            var up := CashlessUpload(old(wh.tables), dataset, fetched.result.value, env);
            wh.tables == up.tables && wh.calls == old(wh.calls) + up.calls
            && r == if up.result.Ok? then Ok(()) else Err(UploadFailed(up.result.error)))
  {
    var data, events := FetchCashlessData(env.api, window.0, window.1);
    if data.Err? {
      return Err(FetchFailed(data.error));
    }
    if data.value == [] {
      assert wh.calls == wh.calls + [];
      return Ok(());
    }
    var df := Renamed(env.normalize(data.value), "id", "transaction_id");
    var up := UploadDataFrameToBigQuery(wh, dataset, df, "cashless", "transaction_id", env.parsers, env.faults("cashless"));
    if up.Err? {
      return Err(UploadFailed(up.error));
    }
    r := Ok(());
  }

  /** `main`: the day's window, the cashless upsert, then the auxiliary tables; errors propagate. */
  method RunDaily(wh: Client, dataset: string, dateArg: Option<string>, now: Instant, env: Env)
    returns (r: Result<seq<AuxOutcome>, DailyError>)
    modifies wh
    ensures var e := DailyEffect(old(wh.tables), dataset, dateArg, now, env);
      wh.tables == e.tables && wh.calls == old(wh.calls) + e.calls && r == e.result
  {
    var window := DayWindow(dateArg, env.parseIso, now);
    if window.Err? {
      assert wh.calls == wh.calls + [];
      return Err(window.error);
    }
    ghost var startCalls := wh.calls;
    var loaded := LoadCashless(wh, dataset, window.value, env);
    if loaded.Err? {
      return Err(loaded.error);
    }
    ghost var upCalls := wh.calls;
    var outcomes := UpdateAuxTables(wh, dataset, AUX_TABLES, env);
    AppendAssociates(startCalls, upCalls[|startCalls|..], wh.calls[|upCalls|..]);
    r := Ok(outcomes);
  }

  // ---------------------------------------------------------------------------
  // What a run promises
  // ---------------------------------------------------------------------------

  /**
   * A run that raises has touched no table outside the cashless pair (the
   * final and the temporary `cashless` table): the auxiliary tables are only
   * reached after the cashless upsert succeeded.
   */
  lemma FailedRunTouchesOnlyCashless(tables: map<string, Table>, dataset: string, dateArg: Option<string>,
                                     now: Instant, env: Env, other: string)
    requires other != FinalTableId(dataset, "cashless") && other != TempTableId(dataset, "cashless")
    requires DailyEffect(tables, dataset, dateArg, now, env).result.Err?
    ensures var e := DailyEffect(tables, dataset, dateArg, now, env);
      (other in e.tables <==> other in tables) && (other in tables ==> e.tables[other] == tables[other])
  {
    var window := DayWindow(dateArg, env.parseIso, now);
    if window.Ok? {
      var fetched := Paginate(env.api, ApiTimestamp(window.value.0), ApiTimestamp(window.value.1), 1, Once, true);
      if fetched.result.Ok? {
        FailedUpsertTouchesOnlyCashless(tables, dataset, fetched.result.value, env, other);
      }
    }
  }

  lemma FailedUpsertTouchesOnlyCashless(tables: map<string, Table>, dataset: string, data: seq<Value>, env: Env,
                                        other: string)
    requires other != FinalTableId(dataset, "cashless") && other != TempTableId(dataset, "cashless")
    requires AfterFetch(tables, dataset, data, env).result.Err?
    ensures var e := AfterFetch(tables, dataset, data, env);
      (other in e.tables <==> other in tables) && (other in tables ==> e.tables[other] == tables[other])
  {
    var up := CashlessUpload(tables, dataset, data, env);
    assert up.result.Err?;
    assert AfterFetch(tables, dataset, data, env).tables == up.tables;
    UploadTouchesOnlyItsTables(tables, dataset, Renamed(env.normalize(data), "id", "transaction_id"),
                               "cashless", "transaction_id", env.parsers, env.faults("cashless"), other);
  }

  /**
   * The fetched day's records are what is upserted into `cashless`: the whole
   * run succeeds exactly when the window parses, the day is fetched and the
   * upsert of its records (renamed to `transaction_id`) succeeds; whatever the
   * auxiliary tables then do is caught, and a successful run reports one
   * outcome per auxiliary table.
   */
  lemma SuccessfulRunUpsertedTheDay(tables: map<string, Table>, dataset: string, dateArg: Option<string>,
                                    now: Instant, env: Env)
    ensures var e := DailyEffect(tables, dataset, dateArg, now, env);
      var window := DayWindow(dateArg, env.parseIso, now);
      && (e.result.Ok? <==>
            && window.Ok?
            && var fetched := Paginate(env.api, ApiTimestamp(window.value.0), ApiTimestamp(window.value.1), 1, Once, true);
            && fetched.result.Ok?
            && CashlessUpload(tables, dataset, fetched.result.value, env).result.Ok?)
      && (e.result.Ok? ==> |e.result.value| == |AUX_TABLES|)
  {
    var window := DayWindow(dateArg, env.parseIso, now);
    if window.Ok? {
      var fetched := Paginate(env.api, ApiTimestamp(window.value.0), ApiTimestamp(window.value.1), 1, Once, true);
      if fetched.result.Ok? {
        AfterFetchSucceeds(tables, dataset, fetched.result.value, env);
      }
    }
  }

  /** Once the day is fetched, the run succeeds exactly when the cashless upsert does. */
  lemma AfterFetchSucceeds(tables: map<string, Table>, dataset: string, data: seq<Value>, env: Env)
    ensures var e := AfterFetch(tables, dataset, data, env);
      && (e.result.Ok? <==> CashlessUpload(tables, dataset, data, env).result.Ok?)
      && (e.result.Ok? ==> |e.result.value| == |AUX_TABLES|)
  {
    var up := CashlessUpload(tables, dataset, data, env);
    if up.result.Ok? {
      var aux := AuxRun(up.tables, dataset, AUX_TABLES, env);
      assert AfterFetch(tables, dataset, data, env).result == Ok(aux.2);
    }
  }
}
