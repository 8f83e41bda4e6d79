/**
 * The historical backfill of cashless facts: split 2024-01-01 … now into
 * seven-day windows, and for each window whose CSV file does not exist yet
 * fetch its pages (three attempts per page) and save the records, pausing a
 * second after each window. Files are a map from path to the records the
 * file holds.
 */
module HistoricalCashless {
  import opened Wrappers
  import opened Frames
  import opened Clock
  import opened Pagination

  const OUTPUT_DIR := "data/historical_cashless"
  const STEP_DAYS: nat := 7

  /** `extract_range`: the page loop over one window, with retries and one-second pauses. */
  method ExtractRange(api: Api, startDate: Instant, endDate: Instant)
    returns (r: Result<seq<Value>, FetchError>, ghost events: seq<Event>)
    ensures Fetched(r, events) == Paginate(api, ApiTimestamp(startDate), ApiTimestamp(endDate), 1, RetryThrice, true)
    ensures r == Paginate(api, ApiTimestamp(startDate), ApiTimestamp(endDate), 1, RetryThrice, true).result
  {
    r, events := CollectPages(api, ApiTimestamp(startDate), ApiTimestamp(endDate), RetryThrice, true);
  }

  /** The CSV file a window is saved to, named after the UTC dates of its ends. */
  function CsvName(startDate: Instant, endDate: Instant): string {
    OUTPUT_DIR + "/cashless_" + DateString(startDate) + "_to_" + DateString(endDate) + ".csv"
  }

  /** `save_data_as_csv`: nothing is written for an empty window. */
  function Saved(files: Files, data: seq<Value>, startDate: Instant, endDate: Instant): (r: Files)
    ensures data == [] ==> r == files
    ensures data != [] ==> CsvName(startDate, endDate) in r && r[CsvName(startDate, endDate)] == data
    ensures forall n :: n != CsvName(startDate, endDate) ==> (n in r <==> n in files) && (n in r ==> r[n] == files[n])
  {
    if data == [] then files else files[CsvName(startDate, endDate) := data]
  }

  // ---------------------------------------------------------------------------
  // The windows
  // ---------------------------------------------------------------------------

  /** The windows `generate_date_ranges` yields: [current, min(current + step, end)) while current < end. */
  function DateRanges(start: Instant, end: Instant, step: int): seq<(Instant, Instant)>
    requires step > 0
    decreases end - start
  {
    if start >= end then [] else [(start, if start + step < end then start + step else end)] + DateRanges(start + step, end, step)
  }

  /**
   * The windows tile [start, end) exactly: none when start >= end; otherwise
   * the first starts at `start`, each one starts where the previous ended, the
   * k-th starts at start + k·step, none is empty or longer than `step`, and the
   * last ends at `end`.
   */
  lemma {:induction false} DateRangesTile(start: Instant, end: Instant, step: int)
    requires step > 0
    ensures var r := DateRanges(start, end, step);
      && (start >= end <==> r == [])
      && (r != [] ==> r[0].0 == start && r[|r| - 1].1 == end)
      && (forall i :: 0 <= i < |r| - 1 ==> r[i].1 == r[i + 1].0)
      && (forall i :: 0 <= i < |r| ==> r[i].0 == start + i * step && r[i].0 < r[i].1 <= r[i].0 + step)
    decreases end - start
  {
    if start < end {
      var r := DateRanges(start, end, step);
      var rest := DateRanges(start + step, end, step);
      DateRangesTile(start + step, end, step);
      assert r == [r[0]] + rest;
      forall i | 0 <= i < |r|
        ensures r[i].0 == start + i * step && r[i].0 < r[i].1 <= r[i].0 + step
      {
        if i > 0 {
          assert r[i] == rest[i - 1];
          assert rest[i - 1].0 == start + step + (i - 1) * step;
        }
      }
      forall i | 0 <= i < |r| - 1
        ensures r[i].1 == r[i + 1].0
      {
        assert r[i + 1] == rest[i];
        if i > 0 {
          assert r[i] == rest[i - 1];
        }
      }
    }
  }

  /** `generate_date_ranges`, drained into a sequence. */
  method GenerateDateRanges(start: Instant, end: Instant, step: int) returns (windows: seq<(Instant, Instant)>)
    requires step > 0
    ensures windows == DateRanges(start, end, step)
  {
    var current := start;
    windows := [];
    while current < end
      invariant DateRanges(start, end, step) == windows + DateRanges(current, end, step)
      decreases end - current
    {
      var next := if current + step < end then current + step else end;
      assert DateRanges(current, end, step) == [(current, next)] + DateRanges(current + step, end, step);
      assert windows + ([(current, next)] + DateRanges(current + step, end, step))
        == (windows + [(current, next)]) + DateRanges(current + step, end, step);
      windows := windows + [(current, next)];
      current := current + step;
    }
    assert windows + [] == windows;
  }

  // ---------------------------------------------------------------------------
  // The main loop
  // ---------------------------------------------------------------------------

  /** The files, events and outcome of (part of) a backfill run. */
  datatype Backfilled = Backfilled(files: Files, events: seq<Event>, result: Result<(), FetchError>)

  /**
   * One window: skipped without a request when its file exists; otherwise
   * fetched (a failure ends the run) and saved, then a one-second pause.
   */
  function WindowStep(api: Api, w: (Instant, Instant), files: Files): Backfilled {
    if CsvName(w.0, w.1) in files then Backfilled(files, [], Ok(()))
    else
      var f := Paginate(api, ApiTimestamp(w.0), ApiTimestamp(w.1), 1, RetryThrice, true);
      if f.result.Err? then Backfilled(files, f.events, Err(f.result.error))
      else Backfilled(Saved(files, f.result.value, w.0, w.1), f.events + [Sleep(1)], Ok(()))
  }

  /** The windows in order, stopping at the first failure. */
  function RunWindows(api: Api, windows: seq<(Instant, Instant)>, files: Files): Backfilled
    decreases |windows|
  {
    if windows == [] then Backfilled(files, [], Ok(()))
    else Extend(api, RunWindows(api, windows[..|windows| - 1], files), windows[|windows| - 1])
  }

  /** A run continued with window `w`, unless it has already failed. */
  function Extend(api: Api, before: Backfilled, w: (Instant, Instant)): Backfilled {
    if before.result.Err? then before
    else
      var step := WindowStep(api, w, before.files);
      Backfilled(step.files, before.events + step.events, step.result)
  }

  /** A run that failed after the first k windows ends there: later windows are not visited. */
  lemma {:induction false} FailureEndsRun(api: Api, windows: seq<(Instant, Instant)>, files: Files, k: nat)
    requires k <= |windows|
    requires RunWindows(api, windows[..k], files).result.Err?
    ensures RunWindows(api, windows, files) == RunWindows(api, windows[..k], files)
    decreases |windows| - k
  {
    if k < |windows| {
      assert windows[..|windows| - 1][..k] == windows[..k];
      FailureEndsRun(api, windows[..|windows| - 1], files, k);
    } else {
      assert windows[..k] == windows;
    }
  }

  /** One iteration of the `__main__` loop. */
  method BackfillWindow(api: Api, w: (Instant, Instant), files: Files)
    returns (r: Result<(), FetchError>, saved: Files, ghost events: seq<Event>)
    ensures WindowStep(api, w, files) == Backfilled(saved, events, r)
    ensures r == WindowStep(api, w, files).result && saved == WindowStep(api, w, files).files
  {
    var (startDate, endDate) := w;
    if CsvName(startDate, endDate) in files {
      return Ok(()), files, [];
    }
    var data, ev := ExtractRange(api, startDate, endDate);
    if data.Err? {
      return Err(data.error), files, ev;
    }
    saved := Saved(files, data.value, startDate, endDate);
    events := ev + [Sleep(1)];
    r := Ok(());
  }

  /** One more window: the run over the first k+1 windows extends the run over the first k. */
  lemma RunOneMore(api: Api, windows: seq<(Instant, Instant)>, files: Files, k: nat)
    requires k < |windows|
    ensures RunWindows(api, windows[..k + 1], files) == Extend(api, RunWindows(api, windows[..k], files), windows[k])
  {
    assert windows[..k + 1][..k] == windows[..k];
    assert windows[..k + 1][k] == windows[k];
  }

  /** The loop below advances by one window when the window succeeds. */
  lemma LoopAdvances(api: Api, windows: seq<(Instant, Instant)>, files: Files, k: nat,
                     saved: Files, events: seq<Event>, next: Files, ev: seq<Event>)
    requires k < |windows|
    requires RunWindows(api, windows[..k], files) == Backfilled(saved, events, Ok(()))
    requires WindowStep(api, windows[k], saved) == Backfilled(next, ev, Ok(()))
    ensures RunWindows(api, windows[..k + 1], files) == Backfilled(next, events + ev, Ok(()))
  {
    RunOneMore(api, windows, files, k);
  }

  /** The loop below ends the run when a window fails. */
  lemma LoopFails(api: Api, windows: seq<(Instant, Instant)>, files: Files, k: nat,
                  saved: Files, events: seq<Event>, next: Files, err: FetchError, ev: seq<Event>)
    requires k < |windows|
    requires RunWindows(api, windows[..k], files) == Backfilled(saved, events, Ok(()))
    requires WindowStep(api, windows[k], saved) == Backfilled(next, ev, Err(err))
    ensures RunWindows(api, windows, files) == Backfilled(next, events + ev, Err(err))
  {
    RunOneMore(api, windows, files, k);
    FailureEndsRun(api, windows, files, k + 1);
  }

  /**
   * The body of the `__main__` loop at window k: on failure the whole run ends
   * with what the loop has so far; on success the run over k+1 windows is reached.
   */
  method BackfillNext(api: Api, windows: seq<(Instant, Instant)>, files: Files, k: nat,
                      saved: Files, ghost events: seq<Event>)
    returns (r: Result<(), FetchError>, next: Files, ghost nextEvents: seq<Event>)
    requires k < |windows|
    requires RunWindows(api, windows[..k], files) == Backfilled(saved, events, Ok(()))
    ensures r.Err? ==> RunWindows(api, windows, files) == Backfilled(next, nextEvents, r)
    ensures r.Ok? ==> r == Ok(()) && RunWindows(api, windows[..k + 1], files) == Backfilled(next, nextEvents, Ok(()))
    ensures r.Err? ==> r == RunWindows(api, windows, files).result && next == RunWindows(api, windows, files).files
    ensures r.Ok? ==> next == RunWindows(api, windows[..k + 1], files).files
  {
    ghost var ev;
    r, next, ev := BackfillWindow(api, windows[k], saved);
    nextEvents := events + ev;
    if r.Err? {
      LoopFails(api, windows, files, k, saved, events, next, r.error, ev);
    } else {
      LoopAdvances(api, windows, files, k, saved, events, next, ev);
    }
  }

  /** The loop of the `__main__` block over the windows. */
  method BackfillWindows(api: Api, windows: seq<(Instant, Instant)>, files: Files)
    returns (r: Result<(), FetchError>, saved: Files, ghost events: seq<Event>)
    ensures RunWindows(api, windows, files) == Backfilled(saved, events, r)
    ensures r == RunWindows(api, windows, files).result && saved == RunWindows(api, windows, files).files
  {
    saved := files;
    events := [];
    for k := 0 to |windows|
      invariant RunWindows(api, windows[..k], files) == Backfilled(saved, events, Ok(()))
    {
      var step, next, nextEvents := BackfillNext(api, windows, files, k, saved, events);
      if step.Err? {
        return step, next, nextEvents;
      }
      saved, events := next, nextEvents;
    }
    assert windows[..|windows|] == windows;
    r := Ok(());
  }

  /** The `__main__` block: back-fill every window from 2024-01-01 up to `now`. */
  method Backfill(api: Api, now: Instant, files: Files)
    returns (r: Result<(), FetchError>, saved: Files, ghost events: seq<Event>)
    ensures RunWindows(api, DateRanges(BACKFILL_START, now, STEP_DAYS * DAY), files) == Backfilled(saved, events, r)
    ensures var run := RunWindows(api, DateRanges(BACKFILL_START, now, STEP_DAYS * DAY), files);
      r == run.result && saved == run.files
  {
    var windows := GenerateDateRanges(BACKFILL_START, now, STEP_DAYS * DAY);
    r, saved, events := BackfillWindows(api, windows, files);
  }

  // ---------------------------------------------------------------------------
  // What a run promises
  // ---------------------------------------------------------------------------

  /** A file that exists before a run is neither removed nor rewritten by it. */
  lemma {:induction false} ExistingFilesKept(api: Api, windows: seq<(Instant, Instant)>, files: Files, n: string)
    requires n in files
    ensures n in RunWindows(api, windows, files).files && RunWindows(api, windows, files).files[n] == files[n]
    decreases |windows|
  {
    if windows != [] {
      ExistingFilesKept(api, windows[..|windows| - 1], files, n);
      StepKeepsFile(api, RunWindows(api, windows[..|windows| - 1], files), windows[|windows| - 1], n);
    }
  }

  /** The window has its file, or its fetch returns no records. */
  predicate SavedOrEmpty(api: Api, w: (Instant, Instant), files: Files) {
    CsvName(w.0, w.1) in files
    || Paginate(api, ApiTimestamp(w.0), ApiTimestamp(w.1), 1, RetryThrice, true).result == Ok([])
  }

  /** A window that went through leaves its file behind, unless it was empty. */
  lemma StepSavedOrEmpty(api: Api, before: Backfilled, w: (Instant, Instant))
    requires before.result.Ok? && Extend(api, before, w).result.Ok?
    ensures SavedOrEmpty(api, w, Extend(api, before, w).files)
  {
  }

  /** No step removes or rewrites a file. */
  lemma StepKeepsFile(api: Api, before: Backfilled, w: (Instant, Instant), n: string)
    requires n in before.files
    ensures n in Extend(api, before, w).files && Extend(api, before, w).files[n] == before.files[n]
  {
  }

  /** After a run that succeeded, every window either has its file or came back empty. */
  lemma {:induction false} EveryWindowSavedOrEmpty(api: Api, windows: seq<(Instant, Instant)>, files: Files)
    requires RunWindows(api, windows, files).result.Ok?
    ensures var run := RunWindows(api, windows, files);
      forall i :: 0 <= i < |windows| ==> SavedOrEmpty(api, windows[i], run.files)
    decreases |windows|
  {
    if windows != [] {
      var prefix := windows[..|windows| - 1];
      var w := windows[|windows| - 1];
      var before := RunWindows(api, prefix, files);
      var run := RunWindows(api, windows, files);
      assert run == Extend(api, before, w);
      assert before.result.Ok?;
      EveryWindowSavedOrEmpty(api, prefix, files);
      StepSavedOrEmpty(api, before, w);
      forall i | 0 <= i < |windows| - 1
        ensures SavedOrEmpty(api, windows[i], run.files)
      {
        assert windows[i] == prefix[i];
        if CsvName(windows[i].0, windows[i].1) in before.files {
          StepKeepsFile(api, before, w, CsvName(windows[i].0, windows[i].1));
        }
      }
    }
  }

  /**
   * A run over windows each of which has its file or is empty saves nothing
   * and succeeds.
   */
  lemma {:induction false} NothingLeftToSave(api: Api, windows: seq<(Instant, Instant)>, files: Files)
    requires forall i :: 0 <= i < |windows| ==> SavedOrEmpty(api, windows[i], files)
    ensures RunWindows(api, windows, files).result.Ok? && RunWindows(api, windows, files).files == files
    decreases |windows|
  {
    if windows != [] {
      var prefix := windows[..|windows| - 1];
      forall i | 0 <= i < |prefix|
        ensures SavedOrEmpty(api, prefix[i], files)
      {
        assert prefix[i] == windows[i];
      }
      NothingLeftToSave(api, prefix, files);
    }
  }

  /** The first request a window's fetch makes: page 1, attempt 0. */
  function FirstGet(w: (Instant, Instant)): Event
  {
    Get(Request(ApiTimestamp(w.0), ApiTimestamp(w.1), 1, PER_PAGE), 0)
  }

  /** What every element but the last put in `before`, and the last put in `after`, is all in `after`. */
  lemma CarriedToLast<W>(ws: seq<W>, need: W -> bool, get: W -> Event, before: seq<Event>, after: seq<Event>)
    requires ws != []
    requires forall i :: 0 <= i < |ws| - 1 && need(ws[i]) ==> get(ws[i]) in before
    requires forall e :: e in before ==> e in after
    requires need(ws[|ws| - 1]) ==> get(ws[|ws| - 1]) in after
    ensures forall i :: 0 <= i < |ws| && need(ws[i]) ==> get(ws[i]) in after
  {
    forall i | 0 <= i < |ws| && need(ws[i])
      ensures get(ws[i]) in after
    {
      if i < |ws| - 1 {
        assert get(ws[i]) in before;
      }
    }
  }

  /**
   * A window without its file whose fetch comes back empty is fetched again
   * on every run: the step requests page 1 of it, succeeds and still writes
   * no file.
   */
  lemma EmptyWindowFetchedAgain(api: Api, w: (Instant, Instant), files: Files)
    requires CsvName(w.0, w.1) !in files
    requires Paginate(api, ApiTimestamp(w.0), ApiTimestamp(w.1), 1, RetryThrice, true).result == Ok([])
    ensures var step := WindowStep(api, w, files);
      && step.result == Ok(()) && step.files == files && CsvName(w.0, w.1) !in step.files
      && |step.events| >= 1 && step.events[0] == FirstGet(w)
  {
    FirstEventIsFirstRequest(api, ApiTimestamp(w.0), ApiTimestamp(w.1), 1, RetryThrice, true);
  }

  /** After a prefix that ran to success, an empty last window without its file adds its page-1 request to the trace. */
  lemma LastWindowRequested(api: Api, windows: seq<(Instant, Instant)>, files: Files)
    requires windows != []
    requires var prefix := windows[..|windows| - 1];
      RunWindows(api, prefix, files).result.Ok? && RunWindows(api, prefix, files).files == files
    requires SavedOrEmpty(api, windows[|windows| - 1], files)
    ensures var before := RunWindows(api, windows[..|windows| - 1], files).events;
      var after := RunWindows(api, windows, files).events;
      && (forall e :: e in before ==> e in after)
      && (CsvName(windows[|windows| - 1].0, windows[|windows| - 1].1) !in files ==>
            FirstGet(windows[|windows| - 1]) in after)
  {
    var w := windows[|windows| - 1];
    var before := RunWindows(api, windows[..|windows| - 1], files);
    var step := WindowStep(api, w, files);
    var run := RunWindows(api, windows, files);
    assert run.events == before.events + step.events;
    if CsvName(w.0, w.1) !in files {
      EmptyWindowFetchedAgain(api, w, files);
      assert run.events[|before.events|] == FirstGet(w);
    }
  }

  /**
   * In a run over windows that each have their file or come back empty, every
   * window without a file is requested again from page 1.
   */
  lemma {:induction false} EmptyWindowsFetchedAgain(api: Api, windows: seq<(Instant, Instant)>, files: Files)
    requires forall i :: 0 <= i < |windows| ==> SavedOrEmpty(api, windows[i], files)
    ensures forall i :: 0 <= i < |windows| && CsvName(windows[i].0, windows[i].1) !in files ==>
      FirstGet(windows[i]) in RunWindows(api, windows, files).events
    decreases |windows|
  {
    if windows != [] {
      var prefix := windows[..|windows| - 1];
      forall i | 0 <= i < |prefix|
        ensures SavedOrEmpty(api, prefix[i], files)
      {
        assert prefix[i] == windows[i];
      }
      EmptyWindowsFetchedAgain(api, prefix, files);
      NothingLeftToSave(api, prefix, files);
      var before := RunWindows(api, prefix, files);
      var run := RunWindows(api, windows, files);
      LastWindowRequested(api, windows, files);
      forall i | 0 <= i < |windows| - 1 && CsvName(windows[i].0, windows[i].1) !in files
        ensures FirstGet(windows[i]) in before.events
      {
        assert windows[i] == prefix[i];
      }
      CarriedToLast(windows, (w: (Instant, Instant)) => CsvName(w.0, w.1) !in files, FirstGet, before.events, run.events);
    }
  }

  /**
   * A run over windows that all have their files issues no request and no
   * pause, changes no file and succeeds.
   */
  lemma {:induction false} AllSavedFetchesNothing(api: Api, windows: seq<(Instant, Instant)>, files: Files)
    requires forall i :: 0 <= i < |windows| ==> CsvName(windows[i].0, windows[i].1) in files
    ensures RunWindows(api, windows, files) == Backfilled(files, [], Ok(()))
    decreases |windows|
  {
    if windows != [] {
      var prefix := windows[..|windows| - 1];
      forall i | 0 <= i < |prefix|
        ensures CsvName(prefix[i].0, prefix[i].1) in files
      {
        assert prefix[i] == windows[i];
      }
      AllSavedFetchesNothing(api, prefix, files);
      assert WindowStep(api, windows[|windows| - 1], files) == Backfilled(files, [], Ok(()));
      var none: seq<Event> := [];
      assert none + none == none;
    }
  }

  /**
   * The backfill resumes: run again against the same API after a run that
   * succeeded, it succeeds and leaves the files as they were.
   * EmptyWindowsFetchedAgain shows that its windows without a file are
   * requested again.
   */
  lemma RerunSavesNothingNew(api: Api, windows: seq<(Instant, Instant)>, files: Files)
    requires RunWindows(api, windows, files).result.Ok?
    ensures var first := RunWindows(api, windows, files);
      var second := RunWindows(api, windows, first.files);
      second.result.Ok? && second.files == first.files
  {
    EveryWindowSavedOrEmpty(api, windows, files);
    NothingLeftToSave(api, windows, RunWindows(api, windows, files).files);
  }

  /** A window whose file exists issues no request and no pause. */
  lemma ExistingWindowSkipped(api: Api, windows: seq<(Instant, Instant)>, files: Files)
    requires windows != [] && CsvName(windows[|windows| - 1].0, windows[|windows| - 1].1) in files
    requires RunWindows(api, windows[..|windows| - 1], files).result.Ok?
    ensures var before := RunWindows(api, windows[..|windows| - 1], files);
      RunWindows(api, windows, files) == before
  {
    var before := RunWindows(api, windows[..|windows| - 1], files);
    var w := windows[|windows| - 1];
    ExistingFilesKept(api, windows[..|windows| - 1], files, CsvName(w.0, w.1));
    OkUnit(before.result);
    assert before.events + [] == before.events;
  }
}
