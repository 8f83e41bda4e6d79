/**
 * The weekly extractor: fetch the cashless facts of the last `days_back` days
 * page by page (one attempt per page, no pauses) and write them all to one
 * CSV file, even when there are none.
 */
module ExtractCashless {
  import opened Wrappers
  import opened Frames
  import opened Clock
  import opened Pagination

  const OUTPUT_PATH := "data/raw_csv_outputs/cashless_data.csv"

  /**
   * The window's parameters: the start is read from the clock minus
   * `daysBack` days with "Z" appended; the end is a second clock reading
   * without one.
   */
  function WindowStart(now1: Instant, daysBack: int): string {
    ApiTimestamp(now1 - daysBack * DAY)
  }

  /**
   * The start parameter is the isoformat of now minus `daysBack` days with a
   * "Z" after its "+00:00"; the end parameter ends in "+00:00", without one.
   */
  lemma WindowParameters(now1: Instant, now2: Instant, daysBack: int)
    ensures var s := WindowStart(now1, daysBack);
      |s| >= 7 && s[|s| - 7..] == "+00:00Z" && s[..|s| - 1] == IsoFormat(now1 - daysBack * DAY)
    ensures var e := IsoFormat(now2); e[|e| - 1] != 'Z'
  {
    var s := WindowStart(now1, daysBack);
    assert s == IsoFormat(now1 - daysBack * DAY) + "Z";
  }

  /** `extract_cashless_range`: the page loop over the window with no retries and no pauses. */
  method ExtractCashlessRange(api: Api, now1: Instant, now2: Instant, daysBack: int)
    returns (r: Result<seq<Value>, FetchError>, ghost events: seq<Event>)
    ensures Fetched(r, events) == Paginate(api, WindowStart(now1, daysBack), IsoFormat(now2), 1, Once, false)
    ensures r == Paginate(api, WindowStart(now1, daysBack), IsoFormat(now2), 1, Once, false).result
  {
    r, events := CollectPages(api, WindowStart(now1, daysBack), IsoFormat(now2), Once, false);
  }

  /**
   * The extractor never sleeps, asks for the pages of its window from 1 upward
   * each once with per_page=100, and returns their in-order concatenation up to
   * the first empty or short page.
   */
  lemma ExtractNeverSleeps(api: Api, now1: Instant, now2: Instant, daysBack: int)
    ensures var f := Paginate(api, WindowStart(now1, daysBack), IsoFormat(now2), 1, Once, false);
      && (forall i :: 0 <= i < |f.events| ==> f.events[i].Get?)
      && FirstAttemptsOnly(f.events)
      && CountsUpFrom(FirstAttemptPages(f.events), 1)
      && InWindow(f.events, WindowStart(now1, daysBack), IsoFormat(now2))
      && var pages := api.results(WindowStart(now1, daysBack), IsoFormat(now2));
         (f.result.Ok? ==> f.result.value == Concat(pages, 1, LastPage(pages, 1)))
  {
    var f := Paginate(api, WindowStart(now1, daysBack), IsoFormat(now2), 1, Once, false);
    SleepsOnlyAfterFullPages(api, WindowStart(now1, daysBack), IsoFormat(now2), 1, false);
    OnlyFirstAttempts(api, WindowStart(now1, daysBack), IsoFormat(now2), 1, false);
    PagesRequestedInOrder(api, WindowStart(now1, daysBack), IsoFormat(now2), 1, Once, false);
    RequestsCarryWindow(api, WindowStart(now1, daysBack), IsoFormat(now2), 1, Once, false);
    PaginateCollects(api, WindowStart(now1, daysBack), IsoFormat(now2), 1, Once, false);
  }

  /** Every request in `events` is a first attempt. */
  predicate FirstAttemptsOnly(events: seq<Event>) {
    forall i :: 0 <= i < |events| && events[i].Get? ==> events[i].attempt == 0
  }

  /** Without retries, every request is a first attempt. */
  lemma {:induction false} OnlyFirstAttempts(api: Api, startDate: string, endDate: string, page: nat, pause: bool)
    requires page >= 1
    ensures FirstAttemptsOnly(Paginate(api, startDate, endDate, page, Once, pause).events)
    decreases |api.results(startDate, endDate)| + 1 - page
  {
    var req := Request(startDate, endDate, page, PER_PAGE);
    var here := Fetch(api, req, Once);
    if !(here.result.Err? || here.result.value == [] || |here.result.value| < PER_PAGE) {
      var pauseEvents: seq<Event> := if pause then [Sleep(1)] else [];
      var rest := Paginate(api, startDate, endDate, page + 1, Once, pause).events;
      OnlyFirstAttempts(api, startDate, endDate, page + 1, pause);
      var all := here.events + pauseEvents + rest;
      assert here.events == [Get(req, 0)];
      forall i | 0 <= i < |all| && all[i].Get?
        ensures all[i].attempt == 0
      {
        if i >= 1 + |pauseEvents| {
          assert all[i] == rest[i - 1 - |pauseEvents|];
        } else if i == 0 {
          assert all[0] == Get(req, 0);
        }
      }
      assert FirstAttemptsOnly(all);
    }
  }

  /** `save_to_csv`: the records are written to the output file, even when there are none. */
  function SaveToCsv(files: Files, data: seq<Value>): (r: Files)
    ensures OUTPUT_PATH in r && r[OUTPUT_PATH] == data
    ensures forall n :: n != OUTPUT_PATH ==> (n in r <==> n in files) && (n in r ==> r[n] == files[n])
  {
    files[OUTPUT_PATH := data]
  }

  /** The `__main__` block: a week back from now; a failed request ends it before anything is written. */
  method RunWeekly(api: Api, now1: Instant, now2: Instant, files: Files) returns (r: Result<Files, FetchError>)
    ensures var f := Paginate(api, WindowStart(now1, 7), IsoFormat(now2), 1, Once, false);
      r == if f.result.Ok? then Ok(SaveToCsv(files, f.result.value)) else Err(f.result.error)
  {
    var data, events := ExtractCashlessRange(api, now1, now2, 7);
    if data.Err? {
      return Err(data.error);
    }
    r := Ok(SaveToCsv(files, data.value));
  }
}
