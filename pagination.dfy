/**
 * The cashless-facts API and the page loop the three extractors share:
 * request page 1, 2, … with per_page 100 until a page comes back empty or
 * with fewer than 100 records, collecting the records in order. Requests and
 * sleeps are recorded in a ghost trace of events.
 */
module Pagination {
  import opened Wrappers
  import opened Frames

  const PER_PAGE: nat := 100

  /** The query parameters of one `cashless_facts` request. */
  datatype Request = Request(startDate: string, endDate: string, page: nat, perPage: nat)

  /** What the extractors do that the outside world sees: a request (with its attempt number) or a sleep. */
  datatype Event = Get(request: Request, attempt: nat) | Sleep(seconds: nat)

  /**
   * The API: `results(start, end)` are the pages of records it serves for that
   * window, page 1 first, every page after the last one empty; `down(request,
   * attempt)` says whether that attempt at the request raises.
   */
  datatype Api = Api(results: (string, string) -> seq<seq<Value>>, down: (Request, nat) -> bool)

  /** Why fetching stopped: a request raised, or three attempts at it failed. */
  datatype FetchError = HttpError(request: Request) | GaveUp(request: Request)

  /** A result together with the events that produced it. */
  datatype Fetched = Fetched(result: Result<seq<Value>, FetchError>, events: seq<Event>)

  /** How a page is requested: once (`fetch_from_endpoint`), or with up to three attempts. */
  datatype Policy = Once | RetryThrice

  /** The records the API returns for a request. */
  function Records(api: Api, req: Request): seq<Value> {
    var pages := api.results(req.startDate, req.endDate);
    if 1 <= req.page <= |pages| then pages[req.page - 1] else []
  }

  function Pow2(k: nat): (r: nat)
    ensures r >= 1
  {
    if k == 0 then 1 else 2 * Pow2(k - 1)
  }

  /** The retry loop from attempt `k` on: after failed attempt k it sleeps 2^k seconds; after three failures it gives up. */
  function RetryFrom(api: Api, req: Request, k: nat): Fetched
    decreases 3 - k
  {
    if k >= 3 then Fetched(Err(GaveUp(req)), [])
    else if !api.down(req, k) then Fetched(Ok(Records(api, req)), [Get(req, k)])
    else
      var rest := RetryFrom(api, req, k + 1);
      Fetched(rest.result, [Get(req, k), Sleep(Pow2(k))] + rest.events)
  }

  /** One page under a policy. */
  function Fetch(api: Api, req: Request, policy: Policy): Fetched {
    match policy
    case Once => Fetched(if api.down(req, 0) then Err(HttpError(req)) else Ok(Records(api, req)), [Get(req, 0)])
    case RetryThrice => RetryFrom(api, req, 0)
  }

  /** `f` preceded by `records` already collected and `events` already happened. */
  function After(records: seq<Value>, events: seq<Event>, f: Fetched): Fetched {
    Fetched(if f.result.Ok? then Ok(records + f.result.value) else f.result, events + f.events)
  }

  /**
   * The page loop from page `page` on: fetch it; stop on an error, an empty
   * page or a short page; otherwise keep its records, sleep a second when
   * `pause`, and go on with the next page.
   */
  function Paginate(api: Api, startDate: string, endDate: string, page: nat, policy: Policy, pause: bool): Fetched
    requires page >= 1
    decreases |api.results(startDate, endDate)| + 1 - page
  {
    var req := Request(startDate, endDate, page, PER_PAGE);
    var here := Fetch(api, req, policy);
    if here.result.Err? || here.result.value == [] || |here.result.value| < PER_PAGE then here
    else
      assert page <= |api.results(startDate, endDate)|;
      After(here.result.value, here.events + (if pause then [Sleep(1)] else []),
            Paginate(api, startDate, endDate, page + 1, policy, pause))
  }

  /** After a full page, the run is that page's fetch and pause followed by the run from the next page. */
  lemma PaginateFullPage(api: Api, startDate: string, endDate: string, page: nat, policy: Policy, pause: bool)
    requires page >= 1
    requires var here := Fetch(api, Request(startDate, endDate, page, PER_PAGE), policy);
      !(here.result.Err? || here.result.value == [] || |here.result.value| < PER_PAGE)
    ensures var here := Fetch(api, Request(startDate, endDate, page, PER_PAGE), policy);
      var rest := Paginate(api, startDate, endDate, page + 1, policy, pause);
      Paginate(api, startDate, endDate, page, policy, pause).events
        == here.events + (if pause then [Sleep(1)] else []) + rest.events
  {
  }

  /** Whatever the policy and the API, the loop's first event is the first attempt at its first page. */
  lemma FirstEventIsFirstRequest(api: Api, startDate: string, endDate: string, page: nat, policy: Policy, pause: bool)
    requires page >= 1
    ensures var events := Paginate(api, startDate, endDate, page, policy, pause).events;
      |events| >= 1 && events[0] == Get(Request(startDate, endDate, page, PER_PAGE), 0)
  {
    var req := Request(startDate, endDate, page, PER_PAGE);
    var here := Fetch(api, req, policy);
    assert |here.events| >= 1 && here.events[0] == Get(req, 0);
    if !(here.result.Err? || here.result.value == [] || |here.result.value| < PER_PAGE) {
      PaginateFullPage(api, startDate, endDate, page, policy, pause);
    }
  }

  lemma AfterNothing(f: Fetched)
    ensures After([], [], f) == f
  {
    assert [] + f.events == f.events;
    if f.result.Ok? {
      assert [] + f.result.value == f.result.value;
    }
  }

  lemma AfterAfter(a1: seq<Value>, e1: seq<Event>, a2: seq<Value>, e2: seq<Event>, f: Fetched)
    ensures After(a1, e1, After(a2, e2, f)) == After(a1 + a2, e1 + e2, f)
  {
    assert e1 + (e2 + f.events) == (e1 + e2) + f.events;
    if f.result.Ok? {
      assert a1 + (a2 + f.result.value) == (a1 + a2) + f.result.value;
    }
  }

  /** The retry loop moves past a failed attempt: its request and its pause join the events so far. */
  lemma RetryAdvances(api: Api, req: Request, attempt: nat, events: seq<Event>)
    requires attempt < 3 && api.down(req, attempt)
    requires RetryFrom(api, req, 0) == Fetched(RetryFrom(api, req, attempt).result, events + RetryFrom(api, req, attempt).events)
    ensures var next := RetryFrom(api, req, attempt + 1);
      RetryFrom(api, req, 0) == Fetched(next.result, (events + [Get(req, attempt)] + [Sleep(Pow2(attempt))]) + next.events)
  {
    var next := RetryFrom(api, req, attempt + 1);
    var here := RetryFrom(api, req, attempt);
    var tried := [Get(req, attempt), Sleep(Pow2(attempt))];
    assert here == Fetched(next.result, tried + next.events);
    assert events + [Get(req, attempt)] + [Sleep(Pow2(attempt))] == events + tried;
    AppendAssociates(events, tried, next.events);
  }

  /** The retry loop of `fetch_cashless_data`: `for attempt in range(3)`. */
  method FetchWithRetry(api: Api, req: Request) returns (r: Result<seq<Value>, FetchError>, ghost events: seq<Event>)
    ensures Fetched(r, events) == RetryFrom(api, req, 0)
    ensures r == RetryFrom(api, req, 0).result
  {
    events := [];
    for attempt := 0 to 3
      invariant RetryFrom(api, req, 0) == Fetched(RetryFrom(api, req, attempt).result, events + RetryFrom(api, req, attempt).events)
    {
      if !api.down(req, attempt) {
        return Ok(Records(api, req)), events + [Get(req, attempt)];
      }
      RetryAdvances(api, req, attempt, events);
      events := events + [Get(req, attempt)] + [Sleep(Pow2(attempt))];
    }
    assert events + [] == events;
    r := Err(GaveUp(req));
  }

  /** A single request that raises on failure: `fetch_from_endpoint`. */
  method FetchOnce(api: Api, req: Request) returns (r: Result<seq<Value>, FetchError>, ghost events: seq<Event>)
    ensures Fetched(r, events) == Fetch(api, req, Once)
    ensures r == Fetch(api, req, Once).result
  {
    events := [Get(req, 0)];
    if api.down(req, 0) {
      return Err(HttpError(req)), events;
    }
    r := Ok(Records(api, req));
  }

  /** One page under `policy`. */
  method FetchPage(api: Api, req: Request, policy: Policy) returns (r: Result<seq<Value>, FetchError>, ghost events: seq<Event>)
    ensures Fetched(r, events) == Fetch(api, req, policy)
    ensures r == Fetch(api, req, policy).result
  {
    if policy == Once {
      r, events := FetchOnce(api, req);
    } else {
      r, events := FetchWithRetry(api, req);
    }
  }

  /** The loop's invariant is kept when a full page is added and the loop moves to the next page. */
  lemma FullPageStep(api: Api, startDate: string, endDate: string, page: nat, policy: Policy, pause: bool,
                     all: seq<Value>, events: seq<Event>)
    requires page >= 1
    requires var here := Fetch(api, Request(startDate, endDate, page, PER_PAGE), policy);
      here.result.Ok? && |here.result.value| >= PER_PAGE
    ensures var here := Fetch(api, Request(startDate, endDate, page, PER_PAGE), policy);
      After(all, events, Paginate(api, startDate, endDate, page, policy, pause))
      == After(all + here.result.value, events + here.events + (if pause then [Sleep(1)] else []),
               Paginate(api, startDate, endDate, page + 1, policy, pause))
  {
    var here := Fetch(api, Request(startDate, endDate, page, PER_PAGE), policy);
    var pauseEvents: seq<Event> := if pause then [Sleep(1)] else [];
    var rest := Paginate(api, startDate, endDate, page + 1, policy, pause);
    assert Paginate(api, startDate, endDate, page, policy, pause) == After(here.result.value, here.events + pauseEvents, rest);
    AfterAfter(all, events, here.result.value, here.events + pauseEvents, rest);
    assert events + (here.events + pauseEvents) == events + here.events + pauseEvents;
  }

  /** The `while True` page loop, with the given request policy and pause. */
  method CollectPages(api: Api, startDate: string, endDate: string, policy: Policy, pause: bool)
    returns (r: Result<seq<Value>, FetchError>, ghost events: seq<Event>)
    ensures Fetched(r, events) == Paginate(api, startDate, endDate, 1, policy, pause)
    ensures r == Paginate(api, startDate, endDate, 1, policy, pause).result
  {
    var page := 1;
    var all: seq<Value> := [];
    events := [];
    AfterNothing(Paginate(api, startDate, endDate, 1, policy, pause));
    while true
      invariant page >= 1
      invariant Paginate(api, startDate, endDate, 1, policy, pause)
        == After(all, events, Paginate(api, startDate, endDate, page, policy, pause))
      decreases |api.results(startDate, endDate)| + 1 - page
    {
      var data, ev := FetchPage(api, Request(startDate, endDate, page, PER_PAGE), policy);
      if data.Err? {
        return data, events + ev;
      }
      if data.value == [] {
        assert all + [] == all;
        return Ok(all), events + ev;
      }
      if |data.value| < PER_PAGE {
        return Ok(all + data.value), events + ev;
      }
      FullPageStep(api, startDate, endDate, page, policy, pause, all, events);
      all := all + data.value;
      page := page + 1;
      events := events + ev + (if pause then [Sleep(1)] else []);
    }
  }

  // ---------------------------------------------------------------------------
  // What the retry loop promises
  // ---------------------------------------------------------------------------

  /**
   * At most three requests: the first attempt that does not fail returns that
   * page's records, sleeping 1, 2, … seconds after each earlier failure; three
   * failures give up after sleeping 1, 2 and 4 seconds.
   */
  lemma RetryOutcome(api: Api, req: Request)
    ensures var f := RetryFrom(api, req, 0);
      && (!api.down(req, 0) ==> f == Fetched(Ok(Records(api, req)), [Get(req, 0)]))
      && (api.down(req, 0) && !api.down(req, 1) ==>
            f == Fetched(Ok(Records(api, req)), [Get(req, 0), Sleep(1), Get(req, 1)]))
      && (api.down(req, 0) && api.down(req, 1) && !api.down(req, 2) ==>
            f == Fetched(Ok(Records(api, req)), [Get(req, 0), Sleep(1), Get(req, 1), Sleep(2), Get(req, 2)]))
      && (api.down(req, 0) && api.down(req, 1) && api.down(req, 2) ==>
            f == Fetched(Err(GaveUp(req)), [Get(req, 0), Sleep(1), Get(req, 1), Sleep(2), Get(req, 2), Sleep(4)]))
  {
    assert Pow2(1) == 2 && Pow2(2) == 4;
  }

  // ---------------------------------------------------------------------------
  // What the page loop promises
  // ---------------------------------------------------------------------------

  /** The page a run that starts at `page` stops at: the first one with fewer than 100 records. */
  function LastPage(pages: seq<seq<Value>>, page: nat): (r: nat)
    requires page >= 1
    ensures r >= page
    decreases |pages| + 1 - page
  {
    if page > |pages| || |pages[page - 1]| < PER_PAGE then page else LastPage(pages, page + 1)
  }

  function PageOf(pages: seq<seq<Value>>, n: nat): seq<Value> {
    if 1 <= n <= |pages| then pages[n - 1] else []
  }

  /** Pages `lo` to `hi`, concatenated in order. */
  function Concat(pages: seq<seq<Value>>, lo: nat, hi: nat): seq<Value>
    decreases hi + 1 - lo
  {
    if lo > hi then [] else PageOf(pages, lo) + Concat(pages, lo + 1, hi)
  }

  /** The summed sizes of pages `lo` to `hi`. */
  function SumSizes(pages: seq<seq<Value>>, lo: nat, hi: nat): nat
    decreases hi + 1 - lo
  {
    if lo > hi then 0 else |PageOf(pages, lo)| + SumSizes(pages, lo + 1, hi)
  }

  lemma {:induction false} ConcatSize(pages: seq<seq<Value>>, lo: nat, hi: nat)
    ensures |Concat(pages, lo, hi)| == SumSizes(pages, lo, hi)
    decreases hi + 1 - lo
  {
    if lo <= hi {
      ConcatSize(pages, lo + 1, hi);
      assert Concat(pages, lo, hi) == PageOf(pages, lo) + Concat(pages, lo + 1, hi);
    }
  }

  /**
   * A run that succeeds returns exactly pages `page` … LastPage concatenated in
   * order, so its length is the sum of their sizes; every page before the last
   * was full, and the last one was empty or short.
   */
  lemma {:induction false} PaginateCollects(api: Api, startDate: string, endDate: string, page: nat,
                                            policy: Policy, pause: bool)
    requires page >= 1
    ensures var pages := api.results(startDate, endDate);
      var f := Paginate(api, startDate, endDate, page, policy, pause);
      var last := LastPage(pages, page);
      && (f.result.Ok? ==> f.result.value == Concat(pages, page, last))
      && (f.result.Ok? ==> |f.result.value| == SumSizes(pages, page, last))
      && |PageOf(pages, last)| < PER_PAGE
      && (forall n :: page <= n < last ==> |PageOf(pages, n)| >= PER_PAGE)
    decreases |api.results(startDate, endDate)| + 1 - page
  {
    var pages := api.results(startDate, endDate);
    var req := Request(startDate, endDate, page, PER_PAGE);
    var here := Fetch(api, req, policy);
    var last := LastPage(pages, page);
    ConcatSize(pages, page, last);
    assert Records(api, req) == PageOf(pages, page);
    if here.result.Ok? {
      assert here.result.value == PageOf(pages, page);
    }
    if |PageOf(pages, page)| < PER_PAGE {
      assert last == page;
      assert Concat(pages, page, last) == PageOf(pages, page) + Concat(pages, page + 1, last);
      assert Concat(pages, page + 1, last) == [];
    } else {
      assert last == LastPage(pages, page + 1);
      PaginateCollects(api, startDate, endDate, page + 1, policy, pause);
    }
  }

  /** The pages requested at their first attempt, in order. */
  function FirstAttemptPages(events: seq<Event>): seq<nat> {
    if events == [] then []
    else
      (if events[0].Get? && events[0].attempt == 0 then [events[0].request.page] else [])
      + FirstAttemptPages(events[1..])
  }

  lemma {:induction false} FirstAttemptPagesAppend(a: seq<Event>, b: seq<Event>)
    ensures FirstAttemptPages(a + b) == FirstAttemptPages(a) + FirstAttemptPages(b)
  {
    if a != [] {
      var head := if a[0].Get? && a[0].attempt == 0 then [a[0].request.page] else [];
      assert (a + b)[0] == a[0];
      assert (a + b)[1..] == a[1..] + b;
      FirstAttemptPagesAppend(a[1..], b);
      calc {
        FirstAttemptPages(a + b);
        head + FirstAttemptPages(a[1..] + b);
        head + (FirstAttemptPages(a[1..]) + FirstAttemptPages(b));
        (head + FirstAttemptPages(a[1..])) + FirstAttemptPages(b);
      }
    } else {
      assert a + b == b;
    }
  }

  lemma {:induction false} RetryFirstAttempt(api: Api, req: Request, k: nat)
    ensures FirstAttemptPages(RetryFrom(api, req, k).events) == if k == 0 then [req.page] else []
    decreases 3 - k
  {
    if k < 3 && api.down(req, k) {
      RetryFirstAttempt(api, req, k + 1);
      var rest := RetryFrom(api, req, k + 1);
      FirstAttemptPagesAppend([Get(req, k), Sleep(Pow2(k))], rest.events);
      assert FirstAttemptPages([Sleep(Pow2(k))]) == [];
    } else if k < 3 {
      assert FirstAttemptPages([Get(req, k)]) == if k == 0 then [req.page] else [];
    }
  }

  /** The first-attempt requests of one page: exactly that page, once. */
  lemma FetchFirstAttempt(api: Api, req: Request, policy: Policy)
    ensures FirstAttemptPages(Fetch(api, req, policy).events) == [req.page]
  {
    if policy == RetryThrice {
      RetryFirstAttempt(api, req, 0);
    } else {
      assert FirstAttemptPages([Get(req, 0)]) == [req.page];
    }
  }

  /** `pages` is `lo`, lo+1, … */
  predicate CountsUpFrom(pages: seq<nat>, lo: nat) {
    forall i :: 0 <= i < |pages| ==> pages[i] == lo + i
  }

  lemma CountsUpCons(pages: seq<nat>, lo: nat)
    requires CountsUpFrom(pages, lo + 1)
    ensures CountsUpFrom([lo] + pages, lo)
  {
    forall i | 0 < i < |pages| + 1
      ensures ([lo] + pages)[i] == lo + i
    {
      assert ([lo] + pages)[i] == pages[i - 1];
    }
  }

  /** A request for `page`, pauses, then requests counting up from page+1: they count up from `page`. */
  lemma CountsUpJoin(here: seq<Event>, pauseEvents: seq<Event>, rest: seq<Event>, page: nat)
    requires FirstAttemptPages(here) == [page] && FirstAttemptPages(pauseEvents) == []
    requires CountsUpFrom(FirstAttemptPages(rest), page + 1)
    ensures var requested := FirstAttemptPages(here + pauseEvents + rest);
      |requested| >= 1 && CountsUpFrom(requested, page)
  {
    FirstAttemptPagesAppend(here, pauseEvents);
    FirstAttemptPagesAppend(here + pauseEvents, rest);
    assert FirstAttemptPages(here + pauseEvents) == [page];
    CountsUpCons(FirstAttemptPages(rest), page);
  }

  /** The fetch of `page` returned a full page, so the loop goes on to the next one. */
  predicate FullPage(api: Api, startDate: string, endDate: string, page: nat, policy: Policy) {
    var here := Fetch(api, Request(startDate, endDate, page, PER_PAGE), policy);
    !(here.result.Err? || here.result.value == [] || |here.result.value| < PER_PAGE)
  }

  /** The step of PagesRequestedInOrder past a full page. */
  lemma PagesInOrderAfterFull(api: Api, startDate: string, endDate: string, page: nat, policy: Policy, pause: bool)
    requires page >= 1 && FullPage(api, startDate, endDate, page, policy)
    requires CountsUpFrom(FirstAttemptPages(Paginate(api, startDate, endDate, page + 1, policy, pause).events), page + 1)
    ensures var requested := FirstAttemptPages(Paginate(api, startDate, endDate, page, policy, pause).events);
      |requested| >= 1 && CountsUpFrom(requested, page)
  {
    var req := Request(startDate, endDate, page, PER_PAGE);
    FetchFirstAttempt(api, req, policy);
    PaginateFullPage(api, startDate, endDate, page, policy, pause);
    var pauseEvents: seq<Event> := if pause then [Sleep(1)] else [];
    assert FirstAttemptPages(pauseEvents) == [];
    CountsUpJoin(Fetch(api, req, policy).events, pauseEvents,
                 Paginate(api, startDate, endDate, page + 1, policy, pause).events, page);
  }

  /** The step of PagesRequestedInOrder at the last page: only it was requested. */
  lemma PagesInOrderAtLast(api: Api, startDate: string, endDate: string, page: nat, policy: Policy, pause: bool)
    requires page >= 1 && !FullPage(api, startDate, endDate, page, policy)
    ensures var requested := FirstAttemptPages(Paginate(api, startDate, endDate, page, policy, pause).events);
      |requested| >= 1 && CountsUpFrom(requested, page)
  {
    var req := Request(startDate, endDate, page, PER_PAGE);
    FetchFirstAttempt(api, req, policy);
    assert Paginate(api, startDate, endDate, page, policy, pause) == Fetch(api, req, policy);
    assert CountsUpFrom([page], page);
  }

  /**
   * Pages are requested from `page` upward, each (at its first attempt) exactly
   * once and in order.
   */
  lemma {:induction false} PagesRequestedInOrder(api: Api, startDate: string, endDate: string, page: nat,
                                                 policy: Policy, pause: bool)
    requires page >= 1
    ensures var requested := FirstAttemptPages(Paginate(api, startDate, endDate, page, policy, pause).events);
      |requested| >= 1 && CountsUpFrom(requested, page)
    decreases |api.results(startDate, endDate)| + 1 - page
  {
    if FullPage(api, startDate, endDate, page, policy) {
      PagesRequestedInOrder(api, startDate, endDate, page + 1, policy, pause);
      PagesInOrderAfterFull(api, startDate, endDate, page, policy, pause);
    } else {
      PagesInOrderAtLast(api, startDate, endDate, page, policy, pause);
    }
  }

  /** Every request in `events` is for the window and asks for per_page=100. */
  predicate InWindow(events: seq<Event>, startDate: string, endDate: string) {
    forall i :: 0 <= i < |events| && events[i].Get? ==>
      events[i].request.startDate == startDate && events[i].request.endDate == endDate
      && events[i].request.perPage == PER_PAGE
  }

  lemma InWindowAppend(a: seq<Event>, b: seq<Event>, startDate: string, endDate: string)
    requires InWindow(a, startDate, endDate) && InWindow(b, startDate, endDate)
    ensures InWindow(a + b, startDate, endDate)
  {
    forall i | 0 <= i < |a + b| && (a + b)[i].Get?
      ensures (a + b)[i].request.startDate == startDate && (a + b)[i].request.endDate == endDate
        && (a + b)[i].request.perPage == PER_PAGE
    {
      if i >= |a| {
        assert (a + b)[i] == b[i - |a|];
      } else {
        assert (a + b)[i] == a[i];
      }
    }
  }

  lemma {:induction false} RetryInWindow(api: Api, req: Request, k: nat)
    requires req.perPage == PER_PAGE
    ensures InWindow(RetryFrom(api, req, k).events, req.startDate, req.endDate)
    decreases 3 - k
  {
    if k < 3 && api.down(req, k) {
      RetryInWindow(api, req, k + 1);
      InWindowAppend([Get(req, k), Sleep(Pow2(k))], RetryFrom(api, req, k + 1).events, req.startDate, req.endDate);
    }
  }

  /** Every request of the page loop carries its window and per_page=100, whatever the policy. */
  lemma {:induction false} RequestsCarryWindow(api: Api, startDate: string, endDate: string, page: nat,
                                               policy: Policy, pause: bool)
    requires page >= 1
    ensures InWindow(Paginate(api, startDate, endDate, page, policy, pause).events, startDate, endDate)
    decreases |api.results(startDate, endDate)| + 1 - page
  {
    var req := Request(startDate, endDate, page, PER_PAGE);
    var here := Fetch(api, req, policy);
    if policy == RetryThrice {
      RetryInWindow(api, req, 0);
    }
    if !(here.result.Err? || here.result.value == [] || |here.result.value| < PER_PAGE) {
      var pauseEvents: seq<Event> := if pause then [Sleep(1)] else [];
      RequestsCarryWindow(api, startDate, endDate, page + 1, policy, pause);
      InWindowAppend(here.events, pauseEvents, startDate, endDate);
      InWindowAppend(here.events + pauseEvents, Paginate(api, startDate, endDate, page + 1, policy, pause).events,
                     startDate, endDate);
    }
  }

  /**
   * Each sleep in `events` is a one-second pause (and pauses are on) between
   * the request of a page with at least 100 records and the request of the
   * page after it.
   */
  predicate SleepsFollowFullPages(api: Api, events: seq<Event>, pause: bool) {
    forall i :: 0 <= i < |events| && events[i].Sleep? ==>
      && pause && events[i] == Sleep(1)
      && 0 < i < |events| - 1 && events[i - 1].Get? && events[i + 1].Get?
      && |Records(api, events[i - 1].request)| >= PER_PAGE
      && events[i + 1].request.page == events[i - 1].request.page + 1
  }

  lemma PrependFullPage(api: Api, g: Event, pauseEvents: seq<Event>, rest: seq<Event>, pause: bool)
    requires g.Get? && |Records(api, g.request)| >= PER_PAGE
    requires pauseEvents == if pause then [Sleep(1)] else []
    requires |rest| >= 1 && rest[0].Get? && rest[0].request.page == g.request.page + 1
    requires SleepsFollowFullPages(api, rest, pause)
    ensures SleepsFollowFullPages(api, [g] + pauseEvents + rest, pause)
  {
    var all := [g] + pauseEvents + rest;
    var n := |pauseEvents|;
    forall i | 0 <= i < |all| && all[i].Sleep?
      ensures && pause && all[i] == Sleep(1)
        && 0 < i < |all| - 1 && all[i - 1].Get? && all[i + 1].Get?
        && |Records(api, all[i - 1].request)| >= PER_PAGE
        && all[i + 1].request.page == all[i - 1].request.page + 1
    {
      if i > n {
        assert all[i] == rest[i - 1 - n];
        assert all[i - 1] == rest[i - 2 - n];
        assert i - 1 - n < |rest| - 1;
        assert all[i + 1] == rest[i - n];
      } else {
        assert i == 1 && pause;
        assert all[0] == g && all[2] == rest[0];
      }
    }
  }

  /**
   * Without retries, the loop sleeps only between a full page and the request
   * for the next page, and never when pauses are off; its first event is the
   * request for the first page.
   */
  lemma {:induction false} SleepsOnlyAfterFullPages(api: Api, startDate: string, endDate: string, page: nat,
                                                    pause: bool)
    requires page >= 1
    ensures var events := Paginate(api, startDate, endDate, page, Once, pause).events;
      && |events| >= 1 && events[0] == Get(Request(startDate, endDate, page, PER_PAGE), 0)
      && SleepsFollowFullPages(api, events, pause)
    decreases |api.results(startDate, endDate)| + 1 - page
  {
    var req := Request(startDate, endDate, page, PER_PAGE);
    var here := Fetch(api, req, Once);
    if !(here.result.Err? || here.result.value == [] || |here.result.value| < PER_PAGE) {
      var pauseEvents: seq<Event> := if pause then [Sleep(1)] else [];
      var rest := Paginate(api, startDate, endDate, page + 1, Once, pause);
      SleepsOnlyAfterFullPages(api, startDate, endDate, page + 1, pause);
      PrependFullPage(api, Get(req, 0), pauseEvents, rest.events, pause);
      assert here.events == [Get(req, 0)];
    }
  }

  /**
   * The sleep at index `i` is where the retrying loop puts one: 2^k seconds
   * right after failed attempt k (k < 3) at a request, or, when pauses are
   * on, one second right after a successful request for a full page and
   * right before the first attempt at the page after it.
   */
  predicate SleepPlaced(api: Api, events: seq<Event>, i: nat, pause: bool)
    requires i < |events|
  {
    && 0 < i && events[i - 1].Get?
    && var prev := events[i - 1];
    || (prev.attempt < 3 && api.down(prev.request, prev.attempt) && events[i] == Sleep(Pow2(prev.attempt)))
    || (&& pause && events[i] == Sleep(1) && i < |events| - 1
        && !api.down(prev.request, prev.attempt)
        && |Records(api, prev.request)| >= PER_PAGE
        && events[i + 1] == Get(prev.request.(page := prev.request.page + 1), 0))
  }

  predicate SleepsPlaced(api: Api, events: seq<Event>, pause: bool) {
    forall i :: 0 <= i < |events| && events[i].Sleep? ==> SleepPlaced(api, events, i, pause)
  }

  lemma SleepPlacedShift(api: Api, a: seq<Event>, b: seq<Event>, j: nat, pause: bool)
    requires 0 < j < |b| && SleepPlaced(api, b, j, pause)
    ensures SleepPlaced(api, a + b, |a| + j, pause)
  {
    var all := a + b;
    assert all[|a| + j] == b[j] && all[|a| + j - 1] == b[j - 1];
    if j < |b| - 1 {
      assert all[|a| + j + 1] == b[j + 1];
    }
  }

  lemma SleepPlacedKept(api: Api, a: seq<Event>, b: seq<Event>, i: nat, pause: bool)
    requires i < |a| && SleepPlaced(api, a, i, pause)
    ensures SleepPlaced(api, a + b, i, pause)
  {
    var all := a + b;
    assert all[i] == a[i] && all[i - 1] == a[i - 1];
    if i < |a| - 1 {
      assert all[i + 1] == a[i + 1];
    }
  }

  /** Placed sleeps stay placed when followed by events that do not start with a sleep. */
  lemma SleepsPlacedAppend(api: Api, a: seq<Event>, b: seq<Event>, pause: bool)
    requires SleepsPlaced(api, a, pause) && SleepsPlaced(api, b, pause)
    requires b == [] || !b[0].Sleep?
    ensures SleepsPlaced(api, a + b, pause)
  {
    var all := a + b;
    forall i | 0 <= i < |all| && all[i].Sleep?
      ensures SleepPlaced(api, all, i, pause)
    {
      if i < |a| {
        assert all[i] == a[i];
        SleepPlacedKept(api, a, b, i, pause);
      } else {
        assert all[i] == b[i - |a|];
        SleepPlacedShift(api, a, b, i - |a|, pause);
      }
    }
  }

  /** A one-second pause after a successful full page and before the next page's first attempt is placed. */
  lemma SleepsPlacedPause(api: Api, a: seq<Event>, b: seq<Event>)
    requires SleepsPlaced(api, a, true) && SleepsPlaced(api, b, true)
    requires |a| >= 1 && a[|a| - 1].Get? && !api.down(a[|a| - 1].request, a[|a| - 1].attempt)
    requires |Records(api, a[|a| - 1].request)| >= PER_PAGE
    requires |b| >= 1 && b[0] == Get(a[|a| - 1].request.(page := a[|a| - 1].request.page + 1), 0)
    ensures SleepsPlaced(api, a + [Sleep(1)] + b, true)
  {
    var tail := [Sleep(1)] + b;
    var all := a + tail;
    assert all == a + [Sleep(1)] + b;
    assert all[|a|] == Sleep(1) && all[|a| - 1] == a[|a| - 1] && all[|a| + 1] == b[0];
    assert SleepPlaced(api, all, |a|, true);
    forall i | 0 <= i < |all| && all[i].Sleep?
      ensures SleepPlaced(api, all, i, true)
    {
      if i < |a| {
        assert all[i] == a[i];
        SleepPlacedKept(api, a, tail, i, true);
      } else if i > |a| {
        assert all[i] == b[i - |a| - 1];
        SleepPlacedShift(api, a + [Sleep(1)], b, i - |a| - 1, true);
      }
    }
  }

  /**
   * The retry loop from attempt `k` on sleeps only right after a failed
   * attempt; it starts with attempt `k` at the request, and when it succeeds
   * its last event is an attempt that did not fail and its records are the
   * request's records.
   */
  lemma {:induction false} RetrySleepsPlaced(api: Api, req: Request, k: nat, pause: bool)
    ensures var f := RetryFrom(api, req, k);
      && SleepsPlaced(api, f.events, pause)
      && (k < 3 ==> |f.events| >= 1 && f.events[0] == Get(req, k))
      && (f.result.Ok? ==>
            && |f.events| >= 1 && f.events[|f.events| - 1].Get?
            && f.events[|f.events| - 1].request == req
            && !api.down(req, f.events[|f.events| - 1].attempt)
            && f.result.value == Records(api, req))
    decreases 3 - k
  {
    if k < 3 && api.down(req, k) {
      var rest := RetryFrom(api, req, k + 1);
      RetrySleepsPlaced(api, req, k + 1, pause);
      var head := [Get(req, k), Sleep(Pow2(k))];
      assert SleepPlaced(api, head, 1, pause);
      SleepsPlacedAppend(api, head, rest.events, pause);
      if rest.result.Ok? {
        assert (head + rest.events)[|head + rest.events| - 1] == rest.events[|rest.events| - 1];
      }
    }
  }

  /** A full page fetched with retries, its pause and the run from the next page keep every sleep placed. */
  lemma FullPagePlaced(api: Api, startDate: string, endDate: string, page: nat, pause: bool)
    requires page >= 1
    requires var here := RetryFrom(api, Request(startDate, endDate, page, PER_PAGE), 0);
      here.result.Ok? && |here.result.value| >= PER_PAGE
    requires SleepsPlaced(api, Paginate(api, startDate, endDate, page + 1, RetryThrice, pause).events, pause)
    ensures SleepsPlaced(api, Paginate(api, startDate, endDate, page, RetryThrice, pause).events, pause)
  {
    var req := Request(startDate, endDate, page, PER_PAGE);
    var here := RetryFrom(api, req, 0);
    var rest := Paginate(api, startDate, endDate, page + 1, RetryThrice, pause).events;
    PaginateFullPage(api, startDate, endDate, page, RetryThrice, pause);
    FirstEventIsFirstRequest(api, startDate, endDate, page + 1, RetryThrice, pause);
    assert rest[0] == Get(req.(page := req.page + 1), 0);
    RetrySleepsPlaced(api, req, 0, pause);
    if pause {
      SleepsPlacedPause(api, here.events, rest);
    } else {
      assert here.events + [] == here.events;
      SleepsPlacedAppend(api, here.events, rest, pause);
    }
  }

  /**
   * With retries, every sleep of the page loop is either the 2^k-second
   * back-off right after failed attempt k at a request, or the one-second
   * pause right after a successful full page and right before the first
   * attempt at the next page.
   */
  lemma {:induction false} SleepsPlacedWithRetries(api: Api, startDate: string, endDate: string, page: nat,
                                                    pause: bool)
    requires page >= 1
    ensures SleepsPlaced(api, Paginate(api, startDate, endDate, page, RetryThrice, pause).events, pause)
    decreases |api.results(startDate, endDate)| + 1 - page
  {
    var req := Request(startDate, endDate, page, PER_PAGE);
    var here := RetryFrom(api, req, 0);
    if here.result.Ok? && |here.result.value| >= PER_PAGE {
      SleepsPlacedWithRetries(api, startDate, endDate, page + 1, pause);
      FullPagePlaced(api, startDate, endDate, page, pause);
    } else {
      RetrySleepsPlaced(api, req, 0, pause);
    }
  }
}
