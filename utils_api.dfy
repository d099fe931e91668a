/**
 * src/etl/utils_api.py: `request_tmdb`, a bounded retrying GET, and
 * `paginated_request`, which drives it over pages 1, 2, ... and concatenates
 * the `results` lists.
 *
 * Each method is proved to add to the session log exactly the events of a
 * specification function (`Attempts`, `Pages`) and to return its outcome;
 * the lemmas below state what those functions do.
 */
module UtilsApi {
  import opened Wrappers
  import opened Json
  import opened Http

  /** `time.sleep(2)` after a 429. */
  const RATE_LIMIT_WAIT: real := 2.0
  /** `time.sleep(0.2)` between pages. */
  const PAGE_PAUSE: real := 0.2
  /** The defaults `retries=3, sleep=1` the paginator and the extractor use. */
  const DEFAULT_RETRIES: int := 3
  const DEFAULT_SLEEP: real := 1.0

  /** The wait after a failed attempt: 2 seconds for a 429, `sleep` seconds for any other non-200 status. */
  function Backoff(status: int, sleep: real): real
  {
    if status == 429 then RATE_LIMIT_WAIT else sleep
  }

  /**
   * A response after which the loop waits and tries again: not a 200, and
   * a wait `time.sleep` accepts (a negative length raises ValueError).
   */
  predicate RetriesAfter(status: int, sleep: real)
  {
    status != 200 && Backoff(status, sleep) >= 0.0
  }

  /**
   * The loop `for attempt in range(retries)` from an attempt with `left`
   * attempts still to go: `n` requests have been made before it in the run
   * and `done` holds the events of the attempts already made. A 200 returns
   * the body; a 429 and any other status end the attempt (`continue`) after
   * the wait `Backoff` gives for it, unless that wait is negative, when
   * `time.sleep` raises ValueError.
   */
  function Attempts(env: Env, n: nat, req: Request, left: int, sleep: real, retries: int, done: seq<Event>): Step<Json>
    decreases left
  {
    if left <= 0 then
      Step(done, Err(TMDBApiError(retries, req.url)))
    else
      var response := env.server(n, req);
      if response.status == 200 then
        Step(done + [Exchange(req, response)], Ok(response.body))
      else if !RetriesAfter(response.status, sleep) then
        Step(done + [Exchange(req, response)], Err(Raised(ValueError(NEGATIVE_SLEEP))))
      else
        Attempts(env, n + 1, req, left - 1, sleep, retries, done + [Exchange(req, response), Sleep(Backoff(response.status, sleep))])
  }

  /** `request_tmdb(endpoint, params, retries, sleep)` with the caller's params (or `{}`), `n` requests into the run. */
  function RequestSpec(env: Env, n: nat, endpoint: Endpoint, params: map<string, Json>, retries: int, sleep: real): Step<Json>
  {
    Attempts(env, n, TmdbRequest(env, endpoint, params), retries, sleep, retries, [])
  }

  /**
   * One attempt of request_tmdb: the request, and the wait after a status
   * other than 200 when that wait is not negative. The two `continue`
   * branches differ only in the length of the wait, so they are one call to
   * `Wait` here.
   */
  method TryOnce(s: Session, req: Request, sleep: real) returns (response: Response)
    modifies s
    ensures response == s.env.server(ExchangeCount(old(s.log)), req)
    ensures s.log == old(s.log) + (if RetriesAfter(response.status, sleep)
                                   then [Exchange(req, response), Sleep(Backoff(response.status, sleep))]
                                   else [Exchange(req, response)])
    ensures ExchangeCount(s.log) == ExchangeCount(old(s.log)) + 1
  {
    response := s.Fetch(req);
    if RetriesAfter(response.status, sleep) {
      s.Wait(Backoff(response.status, sleep));
    }
  }

  /** The loop of request_tmdb over a request whose params are already set. */
  method SendWithRetries(s: Session, req: Request, retries: int, sleep: real) returns (r: Result<Json, Failure>)
    modifies s
    ensures var st := Attempts(s.env, ExchangeCount(old(s.log)), req, retries, sleep, retries, []);
            s.log == old(s.log) + st.events && r == st.result
  {
    ghost var n0, log0 := ExchangeCount(s.log), s.log;
    ghost var done: seq<Event> := [];
    var attempt := 0;
    while attempt < retries
      invariant 0 <= attempt && (0 <= retries ==> attempt <= retries)
      invariant s.log == log0 + done
      invariant ExchangeCount(s.log) == n0 + attempt
      invariant Attempts(s.env, n0, req, retries, sleep, retries, []) ==
                Attempts(s.env, n0 + attempt, req, retries - attempt, sleep, retries, done)
    {
      var response := TryOnce(s, req, sleep);
      if response.status == 200 {
        return Ok(response.body);
      }
      if !RetriesAfter(response.status, sleep) {
        return Err(Raised(ValueError(NEGATIVE_SLEEP)));
      }
      done := done + [Exchange(req, response), Sleep(Backoff(response.status, sleep))];
      attempt := attempt + 1;
    }
    return Err(TMDBApiError(retries, req.url));
  }

  /**
   * request_tmdb. A given params dict is the one the caller holds: it keeps
   * the injected `api_key` afterwards.
   */
  method RequestTmdb(s: Session, endpoint: Endpoint, params: Dict?, retries: int, sleep: real)
    returns (r: Result<Json, Failure>)
    modifies s, params
    ensures params != null ==> params.entries == old(params.entries)["api_key" := s.env.apiKey]
    ensures var st := RequestSpec(s.env, ExchangeCount(old(s.log)), endpoint,
                                  if params == null then map[] else old(params.entries), retries, sleep);
            s.log == old(s.log) + st.events && r == st.result
  {
    var p := params;
    if p == null {
      p := new Dict(map[]);
    }
    p.entries := p.entries["api_key" := s.env.apiKey];
    r := SendWithRetries(s, Request(Url(BASE_URL, endpoint), p.entries), retries, sleep);
  }

  /** The fresh dict `{**(params or {}), "page": page}`. */
  function PageParams(base: map<string, Json>, page: int): map<string, Json>
  {
    base["page" := JNum(page as real)]
  }

  /** `data.get("results", [])` as `all_results.extend` consumes it. */
  function PageResults(data: Json): Result<seq<Json>, PyError>
  {
    match data
    case JObj(fields) => Extended(GetOr(fields, "results", JArr([])))
    case _ => Err(TypeError)
  }

  /**
   * `page >= data.get("total_pages", 1)`. A bool compares as 0 or 1; None,
   * a string, a list or a dict cannot be compared with an int.
   */
  function IsLastPage(page: int, data: Json): Result<bool, PyError>
  {
    match data
    case JObj(fields) =>
      (match GetOr(fields, "total_pages", JNum(1.0))
       case JNum(t) => Ok(page as real >= t)
       case JBool(b) => Ok(page >= (if b then 1 else 0))
       case _ => Err(TypeError))
    case _ => Err(TypeError)
  }

  /** What one page of the loop ends with: its `results` and whether it is the last page. */
  datatype PageEnd = PageEnd(items: seq<Json>, last: bool)

  /** One turn of the page loop after the request: the results and the `break` test on the body it got. */
  function RoundOf(st: Step<Json>, page: int): Step<PageEnd>
  {
    match st.result
    case Err(f) => Step(st.events, Err(f))
    case Ok(data) =>
      match PageResults(data)
      case Err(e) => Step(st.events, Err(Raised(e)))
      case Ok(items) =>
        match IsLastPage(page, data)
        case Err(e) => Step(st.events, Err(Raised(e)))
        case Ok(last) => Step(st.events, Ok(PageEnd(items, last)))
  }

  /** One turn of the page loop up to the `break` test: the request, the results, the stop test. */
  function PageRound(env: Env, n: nat, endpoint: Endpoint, base: map<string, Json>, page: int): Step<PageEnd>
  {
    RoundOf(RequestSpec(env, n, endpoint, PageParams(base, page), DEFAULT_RETRIES, DEFAULT_SLEEP), page)
  }

  /**
   * The loop `for page in range(1, total_pages + 1)` from `page` on, for a
   * loop body `round` that gives the events and outcome of one page from the
   * log so far and the page number: `log` is the log so far and `acc` the
   * results collected from the earlier pages. After a page that is not the
   * last one comes the `time.sleep(0.2)` pause.
   */
  function PagesOf(round: (seq<Event>, int) -> Step<PageEnd>, page: int, total: int,
                   log: seq<Event>, acc: seq<Json>): Step<seq<Json>>
    decreases total - page + 1
  {
    if page > total then
      Step(log, Ok(acc))
    else
      var r := round(log, page);
      match r.result
      case Err(f) => Step(log + r.events, Err(f))
      case Ok(end) =>
        if end.last then Step(log + r.events, Ok(acc + end.items))
        else PagesOf(round, page + 1, total, log + r.events + [Sleep(PAGE_PAUSE)], acc + end.items)
  }

  /** The body of paginated_request's loop: one page requested through request_tmdb. */
  function PageRounds(env: Env, endpoint: Endpoint, base: map<string, Json>): (seq<Event>, int) -> Step<PageEnd>
  {
    (log: seq<Event>, page: int) => PageRound(env, ExchangeCount(log), endpoint, base, page)
  }

  /** paginated_request's loop from page `page` on. */
  function Pages(env: Env, endpoint: Endpoint, base: map<string, Json>, page: int, total: int,
                 log: seq<Event>, acc: seq<Json>): Step<seq<Json>>
  {
    PagesOf(PageRounds(env, endpoint, base), page, total, log, acc)
  }

  /** One turn of the page loop, in the shape `PageTurn` states it. */
  lemma PagesTurn(env: Env, endpoint: Endpoint, base: map<string, Json>, page: int, total: int,
                  log: seq<Event>, acc: seq<Json>, log': seq<Event>, r: Result<PageEnd, Failure>)
    requires page <= total
    requires var round := PageRound(env, ExchangeCount(log), endpoint, base, page); log' == log + round.events && r == round.result
    ensures var here := Pages(env, endpoint, base, page, total, log, acc);
            && (r.Err? ==> here == Step(log', Err(r.error)))
            && (r.Ok? && r.value.last ==> here == Step(log', Ok(acc + r.value.items)))
            && (r.Ok? && !r.value.last ==>
                  here == Pages(env, endpoint, base, page + 1, total,
                                log' + [Sleep(PAGE_PAUSE)], acc + r.value.items))
  {
  }

  /** The caller's params, or `{}` for None. */
  function BaseParams(entries: Option<map<string, Json>>): map<string, Json>
  {
    if entries.Some? then entries.value else map[]
  }

  /** The body of the page loop up to the `break` test, on a fresh params dict. */
  method FetchPage(s: Session, endpoint: Endpoint, base: map<string, Json>, page: int)
    returns (r: Result<PageEnd, Failure>)
    modifies s
    ensures var round := PageRound(s.env, ExchangeCount(old(s.log)), endpoint, base, page);
            s.log == old(s.log) + round.events && r == round.result
  {
    var pageParams := new Dict(PageParams(base, page));
    var data := RequestTmdb(s, endpoint, pageParams, DEFAULT_RETRIES, DEFAULT_SLEEP);
    if data.Err? {
      return Err(data.error);
    }
    var results := PageResults(data.value);
    if results.Err? {
      return Err(Raised(results.error));
    }
    var last := IsLastPage(page, data.value);
    if last.Err? {
      return Err(Raised(last.error));
    }
    return Ok(PageEnd(results.value, last.value));
  }

  /**
   * One turn of the page loop: the page, and the `time.sleep(0.2)` pause
   * when the loop goes on to page `page + 1`.
   */
  method PageTurn(s: Session, endpoint: Endpoint, base: map<string, Json>, page: int,
                  ghost total: int, ghost acc: seq<Json>)
    returns (r: Result<PageEnd, Failure>)
    requires page <= total
    modifies s
    ensures var here := Pages(s.env, endpoint, base, page, total, old(s.log), acc);
            && (r.Err? ==> here == Step(s.log, Err(r.error)))
            && (r.Ok? && r.value.last ==> here == Step(s.log, Ok(acc + r.value.items)))
            && (r.Ok? && !r.value.last ==>
                 here == Pages(s.env, endpoint, base, page + 1, total, s.log, acc + r.value.items))
  {
    ghost var log := s.log;
    r := FetchPage(s, endpoint, base, page);
    PagesTurn(s.env, endpoint, base, page, total, log, acc, s.log, r);
    if r.Ok? && !r.value.last {
      s.Wait(PAGE_PAUSE);
    }
  }

  /**
   * paginated_request. It never writes to the caller's params dict: each
   * page is requested with a fresh dict.
   */
  method PaginatedRequest(s: Session, endpoint: Endpoint, totalPages: int, params: Dict?)
    returns (r: Result<seq<Json>, Failure>)
    modifies s
    ensures params != null ==> params.entries == old(params.entries)
    ensures Pages(s.env, endpoint, BaseParams(if params == null then None else Some(old(params.entries))),
                  1, totalPages, old(s.log), []) == Step(s.log, r)
  {
    var base := if params == null then map[] else params.entries;
    r := PageLoop(s, endpoint, totalPages, base);
  }

  /** The page loop of paginated_request over the base params `base`. */
  method PageLoop(s: Session, endpoint: Endpoint, totalPages: int, base: map<string, Json>)
    returns (r: Result<seq<Json>, Failure>)
    modifies s
    ensures Pages(s.env, endpoint, base, 1, totalPages, old(s.log), []) == Step(s.log, r)
  {
    ghost var spec := Pages(s.env, endpoint, base, 1, totalPages, s.log, []);
    var allResults: seq<Json> := [];
    var page := 1;
    while page <= totalPages
      invariant 1 <= page
      invariant spec == Pages(s.env, endpoint, base, page, totalPages, s.log, allResults)
      decreases totalPages - page
    {
      var outcome := PageTurn(s, endpoint, base, page, totalPages, allResults);
      if outcome.Err? {
        return Err(outcome.error);
      }
      allResults := allResults + outcome.value.items;
      if outcome.value.last {
        return Ok(allResults);
      }
      page := page + 1;
    }
    return Ok(allResults);
  }
  // ---------------------------------------------------------------------
  // request_tmdb

  /** The events of attempts made earlier come first; the rest of the run does not depend on them. */
  lemma {:induction false} AttemptsAcc(env: Env, n: nat, req: Request, left: int, sleep: real, retries: int,
                                       done: seq<Event>)
    ensures var st := Attempts(env, n, req, left, sleep, retries, []);
            Attempts(env, n, req, left, sleep, retries, done) == Step(done + st.events, st.result)
    decreases left
  {
    if left > 0 {
      var response := env.server(n, req);
      if !RetriesAfter(response.status, sleep) {
        assert [] + [Exchange(req, response)] == [Exchange(req, response)];
      } else {
        var tried := [Exchange(req, response), Sleep(Backoff(response.status, sleep))];
        AttemptsAcc(env, n + 1, req, left - 1, sleep, retries, done + tried);
        AttemptsAcc(env, n + 1, req, left - 1, sleep, retries, tried);
        assert [] + tried == tried;
        var rest := Attempts(env, n + 1, req, left - 1, sleep, retries, []);
        assert done + tried + rest.events == done + (tried + rest.events);
      }
    } else {
      assert done + [] == done;
    }
  }

  /**
   * Position i of a run of attempts that began `n` requests into the run:
   * request number i/2 when i is even, the wait after its failure when i is odd.
   */
  predicate TraceAt(env: Env, n: nat, req: Request, sleep: real, events: seq<Event>, i: nat)
    requires i < |events|
  {
    if i % 2 == 0 then events[i] == Exchange(req, env.server(n + i / 2, req))
    else RetriesAfter(env.server(n + i / 2, req).status, sleep) &&
         events[i] == Sleep(Backoff(env.server(n + i / 2, req).status, sleep))
  }

  /** `events` follow the pattern of a run of attempts that began `n` requests into the run. */
  predicate Traced(env: Env, n: nat, req: Request, sleep: real, events: seq<Event>)
  {
    forall i :: 0 <= i < |events| ==> TraceAt(env, n, req, sleep, events, i)
  }

  /**
   * The run of `for attempt in range(retries)` in closed form. Request
   * number i/2 of the run sits at every even position i, answered by the
   * server; at every odd position is the wait after a response other than
   * 200: 2 seconds after a 429, `sleep` seconds otherwise, and never
   * negative.
   */
  lemma {:induction false} AttemptsTrace(env: Env, n: nat, req: Request, left: int, sleep: real, retries: int)
    ensures Traced(env, n, req, sleep, Attempts(env, n, req, left, sleep, retries, []).events)
    decreases left
  {
    var st := Attempts(env, n, req, left, sleep, retries, []);
    if left > 0 {
      var response := env.server(n, req);
      if RetriesAfter(response.status, sleep) {
        var tried := [Exchange(req, response), Sleep(Backoff(response.status, sleep))];
        var rest := Attempts(env, n + 1, req, left - 1, sleep, retries, []);
        assert st.events == tried + rest.events by {
          AttemptsAcc(env, n + 1, req, left - 1, sleep, retries, tried);
          assert [] + tried == tried;
        }
        AttemptsTrace(env, n + 1, req, left - 1, sleep, retries);
        TraceShift(env, n, req, sleep, rest.events, st.events);
      }
    }
  }

  /** A failed first attempt in front of a run of attempts that began one request later. */
  lemma TraceShift(env: Env, n: nat, req: Request, sleep: real, rest: seq<Event>, events: seq<Event>)
    requires RetriesAfter(env.server(n, req).status, sleep)
    requires events == [Exchange(req, env.server(n, req)), Sleep(Backoff(env.server(n, req).status, sleep))] + rest
    requires Traced(env, n + 1, req, sleep, rest)
    ensures Traced(env, n, req, sleep, events)
  {
    forall i | 0 <= i < |events|
      ensures TraceAt(env, n, req, sleep, events, i)
    {
      if i >= 2 {
        assert TraceAt(env, n + 1, req, sleep, rest, i - 2);
        assert events[i] == rest[i - 2];
        assert n + i / 2 == n + 1 + (i - 2) / 2 && i % 2 == (i - 2) % 2;
      }
    }
  }

  /**
   * How a run of attempts ends, after an odd number of events: at the first
   * 200, returning its body, or at a failure whose wait is negative, with
   * ValueError; or else after `left` failures, each followed by its wait
   * (nothing at all when `left <= 0`), with TMDBApiError.
   */
  lemma {:induction false} AttemptsEnd(env: Env, n: nat, req: Request, left: int, sleep: real, retries: int)
    ensures var st := Attempts(env, n, req, left, sleep, retries, []);
            var last := env.server(n + |st.events| / 2, req);
      && |st.events| <= 2 * Max0(left)
      && (st.result.Ok? ==> |st.events| % 2 == 1 && last == Response(200, st.result.value))
      && (st.result.Err? && st.result.error.Raised? ==>
            && |st.events| % 2 == 1 && last.status != 200 && !RetriesAfter(last.status, sleep)
            && st.result.error == Raised(ValueError(NEGATIVE_SLEEP)))
      && (st.result.Err? && !st.result.error.Raised? ==>
            |st.events| == 2 * Max0(left) && st.result.error == TMDBApiError(retries, req.url))
    decreases left
  {
    var st := Attempts(env, n, req, left, sleep, retries, []);
    if left > 0 {
      var response := env.server(n, req);
      if RetriesAfter(response.status, sleep) {
        var tried := [Exchange(req, response), Sleep(Backoff(response.status, sleep))];
        var rest := Attempts(env, n + 1, req, left - 1, sleep, retries, []);
        assert st == Step(tried + rest.events, rest.result) by {
          AttemptsAcc(env, n + 1, req, left - 1, sleep, retries, tried);
          assert [] + tried == tried;
        }
        AttemptsEnd(env, n + 1, req, left - 1, sleep, retries);
        assert |st.events| == |rest.events| + 2;
        assert n + |st.events| / 2 == n + 1 + |rest.events| / 2;
      } else if response.status == 200 {
        assert response == Response(200, response.body);
      }
    }
  }

  /** Every request of a run of attempts is `req`. */
  lemma {:induction false} AttemptsRequests(env: Env, n: nat, req: Request, left: int, sleep: real, retries: int)
    ensures AllRequests(Attempts(env, n, req, left, sleep, retries, []).events, req)
    decreases left
  {
    var st := Attempts(env, n, req, left, sleep, retries, []);
    if left > 0 {
      var response := env.server(n, req);
      if RetriesAfter(response.status, sleep) {
        var tried := [Exchange(req, response), Sleep(Backoff(response.status, sleep))];
        var rest := Attempts(env, n + 1, req, left - 1, sleep, retries, []);
        assert st.events == tried + rest.events by {
          AttemptsAcc(env, n + 1, req, left - 1, sleep, retries, tried);
          assert [] + tried == tried;
        }
        AttemptsRequests(env, n + 1, req, left - 1, sleep, retries);
        forall i | 0 <= i < |st.events| && st.events[i].Exchange?
          ensures st.events[i].request == req
        {
          if i >= 2 {
            assert st.events[i] == rest.events[i - 2];
          }
        }
      }
    }
  }

  /**
   * A run of attempts makes at most `left` requests, none when `left <= 0`:
   * every request but the last of a run that returns or raises ValueError
   * is a failure followed by its wait, 2 seconds after a 429 and `sleep`
   * seconds otherwise, and nothing follows a 200.
   */
  lemma {:induction false} AttemptsCount(env: Env, n: nat, req: Request, left: int, sleep: real, retries: int)
    ensures var st := Attempts(env, n, req, left, sleep, retries, []);
            && ExchangeCount(st.events) <= Max0(left)
            && |st.events| == 2 * ExchangeCount(st.events) - (if st.result.Ok? || st.result.error.Raised? then 1 else 0)
            && Traced(env, n, req, sleep, st.events)
    decreases left
  {
    var st := Attempts(env, n, req, left, sleep, retries, []);
    AttemptsTrace(env, n, req, left, sleep, retries);
    if left > 0 {
      var response := env.server(n, req);
      var ex := Exchange(req, response);
      if !RetriesAfter(response.status, sleep) {
        assert st.events == [ex];
        assert ExchangeCount([ex]) == 1 by {
          assert [ex][..0] == [];
        }
      } else {
        var tried := [ex, Sleep(Backoff(response.status, sleep))];
        var rest := Attempts(env, n + 1, req, left - 1, sleep, retries, []);
        assert st == Step(tried + rest.events, rest.result) by {
          AttemptsAcc(env, n + 1, req, left - 1, sleep, retries, tried);
          assert [] + tried == tried;
        }
        assert ExchangeCount(st.events) == 1 + ExchangeCount(rest.events) by {
          FailedAttemptCounts(ex, Backoff(response.status, sleep));
          CountAppend(tried, rest.events);
        }
        assert st.result == rest.result;
        AttemptsCount(env, n + 1, req, left - 1, sleep, retries);
      }
    }
  }

  /** The one 200 response of a run of attempts is its last request, when it returns a body. */
  lemma {:induction false} AttemptsOk(env: Env, n: nat, req: Request, left: int, sleep: real, retries: int)
    ensures var st := Attempts(env, n, req, left, sleep, retries, []);
            OkExchanges(st.events) == (if st.result.Ok? then [Exchange(req, Response(200, st.result.value))] else [])
    decreases left
  {
    var st := Attempts(env, n, req, left, sleep, retries, []);
    if left > 0 {
      var response := env.server(n, req);
      var ex := Exchange(req, response);
      if response.status == 200 {
        assert st == Step([ex], Ok(response.body)) by {
          assert [] + [ex] == [ex];
        }
        OkExchange(req, response.body);
      } else if !RetriesAfter(response.status, sleep) {
        assert st.events == [ex] && st.result.Err?;
        assert OkExchanges([ex]) == [] by {
          assert [ex][..0] == [];
        }
      } else {
        var tried := [ex, Sleep(Backoff(response.status, sleep))];
        var rest := Attempts(env, n + 1, req, left - 1, sleep, retries, []);
        AttemptsOk(env, n + 1, req, left - 1, sleep, retries);
        assert st == Step(tried + rest.events, rest.result) by {
          AttemptsAcc(env, n + 1, req, left - 1, sleep, retries, tried);
          assert [] + tried == tried;
        }
        assert OkExchanges(st.events) == OkExchanges(rest.events) by {
          FailedAttemptCounts(ex, Backoff(response.status, sleep));
          OkAppend(tried, rest.events);
        }
      }
    }
  }

  /**
   * request_tmdb raises TMDBApiError exactly when every one of its
   * `retries` responses is a failure it waits after, after making all
   * `retries` requests. Otherwise the first response it does not wait after,
   * the k+1-th, is its last request: a 200, whose body it returns, or a
   * failure whose wait is negative, for which `time.sleep` raises
   * ValueError. With `sleep >= 0` that is simply the first 200.
   */
  lemma RequestOutcome(env: Env, n: nat, req: Request, retries: int, sleep: real)
    ensures var st := Attempts(env, n, req, retries, sleep, retries, []);
      && (st.result.Ok? || st.result == Err(TMDBApiError(retries, req.url)) ||
          st.result == Err(Raised(ValueError(NEGATIVE_SLEEP))))
      && (st.result == Err(TMDBApiError(retries, req.url)) <==>
            forall k :: n <= k < n + retries ==> RetriesAfter(env.server(k, req).status, sleep))
      && (st.result == Err(TMDBApiError(retries, req.url)) ==> ExchangeCount(st.events) == Max0(retries))
      && (forall k ::
            (n <= k < n + retries && !RetriesAfter(env.server(k, req).status, sleep) &&
             forall j :: n <= j < k ==> RetriesAfter(env.server(j, req).status, sleep)) ==>
            && ExchangeCount(st.events) == k - n + 1
            && (env.server(k, req).status == 200 ==> st.result == Ok(env.server(k, req).body))
            && (env.server(k, req).status != 200 ==> st.result == Err(Raised(ValueError(NEGATIVE_SLEEP)))))
  {
    var st := Attempts(env, n, req, retries, sleep, retries, []);
    AttemptsEnd(env, n, req, retries, sleep, retries);
    AttemptsCount(env, n, req, retries, sleep, retries);
    OutcomeOf(env, n, req, retries, sleep, st);
  }

  /** RequestOutcome for any run with the shape that AttemptsEnd and AttemptsCount give a run of attempts. */
  lemma OutcomeOf(env: Env, n: nat, req: Request, retries: int, sleep: real, st: Step<Json>)
    requires Traced(env, n, req, sleep, st.events)
    requires ExchangeCount(st.events) <= Max0(retries)
    requires |st.events| == 2 * ExchangeCount(st.events) - (if st.result.Ok? || st.result.error.Raised? then 1 else 0)
    requires st.result.Ok? ==> env.server(n + |st.events| / 2, req) == Response(200, st.result.value)
    requires st.result.Err? && st.result.error.Raised? ==>
      && env.server(n + |st.events| / 2, req).status != 200
      && !RetriesAfter(env.server(n + |st.events| / 2, req).status, sleep)
      && st.result.error == Raised(ValueError(NEGATIVE_SLEEP))
    requires st.result.Err? && !st.result.error.Raised? ==>
      |st.events| == 2 * Max0(retries) && st.result.error == TMDBApiError(retries, req.url)
    ensures st.result.Ok? || st.result == Err(TMDBApiError(retries, req.url)) ||
            st.result == Err(Raised(ValueError(NEGATIVE_SLEEP)))
    ensures st.result == Err(TMDBApiError(retries, req.url)) <==>
            forall k :: n <= k < n + retries ==> RetriesAfter(env.server(k, req).status, sleep)
    ensures st.result == Err(TMDBApiError(retries, req.url)) ==> ExchangeCount(st.events) == Max0(retries)
    ensures forall k ::
            (n <= k < n + retries && !RetriesAfter(env.server(k, req).status, sleep) &&
             forall j :: n <= j < k ==> RetriesAfter(env.server(j, req).status, sleep)) ==>
            && ExchangeCount(st.events) == k - n + 1
            && (env.server(k, req).status == 200 ==> st.result == Ok(env.server(k, req).body))
            && (env.server(k, req).status != 200 ==> st.result == Err(Raised(ValueError(NEGATIVE_SLEEP))))
  {
    var m := |st.events|;
    forall j | n <= j < n + m / 2
      ensures RetriesAfter(env.server(j, req).status, sleep)
    {
      var i := 2 * (j - n) + 1;
      assert i < m && i % 2 == 1 && i / 2 == j - n;
      assert TraceAt(env, n, req, sleep, st.events, i);
    }
    var p: nat := n + m / 2;
    if m % 2 == 1 {
      // The run stopped at request p, which it did not wait after.
      assert p < n + retries && !RetriesAfter(env.server(p, req).status, sleep);
      forall k: nat | n <= k < n + retries && !RetriesAfter(env.server(k, req).status, sleep) &&
                 forall j :: n <= j < k ==> RetriesAfter(env.server(j, req).status, sleep)
        ensures k == p
      {
        assert k < p ==> RetriesAfter(env.server(k, req).status, sleep);
        assert p < k ==> RetriesAfter(env.server(p, req).status, sleep);
      }
    }
  }

  /** request_tmdb writes no file. */
  lemma AttemptsSaveNothing(env: Env, n: nat, req: Request, left: int, sleep: real, retries: int)
    ensures SavedFiles(Attempts(env, n, req, left, sleep, retries, []).events) == []
  {
    var events := Attempts(env, n, req, left, sleep, retries, []).events;
    AttemptsTrace(env, n, req, left, sleep, retries);
    forall i | 0 <= i < |events|
      ensures !events[i].Saved?
    {
      assert TraceAt(env, n, req, sleep, events, i);
    }
    SavedFilesIn(events);
  }

  /**
   * Every request of request_tmdb goes to `BASE_URL + endpoint` with the
   * caller's params and with `api_key` set to the configured key.
   */
  lemma RequestCarriesApiKey(env: Env, n: nat, endpoint: Endpoint, params: map<string, Json>,
                             retries: int, sleep: real)
    ensures var st := RequestSpec(env, n, endpoint, params, retries, sleep);
      forall i :: 0 <= i < |st.events| && st.events[i].Exchange? ==>
        && st.events[i].request.url == Url(BASE_URL, endpoint)
        && st.events[i].request.params.Keys == params.Keys + {"api_key"}
        && st.events[i].request.params["api_key"] == env.apiKey
        && forall k :: k in params && k != "api_key" ==> st.events[i].request.params[k] == params[k]
  {
    var req := TmdbRequest(env, endpoint, params);
    AttemptsRequests(env, n, req, retries, sleep, retries);
  }

  // ---------------------------------------------------------------------
  // paginated_request

  /** The `results` lists of a sequence of page responses, concatenated in order. */
  function ResultsOf(oks: seq<Event>): seq<Json>
  {
    if oks == [] then []
    else
      (if oks[0].Exchange? && PageResults(oks[0].response.body).Ok? then PageResults(oks[0].response.body).value
       else []) + ResultsOf(oks[1..])
  }

  /**
   * What one page turn reads: at most one 200 response, and when the turn
   * goes on, one whose `results` and `total_pages` it went on with.
   */
  predicate RoundReads(r: Step<PageEnd>, page: int)
  {
    var ro := OkExchanges(r.events);
    && |ro| <= 1
    && (r.result.Ok? ==>
          && |ro| == 1
          && PageResults(ro[0].response.body) == Ok(r.result.value.items)
          && IsLastPage(page, ro[0].response.body) == Ok(r.result.value.last))
  }

  /**
   * What one page turn sends: only the request for page `page`, and it
   * fails only with TMDBApiError for the endpoint or a Python error.
   */
  predicate RoundSends(env: Env, endpoint: Endpoint, base: map<string, Json>, r: Step<PageEnd>, page: int)
  {
    var req := TmdbRequest(env, endpoint, PageParams(base, page));
    && AllRequests(r.events, req)
    && (forall k :: 0 <= k < |OkExchanges(r.events)| ==>
          OkExchanges(r.events)[k] == Exchange(req, Response(200, OkExchanges(r.events)[k].response.body)))
    && (r.result.Err? ==>
          r.result.error == TMDBApiError(DEFAULT_RETRIES, Url(BASE_URL, endpoint)) || r.result.error.Raised?)
  }

  /** A loop body that reads every page as paginated_request does. */
  ghost predicate ReadsPages(round: (seq<Event>, int) -> Step<PageEnd>)
  {
    forall log: seq<Event>, page: int :: RoundReads(round(log, page), page)
  }

  /** A loop body that sends requests for `endpoint` as paginated_request does. */
  ghost predicate SendsPages(round: (seq<Event>, int) -> Step<PageEnd>, env: Env, endpoint: Endpoint, base: map<string, Json>)
  {
    forall log: seq<Event>, page: int :: RoundSends(env, endpoint, base, round(log, page), page)
  }

  /** One page turn, given what request_tmdb's closed form says of the request. */
  lemma RoundOfFacts(env: Env, endpoint: Endpoint, base: map<string, Json>, st: Step<Json>, page: int)
    requires var req := TmdbRequest(env, endpoint, PageParams(base, page));
      && OkExchanges(st.events) == (if st.result.Ok? then [Exchange(req, Response(200, st.result.value))] else [])
      && AllRequests(st.events, req)
      && (st.result.Err? ==> st.result.error == TMDBApiError(DEFAULT_RETRIES, Url(BASE_URL, endpoint)) || st.result.error.Raised?)
    ensures RoundReads(RoundOf(st, page), page)
    ensures RoundSends(env, endpoint, base, RoundOf(st, page), page)
  {
  }

  /** One page turn, read off request_tmdb's closed form. */
  lemma RoundTrace(env: Env, endpoint: Endpoint, base: map<string, Json>, page: int, log: seq<Event>)
    ensures RoundReads(PageRound(env, ExchangeCount(log), endpoint, base, page), page)
    ensures RoundSends(env, endpoint, base, PageRound(env, ExchangeCount(log), endpoint, base, page), page)
  {
    var req := TmdbRequest(env, endpoint, PageParams(base, page));
    var n := ExchangeCount(log);
    AttemptsOk(env, n, req, DEFAULT_RETRIES, DEFAULT_SLEEP, DEFAULT_RETRIES);
    AttemptsRequests(env, n, req, DEFAULT_RETRIES, DEFAULT_SLEEP, DEFAULT_RETRIES);
    AttemptsEnd(env, n, req, DEFAULT_RETRIES, DEFAULT_SLEEP, DEFAULT_RETRIES);
    RoundOfFacts(env, endpoint, base, RequestSpec(env, n, endpoint, PageParams(base, page), DEFAULT_RETRIES, DEFAULT_SLEEP), page);
  }

  /** paginated_request's loop body reads and sends as it should, from every log and for every page. */
  lemma PageRoundsFacts(env: Env, endpoint: Endpoint, base: map<string, Json>)
    ensures ReadsPages(PageRounds(env, endpoint, base))
    ensures SendsPages(PageRounds(env, endpoint, base), env, endpoint, base)
  {
    forall log: seq<Event>, page: int
      ensures RoundReads(PageRounds(env, endpoint, base)(log, page), page)
      ensures RoundSends(env, endpoint, base, PageRounds(env, endpoint, base)(log, page), page)
    {
      RoundTrace(env, endpoint, base, page, log);
    }
  }

  /** One page turn that writes no file. */
  predicate RoundSavesNothing(r: Step<PageEnd>)
  {
    SavedFiles(r.events) == []
  }

  /** A loop body that writes no file. */
  ghost predicate SavesNothing(round: (seq<Event>, int) -> Step<PageEnd>)
  {
    forall log: seq<Event>, page: int :: RoundSavesNothing(round(log, page))
  }

  lemma PageRoundsSaveNothing(env: Env, endpoint: Endpoint, base: map<string, Json>)
    ensures SavesNothing(PageRounds(env, endpoint, base))
  {
    forall log: seq<Event>, page: int
      ensures RoundSavesNothing(PageRounds(env, endpoint, base)(log, page))
    {
      AttemptsSaveNothing(env, ExchangeCount(log), TmdbRequest(env, endpoint, PageParams(base, page)),
                          DEFAULT_RETRIES, DEFAULT_SLEEP, DEFAULT_RETRIES);
    }
  }

  /** The files written by a turn, its pause and the turns after it. */
  lemma SavedAcrossPause(events: seq<Event>, tail: seq<Event>)
    requires SavedFiles(events) == [] && SavedFiles(tail) == []
    ensures SavedFiles(events + [Sleep(PAGE_PAUSE)] + tail) == []
  {
    assert [Sleep(PAGE_PAUSE)][..0] == [];
    assert SavedFiles([Sleep(PAGE_PAUSE)]) == [];
    SavedAppend(events, [Sleep(PAGE_PAUSE)]);
    SavedAppend(events + [Sleep(PAGE_PAUSE)], tail);
  }

  /** A page loop whose body writes no file writes none. */
  lemma {:induction false} PagesOfSaveNothing(round: (seq<Event>, int) -> Step<PageEnd>, page: int, total: int,
                                              log: seq<Event>, acc: seq<Json>)
    requires SavesNothing(round)
    ensures var st := PagesOf(round, page, total, log, acc);
            |log| <= |st.events| && SavedFiles(st.events[|log|..]) == []
    decreases total - page + 1
  {
    var st := PagesOf(round, page, total, log, acc);
    PagesOfPrefix(round, page, total, log, acc);
    if page > total {
      assert st.events[|log|..] == [];
    } else {
      var r := round(log, page);
      assert RoundSavesNothing(r);
      if r.result.Err? || r.result.value.last {
        assert st.events == log + r.events;
        assert st.events[|log|..] == r.events;
      } else {
        var log2 := log + r.events + [Sleep(PAGE_PAUSE)];
        PagesOfPrefix(round, page + 1, total, log2, acc + r.result.value.items);
        PagesOfSaveNothing(round, page + 1, total, log2, acc + r.result.value.items);
        SplitAdded(st.events, log, r.events, PAGE_PAUSE);
        SavedAcrossPause(r.events, st.events[|log2|..]);
      }
    }
  }

  /** Every request in `events` asks for a page between `first` and `last`. */
  predicate PageRequests(env: Env, endpoint: Endpoint, base: map<string, Json>, events: seq<Event>,
                         first: int, last: int)
  {
    forall i :: 0 <= i < |events| && events[i].Exchange? ==>
      exists q :: first <= q <= last && events[i].request == TmdbRequest(env, endpoint, PageParams(base, q))
  }

  lemma PageRequestsOne(env: Env, endpoint: Endpoint, base: map<string, Json>, events: seq<Event>,
                        page: int, last: int)
    requires page <= last
    requires AllRequests(events, TmdbRequest(env, endpoint, PageParams(base, page)))
    ensures PageRequests(env, endpoint, base, events, page, last)
  {
    forall i | 0 <= i < |events| && events[i].Exchange?
      ensures exists q :: page <= q <= last && events[i].request == TmdbRequest(env, endpoint, PageParams(base, q))
    {
      assert events[i].request == TmdbRequest(env, endpoint, PageParams(base, page));
    }
  }

  lemma PageRequestsAppend(env: Env, endpoint: Endpoint, base: map<string, Json>, a: seq<Event>, b: seq<Event>,
                           first: int, later: int, last: int)
    requires first <= later
    requires PageRequests(env, endpoint, base, a, first, last)
    requires PageRequests(env, endpoint, base, b, later, last)
    ensures PageRequests(env, endpoint, base, a + b, first, last)
  {
    forall i | 0 <= i < |a + b| && (a + b)[i].Exchange?
      ensures exists q :: first <= q <= last && (a + b)[i].request == TmdbRequest(env, endpoint, PageParams(base, q))
    {
      if i >= |a| {
        assert (a + b)[i] == b[i - |a|];
      } else {
        assert (a + b)[i] == a[i];
      }
    }
  }

  /** The events after `log` in a log that begins with `log + mid + [Sleep(w)]`. */
  lemma SplitAdded(events: seq<Event>, log: seq<Event>, mid: seq<Event>, w: real)
    requires |log + mid + [Sleep(w)]| <= |events|
    requires events[..|log + mid + [Sleep(w)]|] == log + mid + [Sleep(w)]
    ensures |log| <= |events| && events[..|log|] == log
    ensures events[|log|..] == mid + [Sleep(w)] + events[|log + mid + [Sleep(w)]|..]
    ensures OkExchanges(events[|log|..]) == OkExchanges(mid) + OkExchanges(events[|log + mid + [Sleep(w)]|..])
  {
    var k := |log + mid + [Sleep(w)]|;
    assert events[..|log|] == (log + mid + [Sleep(w)])[..|log|];
    assert events[|log|..] == events[|log|..k] + events[k..];
    assert events[|log|..k] == mid + [Sleep(w)];
    assert OkExchanges([Sleep(w)]) == [] by {
      assert [Sleep(w)][..0] == [];
    }
    LogAppend(mid, [Sleep(w)]);
    LogAppend(mid + [Sleep(w)], events[k..]);
  }

  /**
   * The page loop from page `page` on keeps the log it was given, and adds
   * nothing when `page > total`, when it returns the results collected so far.
   */
  lemma {:induction false} PagesOfPrefix(round: (seq<Event>, int) -> Step<PageEnd>, page: int, total: int,
                                         log: seq<Event>, acc: seq<Json>)
    ensures var st := PagesOf(round, page, total, log, acc);
      && |log| <= |st.events| && st.events[..|log|] == log
      && (page > total ==> st == Step(log, Ok(acc)))
    decreases total - page + 1
  {
    if page <= total {
      var r := round(log, page);
      var st := PagesOf(round, page, total, log, acc);
      if r.result.Ok? && !r.result.value.last {
        var log2 := log + r.events + [Sleep(PAGE_PAUSE)];
        PagesOfPrefix(round, page + 1, total, log2, acc + r.result.value.items);
        assert st.events[..|log|] == st.events[..|log2|][..|log|];
      } else {
        assert st.events == log + r.events;
      }
    }
  }

  /**
   * The page loop adds only requests for pages `page` .. `total`, and fails
   * only with TMDBApiError for the endpoint or with a Python error raised
   * while reading a page.
   */
  lemma {:induction false} PagesOfRequests(round: (seq<Event>, int) -> Step<PageEnd>, env: Env, endpoint: Endpoint,
                                           base: map<string, Json>, page: int, total: int,
                                           log: seq<Event>, acc: seq<Json>)
    requires SendsPages(round, env, endpoint, base)
    ensures var st := PagesOf(round, page, total, log, acc);
      && |log| <= |st.events|
      && PageRequests(env, endpoint, base, st.events[|log|..], page, total)
      && (st.result.Err? ==>
            st.result.error == TMDBApiError(DEFAULT_RETRIES, Url(BASE_URL, endpoint)) || st.result.error.Raised?)
    decreases total - page + 1
  {
    var st := PagesOf(round, page, total, log, acc);
    PagesOfPrefix(round, page, total, log, acc);
    if page > total {
      assert st.events[|log|..] == [];
    } else {
      var r := round(log, page);
      assert RoundSends(env, endpoint, base, r, page);
      PageRequestsOne(env, endpoint, base, r.events, page, total);
      if r.result.Err? || r.result.value.last {
        assert st.events == log + r.events;
        assert st.events[|log|..] == r.events;
      } else {
        var log2 := log + r.events + [Sleep(PAGE_PAUSE)];
        PagesOfPrefix(round, page + 1, total, log2, acc + r.result.value.items);
        PagesOfRequests(round, env, endpoint, base, page + 1, total, log2, acc + r.result.value.items);
        SplitAdded(st.events, log, r.events, PAGE_PAUSE);
        var tail := st.events[|log2|..];
        PageRequestsAppend(env, endpoint, base, [Sleep(PAGE_PAUSE)], tail, page + 1, page + 1, total);
        PageRequestsAppend(env, endpoint, base, r.events, [Sleep(PAGE_PAUSE)] + tail, page, page + 1, total);
        assert r.events + [Sleep(PAGE_PAUSE)] + tail == r.events + ([Sleep(PAGE_PAUSE)] + tail);
      }
    }
  }

  /** The `page` parameter a request of the log was sent with (0 for any other event). */
  function RequestedPage(e: Event): int
  {
    if e.Exchange? && "page" in e.request.params && e.request.params["page"].JNum? then e.request.params["page"].n.Floor
    else 0
  }

  /** The requests of `events` ask for pages in increasing order: a page's retries, then the next page. */
  predicate PagesAscending(events: seq<Event>)
  {
    forall i, j :: 0 <= i < j < |events| && events[i].Exchange? && events[j].Exchange? ==>
      RequestedPage(events[i]) <= RequestedPage(events[j])
  }

  /** Every request of `events` asks for page `first` or a later one. */
  predicate PagesFrom(events: seq<Event>, first: int)
  {
    forall i :: 0 <= i < |events| && events[i].Exchange? ==> RequestedPage(events[i]) >= first
  }

  /** Every request of `events` asks for page `last` or an earlier one. */
  predicate PagesUpTo(events: seq<Event>, last: int)
  {
    forall i :: 0 <= i < |events| && events[i].Exchange? ==> RequestedPage(events[i]) <= last
  }

  /** The requests of one page turn all ask for that page. */
  lemma OnePage(env: Env, endpoint: Endpoint, base: map<string, Json>, events: seq<Event>, page: int)
    requires AllRequests(events, TmdbRequest(env, endpoint, PageParams(base, page)))
    ensures PagesAscending(events) && PagesFrom(events, page) && PagesUpTo(events, page)
  {
    var req := TmdbRequest(env, endpoint, PageParams(base, page));
    assert "page" in req.params && req.params["page"] == JNum(page as real);
    assert (page as real).Floor == page;
  }

  /** Requests for pages up to `p` followed by requests for pages from `p` on stay in page order. */
  lemma AscendingJoin(a: seq<Event>, b: seq<Event>, p: int)
    requires PagesAscending(a) && PagesUpTo(a, p)
    requires PagesAscending(b) && PagesFrom(b, p)
    ensures PagesAscending(a + b)
  {
    forall i, j | 0 <= i < j < |a + b| && (a + b)[i].Exchange? && (a + b)[j].Exchange?
      ensures RequestedPage((a + b)[i]) <= RequestedPage((a + b)[j])
    {
      if j < |a| {
        assert (a + b)[i] == a[i] && (a + b)[j] == a[j];
      } else if i < |a| {
        assert (a + b)[i] == a[i] && (a + b)[j] == b[j - |a|];
      } else {
        assert (a + b)[i] == b[i - |a|] && (a + b)[j] == b[j - |a|];
      }
    }
  }

  /** Requests for pages from `p` on, joined. */
  lemma FromJoin(a: seq<Event>, b: seq<Event>, p: int)
    requires PagesFrom(a, p) && PagesFrom(b, p)
    ensures PagesFrom(a + b, p)
  {
    forall i | 0 <= i < |a + b| && (a + b)[i].Exchange?
      ensures RequestedPage((a + b)[i]) >= p
    {
      if i < |a| {
        assert (a + b)[i] == a[i];
      } else {
        assert (a + b)[i] == b[i - |a|];
      }
    }
  }

  /** A turn for page `p`, its pause and the turns for the later pages, in page order. */
  lemma TurnAscending(events: seq<Event>, tail: seq<Event>, p: int)
    requires PagesAscending(events) && PagesFrom(events, p) && PagesUpTo(events, p)
    requires PagesAscending(tail) && PagesFrom(tail, p + 1)
    ensures PagesAscending(events + [Sleep(PAGE_PAUSE)] + tail)
    ensures PagesFrom(events + [Sleep(PAGE_PAUSE)] + tail, p)
  {
    var pause := [Sleep(PAGE_PAUSE)];
    assert PagesAscending(pause) && PagesFrom(pause, p) && PagesUpTo(pause, p);
    AscendingJoin(events, pause, p);
    FromJoin(events, pause, p);
    assert PagesUpTo(events + pause, p) by {
      forall i | 0 <= i < |events + pause| && (events + pause)[i].Exchange?
        ensures RequestedPage((events + pause)[i]) <= p
      {
        assert i < |events| && (events + pause)[i] == events[i];
      }
    }
    AscendingJoin(events + pause, tail, p);
    FromJoin(events + pause, tail, p);
  }

  /**
   * The page loop from page `page` on asks for pages in increasing order,
   * none before `page`: page q + 1 is asked for only after every attempt
   * at page q.
   */
  lemma {:induction false} PagesOfAscending(round: (seq<Event>, int) -> Step<PageEnd>, env: Env, endpoint: Endpoint,
                                            base: map<string, Json>, page: int, total: int,
                                            log: seq<Event>, acc: seq<Json>)
    requires SendsPages(round, env, endpoint, base)
    ensures var st := PagesOf(round, page, total, log, acc);
      && |log| <= |st.events|
      && PagesAscending(st.events[|log|..]) && PagesFrom(st.events[|log|..], page)
    decreases total - page + 1
  {
    var st := PagesOf(round, page, total, log, acc);
    PagesOfPrefix(round, page, total, log, acc);
    if page > total {
      assert st.events[|log|..] == [];
    } else {
      var r := round(log, page);
      assert RoundSends(env, endpoint, base, r, page);
      OnePage(env, endpoint, base, r.events, page);
      if r.result.Err? || r.result.value.last {
        assert st.events == log + r.events;
        assert st.events[|log|..] == r.events;
      } else {
        var log2 := log + r.events + [Sleep(PAGE_PAUSE)];
        PagesOfPrefix(round, page + 1, total, log2, acc + r.result.value.items);
        PagesOfAscending(round, env, endpoint, base, page + 1, total, log2, acc + r.result.value.items);
        SplitAdded(st.events, log, r.events, PAGE_PAUSE);
        TurnAscending(r.events, st.events[|log2|..], page);
      }
    }
  }

  /** `oks` are 200 responses to the requests for pages `first`, `first + 1`, ... in this order. */
  predicate InPageOrder(env: Env, endpoint: Endpoint, base: map<string, Json>, oks: seq<Event>, first: int)
  {
    forall k :: 0 <= k < |oks| ==>
      oks[k].Exchange? &&
      oks[k] == Exchange(TmdbRequest(env, endpoint, PageParams(base, first + k)), Response(200, oks[k].response.body))
  }

  lemma InPageOrderAppend(env: Env, endpoint: Endpoint, base: map<string, Json>, a: seq<Event>, b: seq<Event>,
                          first: int)
    requires |a| == 1
    requires InPageOrder(env, endpoint, base, a, first)
    requires InPageOrder(env, endpoint, base, b, first + 1)
    ensures InPageOrder(env, endpoint, base, a + b, first)
  {
    forall k | 0 <= k < |a + b|
      ensures (a + b)[k].Exchange? &&
              (a + b)[k] == Exchange(TmdbRequest(env, endpoint, PageParams(base, first + k)),
                                     Response(200, (a + b)[k].response.body))
    {
      if k == 0 {
        assert (a + b)[k] == a[0];
      } else {
        assert (a + b)[k] == b[k - 1] && first + k == first + 1 + (k - 1);
      }
    }
  }

  /**
   * The 200 responses the page loop gets from page `page` on answer the
   * requests for pages `page`, `page + 1`, ... in this order, one each, and
   * there are no more of them than pages in the budget.
   */
  lemma {:induction false} PagesOfOrder(round: (seq<Event>, int) -> Step<PageEnd>, env: Env, endpoint: Endpoint,
                                        base: map<string, Json>, page: int, total: int,
                                        log: seq<Event>, acc: seq<Json>)
    requires ReadsPages(round)
    requires SendsPages(round, env, endpoint, base)
    ensures var st := PagesOf(round, page, total, log, acc);
      && |log| <= |st.events|
      && var oks := OkExchanges(st.events[|log|..]);
      && |oks| <= Max0(total - page + 1)
      && InPageOrder(env, endpoint, base, oks, page)
    decreases total - page + 1
  {
    var st := PagesOf(round, page, total, log, acc);
    PagesOfPrefix(round, page, total, log, acc);
    if page > total {
      assert st.events[|log|..] == [];
    } else {
      var r := round(log, page);
      var ro := OkExchanges(r.events);
      assert RoundReads(r, page) && RoundSends(env, endpoint, base, r, page);
      assert InPageOrder(env, endpoint, base, ro, page);
      if r.result.Err? || r.result.value.last {
        assert st.events[|log|..] == r.events by {
          assert st.events == log + r.events;
        }
      } else {
        var log2 := log + r.events + [Sleep(PAGE_PAUSE)];
        PagesOfPrefix(round, page + 1, total, log2, acc + r.result.value.items);
        PagesOfOrder(round, env, endpoint, base, page + 1, total, log2, acc + r.result.value.items);
        SplitAdded(st.events, log, r.events, PAGE_PAUSE);
        var oks2 := OkExchanges(st.events[|log2|..]);
        InPageOrderAppend(env, endpoint, base, ro, oks2, page);
      }
    }
  }

  /** Page `p` of a budget of `total` pages is where the loop stops: the `break`, or the end of the budget. */
  predicate StopsAt(p: int, total: int, data: Json)
  {
    IsLastPage(p, data).Ok? && (IsLastPage(p, data).value || p == total)
  }

  /**
   * `oks`, the responses to pages `first`, `first + 1`, ..., each had a
   * `results` list; every page but the last reported that more pages
   * follow, and the loop stopped at the last one.
   */
  predicate PagesRead(oks: seq<Event>, first: int, total: int)
  {
    && (forall k :: 0 <= k < |oks| ==> oks[k].Exchange? && PageResults(oks[k].response.body).Ok?)
    && (forall k :: 0 <= k < |oks| - 1 ==> oks[k].Exchange? && IsLastPage(first + k, oks[k].response.body) == Ok(false))
    && (oks != [] ==> oks[|oks| - 1].Exchange? && StopsAt(first + |oks| - 1, total, oks[|oks| - 1].response.body))
  }

  lemma ResultsOfCons(e: Event, rest: seq<Event>)
    requires e.Exchange? && PageResults(e.response.body).Ok?
    ensures ResultsOf([e] + rest) == PageResults(e.response.body).value + ResultsOf(rest)
  {
    assert ([e] + rest)[0] == e && ([e] + rest)[1..] == rest;
  }

  lemma PagesReadCons(e: Event, rest: seq<Event>, first: int, total: int)
    requires e.Exchange? && PageResults(e.response.body).Ok?
    requires IsLastPage(first, e.response.body) == Ok(false)
    requires rest == [] ==> first == total
    requires PagesRead(rest, first + 1, total)
    ensures PagesRead([e] + rest, first, total)
  {
    var oks := [e] + rest;
    assert oks[0] == e && oks[1..] == rest;
    forall k | 1 <= k < |oks|
      ensures oks[k] == rest[k - 1] && first + k == first + 1 + (k - 1)
    {
    }
    if rest != [] {
      assert oks[|oks| - 1] == rest[|rest| - 1];
    }
  }

  /** The results of one more page, in front of those of the pages after it. */
  lemma ResultsJoin(acc: seq<Json>, items: seq<Json>, ro: seq<Event>, rest: seq<Event>, value: seq<Json>)
    requires |ro| == 1 && ro[0].Exchange? && PageResults(ro[0].response.body) == Ok(items)
    requires value == acc + items + ResultsOf(rest)
    ensures value == acc + ResultsOf(ro + rest)
  {
    ResultsOfCons(ro[0], rest);
    assert ro == [ro[0]];
    assert rest == [] ==> ResultsOf(rest) == [];
    assert acc + items + ResultsOf(rest) == acc + (items + ResultsOf(rest));
  }

  /** A page that is not the last one: its 200 response comes first among those of the rest of the loop. */
  lemma PagesOfContinue(round: (seq<Event>, int) -> Step<PageEnd>, page: int, total: int,
                        log: seq<Event>, acc: seq<Json>)
    requires ReadsPages(round)
    requires page <= total
    requires round(log, page).result.Ok? && !round(log, page).result.value.last
    ensures var r := round(log, page);
            var items := r.result.value.items;
            var log2 := log + r.events + [Sleep(PAGE_PAUSE)];
            var st := PagesOf(round, page, total, log, acc);
            var ro := OkExchanges(r.events);
      && st == PagesOf(round, page + 1, total, log2, acc + items)
      && |log2| <= |st.events| && |log| <= |st.events|
      && |ro| == 1
      && PageResults(ro[0].response.body) == Ok(items)
      && IsLastPage(page, ro[0].response.body) == Ok(false)
      && OkExchanges(st.events[|log|..]) == ro + OkExchanges(st.events[|log2|..])
  {
    var r := round(log, page);
    var log2 := log + r.events + [Sleep(PAGE_PAUSE)];
    var st := PagesOf(round, page, total, log, acc);
    assert RoundReads(r, page);
    PagesOfPrefix(round, page + 1, total, log2, acc + r.result.value.items);
    SplitAdded(st.events, log, r.events, PAGE_PAUSE);
  }

  /** The last page: its 200 response is the only one added to `log`. */
  lemma PagesOfLast(round: (seq<Event>, int) -> Step<PageEnd>, page: int, total: int,
                    log: seq<Event>, acc: seq<Json>)
    requires ReadsPages(round)
    requires page <= total
    requires round(log, page).result.Ok? && round(log, page).result.value.last
    ensures var r := round(log, page);
            var st := PagesOf(round, page, total, log, acc);
            var ro := OkExchanges(r.events);
      && st == Step(log + r.events, Ok(acc + r.result.value.items))
      && st.events[|log|..] == r.events
      && |ro| == 1
      && PageResults(ro[0].response.body) == Ok(r.result.value.items)
      && IsLastPage(page, ro[0].response.body) == Ok(true)
      && PagesRead(ro, page, total)
  {
    var r := round(log, page);
    assert RoundReads(r, page);
    assert (log + r.events)[|log|..] == r.events;
  }

  /**
   * What the page loop returns from page `page` on: the results collected
   * so far followed by the `results` of each page's response in page order.
   */
  lemma {:induction false} PagesOfValue(round: (seq<Event>, int) -> Step<PageEnd>, page: int, total: int,
                                        log: seq<Event>, acc: seq<Json>)
    requires ReadsPages(round)
    ensures var st := PagesOf(round, page, total, log, acc);
      && |log| <= |st.events|
      && (st.result.Ok? ==> st.result.value == acc + ResultsOf(OkExchanges(st.events[|log|..])))
    decreases total - page + 1
  {
    var st := PagesOf(round, page, total, log, acc);
    PagesOfPrefix(round, page, total, log, acc);
    if page > total {
      assert st.events[|log|..] == [];
      assert acc + [] == acc;
    } else {
      var r := round(log, page);
      if r.result.Ok? {
        var items := r.result.value.items;
        var ro := OkExchanges(r.events);
        if r.result.value.last {
          PagesOfLast(round, page, total, log, acc);
          ResultsJoin(acc, items, ro, [], acc + items);
        } else {
          var log2 := log + r.events + [Sleep(PAGE_PAUSE)];
          PagesOfContinue(round, page, total, log, acc);
          PagesOfValue(round, page + 1, total, log2, acc + items);
          if st.result.Ok? {
            ResultsJoin(acc, items, ro, OkExchanges(st.events[|log2|..]), st.result.value);
          }
        }
      }
    }
  }

  /**
   * Where the page loop stops, from page `page` on: every page before the
   * last reported that more pages follow (`page < total_pages`), and the
   * last one either reported otherwise or was the last page of the budget.
   * With an empty budget there are no pages at all.
   */
  lemma {:induction false} PagesOfStop(round: (seq<Event>, int) -> Step<PageEnd>, page: int, total: int,
                                       log: seq<Event>, acc: seq<Json>)
    requires ReadsPages(round)
    ensures var st := PagesOf(round, page, total, log, acc);
      && |log| <= |st.events|
      && var oks := OkExchanges(st.events[|log|..]);
      (st.result.Ok? ==> PagesRead(oks, page, total) && (oks == [] <==> page > total))
    decreases total - page + 1
  {
    var st := PagesOf(round, page, total, log, acc);
    PagesOfPrefix(round, page, total, log, acc);
    if page > total {
      assert st.events[|log|..] == [];
    } else {
      var r := round(log, page);
      if r.result.Ok? {
        var ro := OkExchanges(r.events);
        if r.result.value.last {
          PagesOfLast(round, page, total, log, acc);
        } else {
          var log2 := log + r.events + [Sleep(PAGE_PAUSE)];
          PagesOfContinue(round, page, total, log, acc);
          PagesOfStop(round, page + 1, total, log2, acc + r.result.value.items);
          var oks2 := OkExchanges(st.events[|log2|..]);
          if st.result.Ok? {
            PagesReadCons(ro[0], oks2, page, total);
            assert ro == [ro[0]];
          }
        }
      }
    }
  }

  /** Requests for pages up to `p`, followed by requests for pages up to `q >= p`. */
  lemma UpToJoin(a: seq<Event>, b: seq<Event>, p: int, q: int)
    requires p <= q && PagesUpTo(a, p) && PagesUpTo(b, q)
    ensures PagesUpTo(a + b, q)
  {
    forall i | 0 <= i < |a + b| && (a + b)[i].Exchange?
      ensures RequestedPage((a + b)[i]) <= q
    {
      if i < |a| {
        assert (a + b)[i] == a[i];
      } else {
        assert (a + b)[i] == b[i - |a|];
      }
    }
  }

  /**
   * How far the page loop asks, from page `page` on: no request after the
   * page it stopped at. When it returns, every request asks for a page whose
   * 200 response it read, the last of them being the page of the `break` or
   * the budget's last; when it fails, at most one page further, the one whose
   * attempts all failed.
   */
  lemma {:induction false} PagesOfUpTo(round: (seq<Event>, int) -> Step<PageEnd>, env: Env, endpoint: Endpoint,
                                       base: map<string, Json>, page: int, total: int,
                                       log: seq<Event>, acc: seq<Json>)
    requires ReadsPages(round)
    requires SendsPages(round, env, endpoint, base)
    ensures var st := PagesOf(round, page, total, log, acc);
      && |log| <= |st.events|
      && var oks := OkExchanges(st.events[|log|..]);
      && (st.result.Ok? ==> PagesUpTo(st.events[|log|..], page + |oks| - 1))
      && (st.result.Err? ==> PagesUpTo(st.events[|log|..], page + |oks|))
    decreases total - page + 1
  {
    var st := PagesOf(round, page, total, log, acc);
    PagesOfPrefix(round, page, total, log, acc);
    if page > total {
      assert st.events[|log|..] == [];
    } else {
      var r := round(log, page);
      assert RoundSends(env, endpoint, base, r, page);
      OnePage(env, endpoint, base, r.events, page);
      if r.result.Ok? && !r.result.value.last {
        var log2 := log + r.events + [Sleep(PAGE_PAUSE)];
        PagesOfContinue(round, page, total, log, acc);
        PagesOfPrefix(round, page + 1, total, log2, acc + r.result.value.items);
        PagesOfUpTo(round, env, endpoint, base, page + 1, total, log2, acc + r.result.value.items);
        SplitAdded(st.events, log, r.events, PAGE_PAUSE);
        var oks := OkExchanges(st.events[|log|..]);
        var bound := if st.result.Ok? then page + |oks| - 1 else page + |oks|;
        var pause := [Sleep(PAGE_PAUSE)];
        assert PagesUpTo(pause, page);
        UpToJoin(r.events, pause, page, page);
        UpToJoin(r.events + pause, st.events[|log2|..], page, bound);
      } else {
        assert st.events == log + r.events;
        assert st.events[|log|..] == r.events;
        assert RoundReads(r, page);
      }
    }
  }

  /**
   * paginated_request's loop from page `page` on: it keeps the log it was
   * given; it adds only requests for pages `page` .. `total`, asked for in
   * increasing page order, whose 200 responses come one per page; it fails
   * only with TMDBApiError or a Python error; and when it returns, its value is the
   * results collected so far followed by each page's `results`, every page
   * but the last having reported that more pages follow.
   */
  lemma PagesTrace(env: Env, endpoint: Endpoint, base: map<string, Json>, page: int, total: int,
                   log: seq<Event>, acc: seq<Json>)
    ensures var st := Pages(env, endpoint, base, page, total, log, acc);
      && |log| <= |st.events| && st.events[..|log|] == log
      && (page > total ==> st == Step(log, Ok(acc)))
      && PageRequests(env, endpoint, base, st.events[|log|..], page, total)
      && PagesAscending(st.events[|log|..])
      && (st.result.Err? ==>
            st.result.error == TMDBApiError(DEFAULT_RETRIES, Url(BASE_URL, endpoint)) || st.result.error.Raised?)
      && var oks := OkExchanges(st.events[|log|..]);
      && |oks| <= Max0(total - page + 1)
      && InPageOrder(env, endpoint, base, oks, page)
      && (st.result.Ok? ==>
            && st.result.value == acc + ResultsOf(oks)
            && PagesRead(oks, page, total)
            && (oks == [] <==> page > total))
      && (st.result.Ok? ==> PagesUpTo(st.events[|log|..], page + |oks| - 1))
      && (st.result.Err? ==> PagesUpTo(st.events[|log|..], page + |oks|))
      && SavedFiles(st.events[|log|..]) == []
  {
    var round := PageRounds(env, endpoint, base);
    PageRoundsFacts(env, endpoint, base);
    PageRoundsSaveNothing(env, endpoint, base);
    PagesOfSaveNothing(round, page, total, log, acc);
    PagesOfPrefix(round, page, total, log, acc);
    PagesOfRequests(round, env, endpoint, base, page, total, log, acc);
    PagesOfAscending(round, env, endpoint, base, page, total, log, acc);
    PagesOfOrder(round, env, endpoint, base, page, total, log, acc);
    PagesOfValue(round, page, total, log, acc);
    PagesOfStop(round, page, total, log, acc);
    PagesOfUpTo(round, env, endpoint, base, page, total, log, acc);
  }
}
