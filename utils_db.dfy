/**
 * src/etl/utils_db.py: `tmdb_get`, the older retrying GET. Unlike
 * request_tmdb it waits the same `delay` after every status other than 200,
 * 429 included, and also after the last failed attempt, and it raises a
 * plain Exception naming the endpoint.
 *
 * The method is proved to add to the session log exactly the events of the
 * specification function `DbAttempts` and to return its outcome; the lemmas
 * below state what that function does.
 */
module UtilsDb {
  import opened Wrappers
  import opened Json
  import opened Http

  /** The defaults `retries=3, delay=1`. */
  const DEFAULT_RETRIES: int := 3
  const DEFAULT_DELAY: real := 1.0

  /**
   * A response after which the loop waits and goes on: not a 200, and a
   * wait `time.sleep` accepts (a negative `delay` raises ValueError).
   */
  predicate DbRetriesAfter(status: int, delay: real)
  {
    status != 200 && delay >= 0.0
  }

  /**
   * The loop `for attempt in range(retries)` from an attempt with `left`
   * attempts still to go: `n` requests have been made before it in the run
   * and `done` holds the events of the attempts already made. A 200 returns
   * the body; any other status is followed by `time.sleep(delay)`, which
   * raises ValueError when `delay` is negative.
   */
  function DbAttempts(env: Env, n: nat, req: Request, endpoint: Endpoint, left: int, delay: real, retries: int,
                      done: seq<Event>): Step<Json>
    decreases left
  {
    if left <= 0 then
      Step(done, Err(RequestFailed(retries, endpoint)))
    else
      var response := env.server(n, req);
      if response.status == 200 then
        Step(done + [Exchange(req, response)], Ok(response.body))
      else if !DbRetriesAfter(response.status, delay) then
        Step(done + [Exchange(req, response)], Err(Raised(ValueError(NEGATIVE_SLEEP))))
      else
        DbAttempts(env, n + 1, req, endpoint, left - 1, delay, retries, done + [Exchange(req, response), Sleep(delay)])
  }

  /** `tmdb_get(endpoint, params, retries, delay)` with the caller's params (or `{}`), `n` requests into the run. */
  function GetSpec(env: Env, n: nat, endpoint: Endpoint, params: map<string, Json>, retries: int, delay: real): Step<Json>
  {
    DbAttempts(env, n, TmdbRequest(env, endpoint, params), endpoint, retries, delay, retries, [])
  }

  /** One attempt of tmdb_get: the request, and the wait after a status other than 200. */
  method TryOnce(s: Session, req: Request, delay: real) returns (response: Response)
    modifies s
    ensures response == s.env.server(ExchangeCount(old(s.log)), req)
    ensures s.log == old(s.log) + (if DbRetriesAfter(response.status, delay)
                                   then [Exchange(req, response), Sleep(delay)]
                                   else [Exchange(req, response)])
    ensures ExchangeCount(s.log) == ExchangeCount(old(s.log)) + 1
  {
    response := s.Fetch(req);
    if DbRetriesAfter(response.status, delay) {
      s.Wait(delay);
    }
  }

  /** The loop of tmdb_get over a request whose params are already set. */
  method GetWithRetries(s: Session, req: Request, endpoint: Endpoint, retries: int, delay: real)
    returns (r: Result<Json, Failure>)
    modifies s
    ensures var st := DbAttempts(s.env, ExchangeCount(old(s.log)), req, endpoint, retries, delay, retries, []);
            s.log == old(s.log) + st.events && r == st.result
  {
    ghost var n0, log0 := ExchangeCount(s.log), s.log;
    ghost var done: seq<Event> := [];
    var attempt := 0;
    while attempt < retries
      invariant 0 <= attempt && (0 <= retries ==> attempt <= retries)
      invariant s.log == log0 + done
      invariant ExchangeCount(s.log) == n0 + attempt
      invariant DbAttempts(s.env, n0, req, endpoint, retries, delay, retries, []) ==
                DbAttempts(s.env, n0 + attempt, req, endpoint, retries - attempt, delay, retries, done)
    {
      var response := TryOnce(s, req, delay);
      if response.status == 200 {
        return Ok(response.body);
      }
      if !DbRetriesAfter(response.status, delay) {
        return Err(Raised(ValueError(NEGATIVE_SLEEP)));
      }
      done := done + [Exchange(req, response), Sleep(delay)];
      attempt := attempt + 1;
    }
    return Err(RequestFailed(retries, endpoint));
  }

  /**
   * tmdb_get. A given params dict is the one the caller holds: it keeps the
   * injected `api_key` afterwards.
   */
  method TmdbGet(s: Session, endpoint: Endpoint, params: Dict?, retries: int, delay: real)
    returns (r: Result<Json, Failure>)
    modifies s, params
    ensures params != null ==> params.entries == old(params.entries)["api_key" := s.env.apiKey]
    ensures var st := GetSpec(s.env, ExchangeCount(old(s.log)), endpoint,
                              if params == null then map[] else old(params.entries), retries, delay);
            s.log == old(s.log) + st.events && r == st.result
  {
    var p := params;
    if p == null {
      p := new Dict(map[]);
    }
    p.entries := p.entries["api_key" := s.env.apiKey];
    r := GetWithRetries(s, Request(Url(BASE_URL, endpoint), p.entries), endpoint, retries, delay);
  }

  /** The events of attempts made earlier come first; the rest of the run does not depend on them. */
  lemma {:induction false} DbAttemptsAcc(env: Env, n: nat, req: Request, endpoint: Endpoint, left: int, delay: real,
                                         retries: int, done: seq<Event>)
    ensures var st := DbAttempts(env, n, req, endpoint, left, delay, retries, []);
            DbAttempts(env, n, req, endpoint, left, delay, retries, done) == Step(done + st.events, st.result)
    decreases left
  {
    if left > 0 {
      var response := env.server(n, req);
      if !DbRetriesAfter(response.status, delay) {
        assert [] + [Exchange(req, response)] == [Exchange(req, response)];
      } else {
        var tried := [Exchange(req, response), Sleep(delay)];
        DbAttemptsAcc(env, n + 1, req, endpoint, left - 1, delay, retries, done + tried);
        DbAttemptsAcc(env, n + 1, req, endpoint, left - 1, delay, retries, tried);
        assert [] + tried == tried;
        var rest := DbAttempts(env, n + 1, req, endpoint, left - 1, delay, retries, []);
        assert done + tried + rest.events == done + (tried + rest.events);
      }
    } else {
      assert done + [] == done;
    }
  }

  /**
   * Position i of a run of attempts that began `n` requests into the run:
   * request number i/2 when i is even, the `delay` wait after its failure
   * when i is odd.
   */
  predicate DbTraceAt(env: Env, n: nat, req: Request, delay: real, events: seq<Event>, i: nat)
    requires i < |events|
  {
    if i % 2 == 0 then events[i] == Exchange(req, env.server(n + i / 2, req))
    else DbRetriesAfter(env.server(n + i / 2, req).status, delay) && events[i] == Sleep(delay)
  }

  /** `events` follow the pattern of a run of attempts that began `n` requests into the run. */
  predicate DbTraced(env: Env, n: nat, req: Request, delay: real, events: seq<Event>)
  {
    forall i :: 0 <= i < |events| ==> DbTraceAt(env, n, req, delay, events, i)
  }

  /**
   * The run of tmdb_get's loop in closed form: request number i/2 of the
   * run at every even position i, answered by the server, and at every odd
   * position the `delay` wait after a response other than 200, whatever its
   * status, and never negative.
   */
  lemma {:induction false} DbTrace(env: Env, n: nat, req: Request, endpoint: Endpoint, left: int, delay: real,
                                   retries: int)
    ensures DbTraced(env, n, req, delay, DbAttempts(env, n, req, endpoint, left, delay, retries, []).events)
    decreases left
  {
    var st := DbAttempts(env, n, req, endpoint, left, delay, retries, []);
    if left > 0 {
      var response := env.server(n, req);
      if DbRetriesAfter(response.status, delay) {
        var tried := [Exchange(req, response), Sleep(delay)];
        var rest := DbAttempts(env, n + 1, req, endpoint, left - 1, delay, retries, []);
        assert st.events == tried + rest.events by {
          DbAttemptsAcc(env, n + 1, req, endpoint, left - 1, delay, retries, tried);
          assert [] + tried == tried;
        }
        DbTrace(env, n + 1, req, endpoint, left - 1, delay, retries);
        DbTraceShift(env, n, req, delay, rest.events, st.events);
      }
    }
  }

  /** A failed first attempt in front of a run of attempts that began one request later. */
  lemma DbTraceShift(env: Env, n: nat, req: Request, delay: real, rest: seq<Event>, events: seq<Event>)
    requires DbRetriesAfter(env.server(n, req).status, delay)
    requires events == [Exchange(req, env.server(n, req)), Sleep(delay)] + rest
    requires DbTraced(env, n + 1, req, delay, rest)
    ensures DbTraced(env, n, req, delay, events)
  {
    forall i | 0 <= i < |events|
      ensures DbTraceAt(env, n, req, delay, events, i)
    {
      if i >= 2 {
        assert DbTraceAt(env, n + 1, req, delay, rest, i - 2);
        assert events[i] == rest[i - 2];
        assert n + i / 2 == n + 1 + (i - 2) / 2 && i % 2 == (i - 2) % 2;
      }
    }
  }

  /**
   * How a run of attempts ends, after an odd number of events: at the first
   * 200, returning its body, or at the first failure when `delay` is
   * negative, with ValueError; or else after `left` failures, each followed
   * by its wait (nothing at all when `left <= 0`), with the Exception for
   * the endpoint.
   */
  lemma {:induction false} DbEnd(env: Env, n: nat, req: Request, endpoint: Endpoint, left: int, delay: real,
                                 retries: int)
    ensures var st := DbAttempts(env, n, req, endpoint, left, delay, retries, []);
            var last := env.server(n + |st.events| / 2, req);
      && |st.events| <= 2 * Max0(left)
      && (st.result.Ok? ==> |st.events| % 2 == 1 && last == Response(200, st.result.value))
      && (st.result.Err? && st.result.error.Raised? ==>
            && |st.events| % 2 == 1 && last.status != 200 && delay < 0.0
            && st.result.error == Raised(ValueError(NEGATIVE_SLEEP)))
      && (st.result.Err? && !st.result.error.Raised? ==>
            |st.events| == 2 * Max0(left) && st.result.error == RequestFailed(retries, endpoint))
    decreases left
  {
    var st := DbAttempts(env, n, req, endpoint, left, delay, retries, []);
    if left > 0 {
      var response := env.server(n, req);
      if DbRetriesAfter(response.status, delay) {
        var tried := [Exchange(req, response), Sleep(delay)];
        var rest := DbAttempts(env, n + 1, req, endpoint, left - 1, delay, retries, []);
        assert st == Step(tried + rest.events, rest.result) by {
          DbAttemptsAcc(env, n + 1, req, endpoint, left - 1, delay, retries, tried);
          assert [] + tried == tried;
        }
        DbEnd(env, n + 1, req, endpoint, left - 1, delay, retries);
        assert |st.events| == |rest.events| + 2;
        assert n + |st.events| / 2 == n + 1 + |rest.events| / 2;
      } else if response.status == 200 {
        assert response == Response(200, response.body);
      }
    }
  }

  /**
   * A run of attempts makes at most `left` requests, none when `left <= 0`:
   * every request but the last of a run that returns or raises ValueError
   * is a failure followed by the `delay` wait, and nothing follows a 200.
   */
  lemma {:induction false} DbCount(env: Env, n: nat, req: Request, endpoint: Endpoint, left: int, delay: real,
                                   retries: int)
    ensures var st := DbAttempts(env, n, req, endpoint, left, delay, retries, []);
            && ExchangeCount(st.events) <= Max0(left)
            && |st.events| == 2 * ExchangeCount(st.events) - (if st.result.Ok? || st.result.error.Raised? then 1 else 0)
            && DbTraced(env, n, req, delay, st.events)
    decreases left
  {
    var st := DbAttempts(env, n, req, endpoint, left, delay, retries, []);
    DbTrace(env, n, req, endpoint, left, delay, retries);
    if left > 0 {
      var response := env.server(n, req);
      var ex := Exchange(req, response);
      if !DbRetriesAfter(response.status, delay) {
        assert st.events == [ex];
        assert ExchangeCount([ex]) == 1 by {
          assert [ex][..0] == [];
        }
      } else {
        var tried := [ex, Sleep(delay)];
        var rest := DbAttempts(env, n + 1, req, endpoint, left - 1, delay, retries, []);
        assert st == Step(tried + rest.events, rest.result) by {
          DbAttemptsAcc(env, n + 1, req, endpoint, left - 1, delay, retries, tried);
          assert [] + tried == tried;
        }
        assert ExchangeCount(st.events) == 1 + ExchangeCount(rest.events) by {
          FailedAttemptCounts(ex, delay);
          CountAppend(tried, rest.events);
        }
        assert st.result == rest.result;
        DbCount(env, n + 1, req, endpoint, left - 1, delay, retries);
      }
    }
  }

  /**
   * tmdb_get raises the Exception naming the endpoint exactly when every one
   * of its `retries` responses is a failure it waits after, after making all
   * `retries` requests, the last one followed by its wait too. Otherwise the
   * first response it does not wait after, the k+1-th, is its last request:
   * a 200, whose body it returns, or a failure with a negative `delay`, for
   * which `time.sleep` raises ValueError. With `delay >= 0` that is simply
   * the first 200.
   */
  lemma GetOutcome(env: Env, n: nat, req: Request, endpoint: Endpoint, retries: int, delay: real)
    ensures var st := DbAttempts(env, n, req, endpoint, retries, delay, retries, []);
      && (st.result.Ok? || st.result == Err(RequestFailed(retries, endpoint)) ||
          st.result == Err(Raised(ValueError(NEGATIVE_SLEEP))))
      && (st.result == Err(RequestFailed(retries, endpoint)) <==>
            forall k :: n <= k < n + retries ==> DbRetriesAfter(env.server(k, req).status, delay))
      && (st.result == Err(RequestFailed(retries, endpoint)) ==>
            && ExchangeCount(st.events) == Max0(retries)
            && (retries > 0 ==> st.events[|st.events| - 1] == Sleep(delay)))
      && (forall k ::
            (n <= k < n + retries && !DbRetriesAfter(env.server(k, req).status, delay) &&
             forall j :: n <= j < k ==> DbRetriesAfter(env.server(j, req).status, delay)) ==>
            && ExchangeCount(st.events) == k - n + 1
            && (env.server(k, req).status == 200 ==> st.result == Ok(env.server(k, req).body))
            && (env.server(k, req).status != 200 ==> st.result == Err(Raised(ValueError(NEGATIVE_SLEEP)))))
  {
    var st := DbAttempts(env, n, req, endpoint, retries, delay, retries, []);
    DbEnd(env, n, req, endpoint, retries, delay, retries);
    DbCount(env, n, req, endpoint, retries, delay, retries);
    DbOutcomeOf(env, n, req, endpoint, retries, delay, st);
  }

  /** GetOutcome for any run with the shape that DbEnd and DbCount give a run of attempts. */
  lemma DbOutcomeOf(env: Env, n: nat, req: Request, endpoint: Endpoint, retries: int, delay: real, st: Step<Json>)
    requires DbTraced(env, n, req, delay, st.events)
    requires ExchangeCount(st.events) <= Max0(retries)
    requires |st.events| == 2 * ExchangeCount(st.events) - (if st.result.Ok? || st.result.error.Raised? then 1 else 0)
    requires st.result.Ok? ==> env.server(n + |st.events| / 2, req) == Response(200, st.result.value)
    requires st.result.Err? && st.result.error.Raised? ==>
      && env.server(n + |st.events| / 2, req).status != 200 && delay < 0.0
      && st.result.error == Raised(ValueError(NEGATIVE_SLEEP))
    requires st.result.Err? && !st.result.error.Raised? ==>
      |st.events| == 2 * Max0(retries) && st.result.error == RequestFailed(retries, endpoint)
    ensures st.result.Ok? || st.result == Err(RequestFailed(retries, endpoint)) ||
            st.result == Err(Raised(ValueError(NEGATIVE_SLEEP)))
    ensures st.result == Err(RequestFailed(retries, endpoint)) <==>
            forall k :: n <= k < n + retries ==> DbRetriesAfter(env.server(k, req).status, delay)
    ensures st.result == Err(RequestFailed(retries, endpoint)) ==>
            && ExchangeCount(st.events) == Max0(retries)
            && (retries > 0 ==> st.events[|st.events| - 1] == Sleep(delay))
    ensures forall k ::
            (n <= k < n + retries && !DbRetriesAfter(env.server(k, req).status, delay) &&
             forall j :: n <= j < k ==> DbRetriesAfter(env.server(j, req).status, delay)) ==>
            && ExchangeCount(st.events) == k - n + 1
            && (env.server(k, req).status == 200 ==> st.result == Ok(env.server(k, req).body))
            && (env.server(k, req).status != 200 ==> st.result == Err(Raised(ValueError(NEGATIVE_SLEEP))))
  {
    var m := |st.events|;
    forall j | n <= j < n + m / 2
      ensures DbRetriesAfter(env.server(j, req).status, delay)
    {
      var i := 2 * (j - n) + 1;
      assert i < m && i % 2 == 1 && i / 2 == j - n;
      assert DbTraceAt(env, n, req, delay, st.events, i);
    }
    var p: nat := n + m / 2;
    if m % 2 == 1 {
      // The run stopped at request p, which it did not wait after.
      assert p < n + retries && !DbRetriesAfter(env.server(p, req).status, delay);
      forall k: nat | n <= k < n + retries && !DbRetriesAfter(env.server(k, req).status, delay) &&
                 forall j :: n <= j < k ==> DbRetriesAfter(env.server(j, req).status, delay)
        ensures k == p
      {
        assert k < p ==> DbRetriesAfter(env.server(k, req).status, delay);
        assert p < k ==> DbRetriesAfter(env.server(p, req).status, delay);
      }
    } else if retries > 0 {
      assert DbTraceAt(env, n, req, delay, st.events, m - 1);
    }
  }

  /** Every request of a run of attempts is `req`. */
  lemma {:induction false} DbRequests(env: Env, n: nat, req: Request, endpoint: Endpoint, left: int, delay: real,
                                      retries: int)
    ensures AllRequests(DbAttempts(env, n, req, endpoint, left, delay, retries, []).events, req)
    decreases left
  {
    var st := DbAttempts(env, n, req, endpoint, left, delay, retries, []);
    if left > 0 {
      var response := env.server(n, req);
      if DbRetriesAfter(response.status, delay) {
        var tried := [Exchange(req, response), Sleep(delay)];
        var rest := DbAttempts(env, n + 1, req, endpoint, left - 1, delay, retries, []);
        assert st.events == tried + rest.events by {
          DbAttemptsAcc(env, n + 1, req, endpoint, left - 1, delay, retries, tried);
          assert [] + tried == tried;
        }
        DbRequests(env, n + 1, req, endpoint, left - 1, delay, retries);
        forall i | 0 <= i < |st.events| && st.events[i].Exchange?
          ensures st.events[i].request == req
        {
          if i >= 2 {
            assert st.events[i] == rest.events[i - 2];
          }
        }
      }
    }
  }

  /**
   * Every request of tmdb_get goes to `BASE_URL + endpoint` with the
   * caller's params and with `api_key` set to the configured key.
   */
  lemma GetCarriesApiKey(env: Env, n: nat, endpoint: Endpoint, params: map<string, Json>, retries: int, delay: real)
    ensures var st := GetSpec(env, n, endpoint, params, retries, delay);
      forall i :: 0 <= i < |st.events| && st.events[i].Exchange? ==>
        && st.events[i].request.url == Url(BASE_URL, endpoint)
        && st.events[i].request.params.Keys == params.Keys + {"api_key"}
        && st.events[i].request.params["api_key"] == env.apiKey
        && forall k :: k in params && k != "api_key" ==> st.events[i].request.params[k] == params[k]
  {
    DbRequests(env, n, TmdbRequest(env, endpoint, params), endpoint, retries, delay, retries);
  }
}
