/**
 * The world the extraction code talks to. HTTP is an oracle: the server
 * answers the k-th request of a run (k counted from 0) with
 * `env.server(k, request)`; it may answer the same request differently on
 * a retry. A Session records everything observable in its log: each
 * request with its response, each sleep (as its duration, not as elapsed
 * time) and each JSON file written.
 */
module Http {
  import opened Wrappers
  import opened Json

  const BASE_URL: string := "https://api.themoviedb.org/3"

  /** The message of the ValueError `time.sleep` raises for a negative length. */
  const NEGATIVE_SLEEP: string := "sleep length must be non-negative"

  /**
   * An endpoint path. The per-movie paths `f"/movie/{id}"` and
   * `f"/movie/{id}/credits"` are kept symbolic, with the id as it was read.
   */
  datatype Endpoint =
    | Path(path: string)
    | MovieDetails(id: Json)
    | MovieCredits(id: Json)

  /** `f"{BASE_URL}{endpoint}"`. */
  datatype Url = Url(base: string, endpoint: Endpoint)

  /** A GET request: its URL and the query parameters it was sent with. */
  datatype Request = Request(url: Url, params: map<string, Json>)

  /** A response: its status code and its body as `response.json()` gives it. */
  datatype Response = Response(status: int, body: Json)

  /** The two snapshot directories, data/raw and data/processed. */
  datatype Folder = Raw | Processed

  datatype Event =
    | Exchange(request: Request, response: Response)
    | Sleep(seconds: real)
    | Saved(folder: Folder, name: string, data: Json)

  /** The server oracle and the configured API key (`os.getenv("TMDB_API_KEY")`, None when unset). */
  datatype Env = Env(server: (nat, Request) -> Response, apiKey: Json)

  /**
   * How an extraction step fails: `TMDBApiError` of utils_api, the plain
   * `Exception` of utils_db, or a Python error raised while reading a body.
   */
  datatype Failure =
    | TMDBApiError(retries: int, url: Url)
    | RequestFailed(retries: int, endpoint: Endpoint)
    | Raised(error: PyError)

  /** What one step of the extraction does: the events it adds to the log and its outcome. */
  datatype Step<T> = Step(events: seq<Event>, result: Result<T, Failure>)

  /**
   * The request both retrying GETs send: `f"{BASE_URL}{endpoint}"` with the
   * params dict after `params["api_key"] = TMDB_API_KEY`.
   */
  function TmdbRequest(env: Env, endpoint: Endpoint, params: map<string, Json>): Request
  {
    Request(Url(BASE_URL, endpoint), params["api_key" := env.apiKey])
  }

  function Max0(x: int): nat
  {
    if x > 0 then x else 0
  }

  /** The number of requests in a log. */
  function ExchangeCount(log: seq<Event>): nat
    decreases |log|
  {
    if log == [] then 0
    else ExchangeCount(log[..|log| - 1]) + (if log[|log| - 1].Exchange? then 1 else 0)
  }

  /** The requests of a log that were answered with status 200, in order. */
  function OkExchanges(log: seq<Event>): (oks: seq<Event>)
    ensures forall i :: 0 <= i < |oks| ==> oks[i].Exchange? && oks[i].response.status == 200
    decreases |log|
  {
    if log == [] then []
    else
      var last := log[|log| - 1];
      OkExchanges(log[..|log| - 1]) + (if last.Exchange? && last.response.status == 200 then [last] else [])
  }

  /** The files written in a log, in order. */
  function SavedFiles(log: seq<Event>): seq<Event>
    decreases |log|
  {
    if log == [] then []
    else SavedFiles(log[..|log| - 1]) + (if log[|log| - 1].Saved? then [log[|log| - 1]] else [])
  }

  lemma {:induction false} CountAppend(a: seq<Event>, b: seq<Event>)
    ensures ExchangeCount(a + b) == ExchangeCount(a) + ExchangeCount(b)
    decreases |b|
  {
    if b != [] {
      var b' := b[..|b| - 1];
      assert (a + b)[..|a + b| - 1] == a + b';
      CountAppend(a, b');
    } else {
      assert a + b == a;
    }
  }

  lemma {:induction false} OkAppend(a: seq<Event>, b: seq<Event>)
    ensures OkExchanges(a + b) == OkExchanges(a) + OkExchanges(b)
    decreases |b|
  {
    if b != [] {
      var b' := b[..|b| - 1];
      assert (a + b)[..|a + b| - 1] == a + b';
      OkAppend(a, b');
    } else {
      assert a + b == a;
    }
  }

  lemma {:induction false} SavedAppend(a: seq<Event>, b: seq<Event>)
    ensures SavedFiles(a + b) == SavedFiles(a) + SavedFiles(b)
    decreases |b|
  {
    if b != [] {
      var b' := b[..|b| - 1];
      assert (a + b)[..|a + b| - 1] == a + b';
      SavedAppend(a, b');
    } else {
      assert a + b == a;
    }
  }

  lemma AppendAssoc(a: seq<Event>, b: seq<Event>, c: seq<Event>)
    ensures a + b + c == a + (b + c)
  {
  }

  /** Counting and filtering distribute over appending logs. */
  lemma LogAppend(a: seq<Event>, b: seq<Event>)
    ensures ExchangeCount(a + b) == ExchangeCount(a) + ExchangeCount(b)
    ensures OkExchanges(a + b) == OkExchanges(a) + OkExchanges(b)
    ensures SavedFiles(a + b) == SavedFiles(a) + SavedFiles(b)
  {
    CountAppend(a, b);
    OkAppend(a, b);
    SavedAppend(a, b);
  }

  /** A written file appended to a log that wrote none. */
  lemma {:induction false} SaveAfter(events: seq<Event>, snapshot: Event)
    requires snapshot.Saved? && SavedFiles(events) == []
    ensures SavedFiles(events + [snapshot]) == [snapshot]
    ensures OkExchanges(events + [snapshot]) == OkExchanges(events)
    ensures ExchangeCount(events + [snapshot]) == ExchangeCount(events)
  {
    assert (events + [snapshot])[..|events + [snapshot]| - 1] == events;
  }

  /** The members of a filtered log are members of the log. */
  lemma {:induction false} OkExchangesIn(log: seq<Event>)
    ensures forall e :: e in OkExchanges(log) ==> e in log && e.Exchange? && e.response.status == 200
    decreases |log|
  {
    if log != [] {
      OkExchangesIn(log[..|log| - 1]);
    }
  }

  lemma {:induction false} SavedFilesIn(log: seq<Event>)
    ensures forall e :: e in SavedFiles(log) ==> e in log && e.Saved?
    ensures (forall i :: 0 <= i < |log| ==> !log[i].Saved?) ==> SavedFiles(log) == []
    decreases |log|
  {
    if log != [] {
      SavedFilesIn(log[..|log| - 1]);
    }
  }

  /** Every request in `events` is `req`. */
  predicate AllRequests(events: seq<Event>, req: Request)
  {
    forall i :: 0 <= i < |events| && events[i].Exchange? ==> events[i].request == req
  }

  /** A failed attempt adds one request and no 200 response to the log. */
  lemma FailedAttemptCounts(ex: Event, seconds: real)
    requires ex.Exchange? && ex.response.status != 200
    ensures ExchangeCount([ex, Sleep(seconds)]) == 1
    ensures OkExchanges([ex, Sleep(seconds)]) == []
  {
    assert [ex][..0] == [];
    assert ExchangeCount([ex]) == 1 && OkExchanges([ex]) == [];
    assert [ex, Sleep(seconds)][..|[ex, Sleep(seconds)]| - 1] == [ex];
  }

  /** A log of one 200 response. */
  lemma OkExchange(req: Request, body: Json)
    ensures OkExchanges([Exchange(req, Response(200, body))]) == [Exchange(req, Response(200, body))]
  {
    assert [Exchange(req, Response(200, body))][..0] == [];
  }

  /** The environment of the extraction, with the log of what it has done so far. */
  class Session {
    const env: Env
    var log: seq<Event>

    constructor (env: Env)
      ensures this.env == env && log == []
    {
      this.env := env;
      log := [];
    }

    /** `requests.get(url, params=params)`: the server answers this run's next request. */
    method Fetch(request: Request) returns (response: Response)
      modifies this
      ensures response == env.server(ExchangeCount(old(log)), request)
      ensures log == old(log) + [Exchange(request, response)]
      ensures ExchangeCount(log) == ExchangeCount(old(log)) + 1
    {
      response := env.server(ExchangeCount(log), request);
      CountAppend(log, [Exchange(request, response)]);
      log := log + [Exchange(request, response)];
    }

    /** `time.sleep(seconds)`. */
    method Wait(seconds: real)
      modifies this
      ensures log == old(log) + [Sleep(seconds)]
      ensures ExchangeCount(log) == ExchangeCount(old(log))
    {
      CountAppend(log, [Sleep(seconds)]);
      log := log + [Sleep(seconds)];
    }

    /** `save_json(data, name, folder)`. */
    method SaveJson(folder: Folder, name: string, data: Json)
      modifies this
      ensures log == old(log) + [Saved(folder, name, data)]
      ensures ExchangeCount(log) == ExchangeCount(old(log))
    {
      CountAppend(log, [Saved(folder, name, data)]);
      log := log + [Saved(folder, name, data)];
    }
  }

  /** A Python dict of query parameters, which callee and caller may share. */
  class Dict {
    var entries: map<string, Json>

    constructor (entries: map<string, Json>)
      ensures this.entries == entries
    {
      this.entries := entries;
    }
  }
}
