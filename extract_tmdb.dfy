/**
 * src/etl/extract_tmdb.py: the listing extractions (`extract_popular` and
 * its three twins), `extract_genres`, `extract_movie_details` and
 * `extract_all`, over the session of the Http module. `save_json` is
 * `Session.SaveJson`; reading a snapshot back is `LoadJson` on the log.
 */
module ExtractTmdb {
  import opened Wrappers
  import opened Json
  import opened Http
  import opened Traverse
  import opened UtilsApi

  /** The page budget of every listing extraction. */
  const LISTING_PAGES: int := 5
  /** `popular[:50]`. */
  const MAX_DETAILED: nat := 50

  /** A listing endpoint and the raw snapshot it is saved to. */
  datatype Listing = Listing(endpoint: string, file: string)

  const POPULAR: Listing := Listing("/movie/popular", "popular.json")
  const TOP_RATED: Listing := Listing("/movie/top_rated", "top_rated.json")
  const UPCOMING: Listing := Listing("/movie/upcoming", "upcoming.json")
  const TRENDING: Listing := Listing("/trending/movie/week", "trending.json")
  const GENRES_ENDPOINT: string := "/genre/movie/list"
  const GENRES_FILE: string := "genres.json"
  const DETAILS_FILE: string := "details.json"
  const CREDITS_FILE: string := "credits.json"

  // ---------------------------------------------------------------------
  // extract_popular, extract_top_rated, extract_upcoming, extract_trending, extract_genres

  /** A listing extraction from the log `log`: five pages at most, then the snapshot. */
  function ListingSpec(env: Env, listing: Listing, log: seq<Event>): Step<()>
  {
    var st := Pages(env, Path(listing.endpoint), map[], 1, LISTING_PAGES, log, []);
    match st.result
    case Err(f) => Step(st.events, Err(f))
    case Ok(data) => Step(st.events + [Saved(Raw, listing.file, JArr(data))], Ok(()))
  }

  /** extract_popular, extract_top_rated, extract_upcoming and extract_trending. */
  method ExtractListing(s: Session, listing: Listing) returns (r: Result<(), Failure>)
    modifies s
    ensures ListingSpec(s.env, listing, old(s.log)) == Step(s.log, r)
  {
    var data := PaginatedRequest(s, Path(listing.endpoint), LISTING_PAGES, null);
    if data.Err? {
      return Err(data.error);
    }
    s.SaveJson(Raw, listing.file, JArr(data.value));
    return Ok(());
  }

  /** extract_genres from the log `log`. */
  function GenresSpec(env: Env, log: seq<Event>): Step<()>
  {
    GenresOf(RequestSpec(env, ExchangeCount(log), Path(GENRES_ENDPOINT), map[], DEFAULT_RETRIES, DEFAULT_SLEEP), log)
  }

  /** extract_genres once request_tmdb has given `st`. */
  function GenresOf(st: Step<Json>, log: seq<Event>): Step<()>
  {
    match st.result
    case Err(f) => Step(log + st.events, Err(f))
    case Ok(data) => Step(log + (st.events + [Saved(Raw, GENRES_FILE, data)]), Ok(()))
  }

  method ExtractGenres(s: Session) returns (r: Result<(), Failure>)
    modifies s
    ensures GenresSpec(s.env, old(s.log)) == Step(s.log, r)
  {
    var data := RequestTmdb(s, Path(GENRES_ENDPOINT), null, DEFAULT_RETRIES, DEFAULT_SLEEP);
    if data.Err? {
      return Err(data.error);
    }
    s.SaveJson(Raw, GENRES_FILE, data.value);
    return Ok(());
  }

  /**
   * A listing extraction makes only requests for pages 1 to 5 of its
   * endpoint with no other params, none past the page after the last one
   * answered (none past the last one answered, when the loop returns), and
   * it writes its snapshot only when every page it asked for was answered:
   * the snapshot is then the last event and holds every page's `results` in
   * page order.
   */
  lemma ListingTrace(env: Env, listing: Listing, log: seq<Event>)
    ensures var st := ListingSpec(env, listing, log);
            var pages := Pages(env, Path(listing.endpoint), map[], 1, LISTING_PAGES, log, []);
      && |log| <= |pages.events| && pages.events[..|log|] == log
      && PageRequests(env, Path(listing.endpoint), map[], pages.events[|log|..], 1, LISTING_PAGES)
      && var answered := |OkExchanges(pages.events[|log|..])|;
      && (pages.result.Ok? ==> PagesUpTo(pages.events[|log|..], answered))
      && (pages.result.Err? ==> PagesUpTo(pages.events[|log|..], answered + 1))
      && (st.result.Err? ==> st.events == pages.events && SavedFiles(st.events[|log|..]) == [])
      && (st.result.Ok? ==>
            var snapshot := Saved(Raw, listing.file, JArr(ResultsOf(OkExchanges(pages.events[|log|..]))));
            && pages.result.Ok?
            && st.events == pages.events + [snapshot]
            && SavedFiles(st.events[|log|..]) == [snapshot])
  {
    PagesTrace(env, Path(listing.endpoint), map[], 1, LISTING_PAGES, log, []);
    var pages := Pages(env, Path(listing.endpoint), map[], 1, LISTING_PAGES, log, []);
    if pages.result.Ok? {
      var data := ResultsOf(OkExchanges(pages.events[|log|..]));
      assert [] + data == data;
      var st := ListingSpec(env, listing, log);
      assert st.events[|log|..] == pages.events[|log|..] + [Saved(Raw, listing.file, JArr(data))];
      SaveAfter(pages.events[|log|..], Saved(Raw, listing.file, JArr(data)));
    }
  }

  /**
   * extract_genres makes only requests for `/genre/movie/list` with no
   * other params, and writes genres.json, as the last event, only when one
   * of them is answered: with the body of that 200 response, the only one.
   */
  lemma GenresTrace(env: Env, log: seq<Event>)
    ensures var st := GenresSpec(env, log);
            var req := TmdbRequest(env, Path(GENRES_ENDPOINT), map[]);
      && |log| <= |st.events| && st.events[..|log|] == log
      && AllRequests(st.events[|log|..], req)
      && (st.result.Err? ==> SavedFiles(st.events[|log|..]) == [] && OkExchanges(st.events[|log|..]) == [])
      && (st.result.Ok? ==> exists data ::
            && st.events[|st.events| - 1] == Saved(Raw, GENRES_FILE, data)
            && SavedFiles(st.events[|log|..]) == [Saved(Raw, GENRES_FILE, data)]
            && OkExchanges(st.events[|log|..]) == [Exchange(req, Response(200, data))])
  {
    var n := ExchangeCount(log);
    var req := TmdbRequest(env, Path(GENRES_ENDPOINT), map[]);
    var r := RequestSpec(env, n, Path(GENRES_ENDPOINT), map[], DEFAULT_RETRIES, DEFAULT_SLEEP);
    AttemptsOk(env, n, req, DEFAULT_RETRIES, DEFAULT_SLEEP, DEFAULT_RETRIES);
    AttemptsSaveNothing(env, n, req, DEFAULT_RETRIES, DEFAULT_SLEEP, DEFAULT_RETRIES);
    AttemptsRequests(env, n, req, DEFAULT_RETRIES, DEFAULT_SLEEP, DEFAULT_RETRIES);
    GenresOfTrace(r, log, req);
  }

  /** What request_tmdb's closed form says of a call that sends `req`. */
  predicate RequestFacts(r: Step<Json>, req: Request)
  {
    && SavedFiles(r.events) == []
    && AllRequests(r.events, req)
    && OkExchanges(r.events) == (if r.result.Ok? then [Exchange(req, Response(200, r.result.value))] else [])
  }

  lemma GenresOfTrace(r: Step<Json>, log: seq<Event>, req: Request)
    requires RequestFacts(r, req)
    ensures var st := GenresOf(r, log);
      && |log| <= |st.events| && st.events[..|log|] == log
      && AllRequests(st.events[|log|..], req)
      && (st.result.Err? ==> SavedFiles(st.events[|log|..]) == [] && OkExchanges(st.events[|log|..]) == [])
      && (st.result.Ok? ==> exists data ::
            && st.events[|st.events| - 1] == Saved(Raw, GENRES_FILE, data)
            && SavedFiles(st.events[|log|..]) == [Saved(Raw, GENRES_FILE, data)]
            && OkExchanges(st.events[|log|..]) == [Exchange(req, Response(200, data))])
  {
    var st := GenresOf(r, log);
    if r.result.Ok? {
      SnapshotAfterRequests(log, r.events, Saved(Raw, GENRES_FILE, r.result.value), req);
    } else {
      assert st.events[..|log|] == log && st.events[|log|..] == r.events;
    }
  }

  /** A snapshot after requests that wrote nothing. */
  lemma SnapshotAfterRequests(log: seq<Event>, events: seq<Event>, snapshot: Event, req: Request)
    requires snapshot.Saved? && SavedFiles(events) == [] && AllRequests(events, req)
    ensures var all := log + (events + [snapshot]);
      && |log| <= |all| && all[..|log|] == log && all[|log|..] == events + [snapshot]
      && all[|all| - 1] == snapshot
      && SavedFiles(all[|log|..]) == [snapshot]
      && OkExchanges(all[|log|..]) == OkExchanges(events)
      && AllRequests(all[|log|..], req)
  {
    var all := log + (events + [snapshot]);
    assert all[..|log|] == log && all[|log|..] == events + [snapshot];
    SaveAfter(events, snapshot);
  }

  // ---------------------------------------------------------------------
  // extract_movie_details

  /**
   * The two requests of one turn of extract_movie_details' loop, from the
   * log `log`: `/movie/{id}` and then, when that answered,
   * `/movie/{id}/credits`, each through request_tmdb with its defaults.
   */
  function MovieFetch(env: Env, log: seq<Event>, id: Json): Step<(Json, Json)>
  {
    var d := RequestSpec(env, ExchangeCount(log), MovieDetails(id), map[], DEFAULT_RETRIES, DEFAULT_SLEEP);
    match d.result
    case Err(f) => Step(d.events, Err(f))
    case Ok(details) =>
      var c := RequestSpec(env, ExchangeCount(log + d.events), MovieCredits(id), map[], DEFAULT_RETRIES, DEFAULT_SLEEP);
      match c.result
      case Err(f) => Step(d.events + c.events, Err(f))
      case Ok(credits) => Step(d.events + c.events, Ok((details, credits)))
  }

  /**
   * The loop `for movie_id in movie_ids` over the ids still to go, for a
   * loop body `fetch` that gives the events and outcome of one movie from
   * the log so far: `details` and `credits` are the lists built so far.
   */
  function DetailsOf(fetch: (seq<Event>, Json) -> Step<(Json, Json)>, ids: seq<Json>, log: seq<Event>,
                     details: seq<Json>, credits: seq<Json>): Step<(seq<Json>, seq<Json>)>
    decreases |ids|
  {
    if ids == [] then
      Step(log, Ok((details, credits)))
    else
      var m := fetch(log, ids[0]);
      match m.result
      case Err(f) => Step(log + m.events, Err(f))
      case Ok(pair) => DetailsOf(fetch, ids[1..], log + m.events, details + [pair.0], credits + [pair.1])
  }

  /** The body of extract_movie_details' loop. */
  function MovieFetches(env: Env): (seq<Event>, Json) -> Step<(Json, Json)>
  {
    (log: seq<Event>, id: Json) => MovieFetch(env, log, id)
  }

  /** extract_movie_details from the log `log`: the loop, then both processed snapshots. */
  function DetailsSpec(env: Env, ids: seq<Json>, log: seq<Event>): Step<()>
  {
    DetailsSaveOf(MovieFetches(env), ids, log)
  }

  /** The loop with body `fetch`, then the two snapshots when it finished. */
  function DetailsSaveOf(fetch: (seq<Event>, Json) -> Step<(Json, Json)>, ids: seq<Json>, log: seq<Event>): Step<()>
  {
    var st := DetailsOf(fetch, ids, log, [], []);
    match st.result
    case Err(f) => Step(st.events, Err(f))
    case Ok(lists) =>
      Step(st.events + [Saved(Processed, DETAILS_FILE, JArr(lists.0)), Saved(Processed, CREDITS_FILE, JArr(lists.1))],
           Ok(()))
  }

  /** One turn of extract_movie_details' loop. */
  method FetchMovie(s: Session, id: Json) returns (r: Result<(Json, Json), Failure>)
    modifies s
    ensures var m := MovieFetch(s.env, old(s.log), id);
            s.log == old(s.log) + m.events && r == m.result
  {
    var details := RequestTmdb(s, MovieDetails(id), null, DEFAULT_RETRIES, DEFAULT_SLEEP);
    if details.Err? {
      return Err(details.error);
    }
    var credits := RequestTmdb(s, MovieCredits(id), null, DEFAULT_RETRIES, DEFAULT_SLEEP);
    if credits.Err? {
      return Err(credits.error);
    }
    return Ok((details.value, credits.value));
  }

  /** One turn of the loop, in the shape `ExtractMovieDetails` steps it. */
  lemma DetailsTurn(env: Env, ids: seq<Json>, log: seq<Event>, details: seq<Json>, credits: seq<Json>,
                    log': seq<Event>, r: Result<(Json, Json), Failure>)
    requires ids != []
    requires var m := MovieFetch(env, log, ids[0]); log' == log + m.events && r == m.result
    ensures var here := DetailsOf(MovieFetches(env), ids, log, details, credits);
            && (r.Err? ==> here == Step(log', Err(r.error)))
            && (r.Ok? ==> here == DetailsOf(MovieFetches(env), ids[1..], log', details + [r.value.0], credits + [r.value.1]))
  {
  }

  method ExtractMovieDetails(s: Session, movieIds: seq<Json>) returns (r: Result<(), Failure>)
    modifies s
    ensures DetailsSpec(s.env, movieIds, old(s.log)) == Step(s.log, r)
  {
    ghost var spec := DetailsOf(MovieFetches(s.env), movieIds, s.log, [], []);
    var detailsList: seq<Json> := [];
    var creditsList: seq<Json> := [];
    var i := 0;
    while i < |movieIds|
      invariant 0 <= i <= |movieIds|
      invariant spec == DetailsOf(MovieFetches(s.env), movieIds[i..], s.log, detailsList, creditsList)
    {
      ghost var log := s.log;
      var pair := FetchMovie(s, movieIds[i]);
      DetailsTurn(s.env, movieIds[i..], log, detailsList, creditsList, s.log, pair);
      if pair.Err? {
        return Err(pair.error);
      }
      assert movieIds[i..][1..] == movieIds[i + 1..];
      detailsList := detailsList + [pair.value.0];
      creditsList := creditsList + [pair.value.1];
      i := i + 1;
    }
    assert movieIds[i..] == [];
    s.SaveJson(Processed, DETAILS_FILE, JArr(detailsList));
    s.SaveJson(Processed, CREDITS_FILE, JArr(creditsList));
    return Ok(());
  }

  /**
   * The 200 responses extract_movie_details gets for `ids` with detail
   * bodies `ds` and credit bodies `cs`: for each id in order, `/movie/{id}`
   * and then `/movie/{id}/credits`.
   */
  function MovieExchanges(env: Env, ids: seq<Json>, ds: seq<Json>, cs: seq<Json>): seq<Event>
    requires |ds| == |ids| && |cs| == |ids|
    decreases |ids|
  {
    if ids == [] then []
    else
      [Exchange(TmdbRequest(env, MovieDetails(ids[0]), map[]), Response(200, ds[0])),
       Exchange(TmdbRequest(env, MovieCredits(ids[0]), map[]), Response(200, cs[0]))] +
      MovieExchanges(env, ids[1..], ds[1..], cs[1..])
  }

  /** Position i of the movie list is answered at positions 2i and 2i+1 of the responses. */
  lemma {:induction false} MovieExchangesAt(env: Env, ids: seq<Json>, ds: seq<Json>, cs: seq<Json>, i: nat)
    requires |ds| == |ids| && |cs| == |ids| && i < |ids|
    ensures var ex := MovieExchanges(env, ids, ds, cs);
      && |ex| == 2 * |ids|
      && ex[2 * i] == Exchange(TmdbRequest(env, MovieDetails(ids[i]), map[]), Response(200, ds[i]))
      && ex[2 * i + 1] == Exchange(TmdbRequest(env, MovieCredits(ids[i]), map[]), Response(200, cs[i]))
    decreases |ids|
  {
    var rest := MovieExchanges(env, ids[1..], ds[1..], cs[1..]);
    if i > 0 {
      MovieExchangesAt(env, ids[1..], ds[1..], cs[1..], i - 1);
      assert MovieExchanges(env, ids, ds, cs)[2 * i] == rest[2 * (i - 1)];
      assert MovieExchanges(env, ids, ds, cs)[2 * i + 1] == rest[2 * (i - 1) + 1];
    } else if |ids| > 1 {
      MovieExchangesAt(env, ids[1..], ds[1..], cs[1..], 0);
    } else {
      assert rest == [];
    }
  }

  /**
   * `events`, cut at `j`: every request before the cut is `/movie/{id}`,
   * every request after it `/movie/{id}/credits`, and there is none after
   * it unless `/movie/{id}` was answered with 200.
   */
  predicate MovieSplit(env: Env, id: Json, events: seq<Event>, j: nat)
    requires j <= |events|
  {
    && AllRequests(events[..j], TmdbRequest(env, MovieDetails(id), map[]))
    && AllRequests(events[j..], TmdbRequest(env, MovieCredits(id), map[]))
    && (OkExchanges(events[..j]) == [] ==> ExchangeCount(events[j..]) == 0)
  }

  /** The requests of one turn, retries included: details, then credits once details answered. */
  predicate MovieRequests(env: Env, id: Json, events: seq<Event>)
  {
    exists j :: 0 <= j <= |events| && MovieSplit(env, id, events, j)
  }

  /**
   * `events` are one block per id of `ids`, in order, each holding the
   * requests of that id's turn; there is no request outside the blocks.
   */
  predicate MovieBlocks(env: Env, ids: seq<Json>, events: seq<Event>)
    decreases |ids|
  {
    if ids == [] then ExchangeCount(events) == 0
    else exists j :: 0 <= j <= |events| && MovieRequests(env, ids[0], events[..j]) && MovieBlocks(env, ids[1..], events[j..])
  }

  /** A turn's block in front of the blocks of the ids after it. */
  lemma MovieBlocksCons(env: Env, ids: seq<Json>, a: seq<Event>, b: seq<Event>)
    requires ids != [] && MovieRequests(env, ids[0], a) && MovieBlocks(env, ids[1..], b)
    ensures MovieBlocks(env, ids, a + b)
  {
    assert (a + b)[..|a|] == a && (a + b)[|a|..] == b;
  }

  /**
   * What one turn gets: no file written; its requests, retries included,
   * go to `/movie/{id}` and then, once that answered, to
   * `/movie/{id}/credits`; and when it answers, the 200 responses to those
   * two in this order, with the bodies it returns.
   */
  predicate MovieFacts(env: Env, id: Json, m: Step<(Json, Json)>)
  {
    && SavedFiles(m.events) == []
    && MovieRequests(env, id, m.events)
    && (m.result.Ok? ==>
          OkExchanges(m.events) ==
            [Exchange(TmdbRequest(env, MovieDetails(id), map[]), Response(200, m.result.value.0)),
             Exchange(TmdbRequest(env, MovieCredits(id), map[]), Response(200, m.result.value.1))])
  }

  ghost predicate FetchesMovies(fetch: (seq<Event>, Json) -> Step<(Json, Json)>, env: Env)
  {
    forall log: seq<Event>, id: Json :: MovieFacts(env, id, fetch(log, id))
  }

  lemma MovieFetchFacts(env: Env, log: seq<Event>, id: Json)
    ensures MovieFacts(env, id, MovieFetch(env, log, id))
  {
    var n := ExchangeCount(log);
    var dreq := TmdbRequest(env, MovieDetails(id), map[]);
    var d := RequestSpec(env, n, MovieDetails(id), map[], DEFAULT_RETRIES, DEFAULT_SLEEP);
    var m := MovieFetch(env, log, id);
    AttemptsOk(env, n, dreq, DEFAULT_RETRIES, DEFAULT_SLEEP, DEFAULT_RETRIES);
    AttemptsSaveNothing(env, n, dreq, DEFAULT_RETRIES, DEFAULT_SLEEP, DEFAULT_RETRIES);
    AttemptsRequests(env, n, dreq, DEFAULT_RETRIES, DEFAULT_SLEEP, DEFAULT_RETRIES);
    if d.result.Ok? {
      var n2 := ExchangeCount(log + d.events);
      var creq := TmdbRequest(env, MovieCredits(id), map[]);
      var c := RequestSpec(env, n2, MovieCredits(id), map[], DEFAULT_RETRIES, DEFAULT_SLEEP);
      AttemptsOk(env, n2, creq, DEFAULT_RETRIES, DEFAULT_SLEEP, DEFAULT_RETRIES);
      AttemptsSaveNothing(env, n2, creq, DEFAULT_RETRIES, DEFAULT_SLEEP, DEFAULT_RETRIES);
      AttemptsRequests(env, n2, creq, DEFAULT_RETRIES, DEFAULT_SLEEP, DEFAULT_RETRIES);
      LogAppend(d.events, c.events);
      assert m.events == d.events + c.events;
      TurnSplit(env, id, d.events, c.events);
    } else {
      assert m.events == d.events;
      TurnSplit(env, id, d.events, []);
      assert d.events + [] == d.events;
    }
  }

  /** The requests of the details call, then those of the credits call, which makes none unless details answered. */
  lemma TurnSplit(env: Env, id: Json, d: seq<Event>, c: seq<Event>)
    requires AllRequests(d, TmdbRequest(env, MovieDetails(id), map[]))
    requires AllRequests(c, TmdbRequest(env, MovieCredits(id), map[]))
    requires OkExchanges(d) == [] ==> ExchangeCount(c) == 0
    ensures MovieRequests(env, id, d + c)
  {
    assert (d + c)[..|d|] == d && (d + c)[|d|..] == c;
    assert MovieSplit(env, id, d + c, |d|);
  }

  lemma MovieFetchesFacts(env: Env)
    ensures FetchesMovies(MovieFetches(env), env)
  {
    forall log: seq<Event>, id: Json
      ensures MovieFacts(env, id, MovieFetches(env)(log, id))
    {
      MovieFetchFacts(env, log, id);
    }
  }

  /** The loop keeps the log it was given. */
  lemma {:induction false} DetailsOfPrefix(fetch: (seq<Event>, Json) -> Step<(Json, Json)>, ids: seq<Json>,
                                           log: seq<Event>, details: seq<Json>, credits: seq<Json>)
    ensures var st := DetailsOf(fetch, ids, log, details, credits);
            |log| <= |st.events| && st.events[..|log|] == log
    decreases |ids|
  {
    if ids != [] {
      var m := fetch(log, ids[0]);
      var st := DetailsOf(fetch, ids, log, details, credits);
      if m.result.Ok? {
        DetailsOfPrefix(fetch, ids[1..], log + m.events, details + [m.result.value.0], credits + [m.result.value.1]);
        assert st.events[..|log|] == st.events[..|log + m.events|][..|log|];
      } else {
        assert st.events == log + m.events;
      }
    }
  }

  /** The events `events` has after its prefix `log`, split after the next `mid`. */
  lemma SplitAfter(events: seq<Event>, log: seq<Event>, mid: seq<Event>)
    requires |log + mid| <= |events| && events[..|log + mid|] == log + mid
    ensures |log| <= |events| && events[..|log|] == log
    ensures events[|log|..] == mid + events[|log + mid|..]
  {
    assert events[..|log|] == (log + mid)[..|log|];
    assert events[|log|..] == events[|log|..|log + mid|] + events[|log + mid|..];
    assert events[|log|..|log + mid|] == mid;
  }

  /**
   * The lists the loop builds from `ids` on: one entry per id, position k
   * holding the bodies of the 200 responses to `/movie/{ids[k]}` and
   * `/movie/{ids[k]}/credits`, answered in this order; and no file written
   * whether it succeeds or fails.
   */
  lemma {:induction false} DetailsOfTrace(fetch: (seq<Event>, Json) -> Step<(Json, Json)>, env: Env, ids: seq<Json>,
                                          log: seq<Event>, details: seq<Json>, credits: seq<Json>)
    requires FetchesMovies(fetch, env)
    ensures var st := DetailsOf(fetch, ids, log, details, credits);
      && |log| <= |st.events|
      && SavedFiles(st.events[|log|..]) == []
      && (st.result.Ok? ==>
            var (ds, cs) := st.result.value;
            && |ds| == |details| + |ids| && |cs| == |credits| + |ids|
            && ds[..|details|] == details && cs[..|credits|] == credits
            && OkExchanges(st.events[|log|..]) == MovieExchanges(env, ids, ds[|details|..], cs[|credits|..]))
    decreases |ids|
  {
    var st := DetailsOf(fetch, ids, log, details, credits);
    DetailsOfPrefix(fetch, ids, log, details, credits);
    if ids == [] {
      assert st.events[|log|..] == [];
    } else {
      var m := fetch(log, ids[0]);
      assert MovieFacts(env, ids[0], m);
      if m.result.Err? {
        assert st.events[|log|..] == m.events;
      } else {
        var (d, c) := m.result.value;
        var log2 := log + m.events;
        DetailsOfPrefix(fetch, ids[1..], log2, details + [d], credits + [c]);
        DetailsOfTrace(fetch, env, ids[1..], log2, details + [d], credits + [c]);
        SplitAfter(st.events, log, m.events);
        LogAppend(m.events, st.events[|log2|..]);
        if st.result.Ok? {
          var (ds, cs) := st.result.value;
          DetailsStep(env, ids, details, credits, d, c, ds, cs);
        }
      }
    }
  }

  /** The lists of the whole loop, from those after its first turn. */
  lemma DetailsStep(env: Env, ids: seq<Json>, details: seq<Json>, credits: seq<Json>, d: Json, c: Json,
                    ds: seq<Json>, cs: seq<Json>)
    requires ids != []
    requires |ds| == |details| + 1 + |ids[1..]| && |cs| == |credits| + 1 + |ids[1..]|
    requires ds[..|details + [d]|] == details + [d] && cs[..|credits + [c]|] == credits + [c]
    ensures ds[..|details|] == details && cs[..|credits|] == credits
    ensures MovieExchanges(env, ids, ds[|details|..], cs[|credits|..]) ==
            [Exchange(TmdbRequest(env, MovieDetails(ids[0]), map[]), Response(200, d)),
             Exchange(TmdbRequest(env, MovieCredits(ids[0]), map[]), Response(200, c))] +
            MovieExchanges(env, ids[1..], ds[|details + [d]|..], cs[|credits + [c]|..])
  {
    assert ds[..|details|] == (details + [d])[..|details|];
    assert cs[..|credits|] == (credits + [c])[..|credits|];
    assert ds[|details|..][0] == d && ds[|details|..][1..] == ds[|details + [d]|..];
    assert cs[|credits|..][0] == c && cs[|credits|..][1..] == cs[|credits + [c]|..];
  }

  /**
   * The requests of the loop, retries included: one block per id in order,
   * `/movie/{id}` then `/movie/{id}/credits`, over all ids when it succeeds
   * and over the ids up to the one whose turn failed when it fails, with
   * no request after that one.
   */
  lemma {:induction false} DetailsOfOrder(fetch: (seq<Event>, Json) -> Step<(Json, Json)>, env: Env, ids: seq<Json>,
                                          log: seq<Event>, details: seq<Json>, credits: seq<Json>)
    requires FetchesMovies(fetch, env)
    ensures var st := DetailsOf(fetch, ids, log, details, credits);
      && |log| <= |st.events|
      && (st.result.Ok? ==> MovieBlocks(env, ids, st.events[|log|..]))
      && (st.result.Err? ==> exists k :: 0 < k <= |ids| && MovieBlocks(env, ids[..k], st.events[|log|..]))
    decreases |ids|
  {
    var st := DetailsOf(fetch, ids, log, details, credits);
    DetailsOfPrefix(fetch, ids, log, details, credits);
    if ids == [] {
      assert st.events[|log|..] == [];
    } else {
      var m := fetch(log, ids[0]);
      assert MovieFacts(env, ids[0], m);
      if m.result.Err? {
        assert st.events[|log|..] == m.events + [];
        assert ids[..1][0] == ids[0] && ids[..1][1..] == [];
        MovieBlocksCons(env, ids[..1], m.events, []);
        assert MovieBlocks(env, ids[..1], st.events[|log|..]);
      } else {
        var (d, c) := m.result.value;
        var log2 := log + m.events;
        DetailsOfPrefix(fetch, ids[1..], log2, details + [d], credits + [c]);
        DetailsOfOrder(fetch, env, ids[1..], log2, details + [d], credits + [c]);
        SplitAfter(st.events, log, m.events);
        var rest := st.events[|log2|..];
        if st.result.Ok? {
          MovieBlocksCons(env, ids, m.events, rest);
        } else {
          var k' :| 0 < k' <= |ids[1..]| && MovieBlocks(env, ids[1..][..k'], rest);
          var k := k' + 1;
          assert ids[..k][0] == ids[0] && ids[..k][1..] == ids[1..][..k'];
          MovieBlocksCons(env, ids[..k], m.events, rest);
        }
      }
    }
  }

  /** The lists extract_movie_details saves. */
  predicate DetailsSaved(env: Env, ids: seq<Json>, added: seq<Event>, ds: seq<Json>, cs: seq<Json>)
  {
    && |ds| == |ids| && |cs| == |ids|
    && |added| >= 2 && MovieBlocks(env, ids, added[..|added| - 2])
    && added[|added| - 2..] == [Saved(Processed, DETAILS_FILE, JArr(ds)), Saved(Processed, CREDITS_FILE, JArr(cs))]
    && OkExchanges(added) == MovieExchanges(env, ids, ds, cs)
    && SavedFiles(added) == [Saved(Processed, DETAILS_FILE, JArr(ds)), Saved(Processed, CREDITS_FILE, JArr(cs))]
  }

  /**
   * extract_movie_details writes a file only when every request it made was
   * answered; it then writes details.json and credits.json, in this order,
   * with one entry per id, position i holding the responses for `ids[i]`.
   * Its requests, retries included, go id by id in order, `/movie/{id}`
   * then `/movie/{id}/credits`; a failing run makes none after the id that
   * failed.
   */
  lemma DetailsTrace(env: Env, ids: seq<Json>, log: seq<Event>)
    ensures var st := DetailsSpec(env, ids, log);
      && |log| <= |st.events| && st.events[..|log|] == log
      && (st.result.Err? ==> SavedFiles(st.events[|log|..]) == [])
      && (st.result.Err? ==> exists k :: 0 < k <= |ids| && MovieBlocks(env, ids[..k], st.events[|log|..]))
      && (st.result.Ok? ==> exists ds, cs :: DetailsSaved(env, ids, st.events[|log|..], ds, cs))
  {
    MovieFetchesFacts(env);
    DetailsSaveTrace(MovieFetches(env), env, ids, log);
  }

  lemma DetailsSaveTrace(fetch: (seq<Event>, Json) -> Step<(Json, Json)>, env: Env, ids: seq<Json>, log: seq<Event>)
    requires FetchesMovies(fetch, env)
    ensures var st := DetailsSaveOf(fetch, ids, log);
      && |log| <= |st.events| && st.events[..|log|] == log
      && (st.result.Err? ==> SavedFiles(st.events[|log|..]) == [])
      && (st.result.Err? ==> exists k :: 0 < k <= |ids| && MovieBlocks(env, ids[..k], st.events[|log|..]))
      && (st.result.Ok? ==> exists ds, cs :: DetailsSaved(env, ids, st.events[|log|..], ds, cs))
  {
    var loop := DetailsOf(fetch, ids, log, [], []);
    var st := DetailsSaveOf(fetch, ids, log);
    DetailsOfPrefix(fetch, ids, log, [], []);
    DetailsOfTrace(fetch, env, ids, log, [], []);
    DetailsOfOrder(fetch, env, ids, log, [], []);
    if loop.result.Ok? {
      var (ds, cs) := loop.result.value;
      var saves := [Saved(Processed, DETAILS_FILE, JArr(ds)), Saved(Processed, CREDITS_FILE, JArr(cs))];
      assert st.events == loop.events + saves;
      assert st.events[|log|..] == loop.events[|log|..] + saves;
      assert ds[0..] == ds && cs[0..] == cs;
      SavesAfterLoop(env, ids, loop.events[|log|..], ds, cs);
    } else {
      assert st.events == loop.events;
    }
  }

  /** The two snapshots written after a loop that wrote none. */
  lemma SavesAfterLoop(env: Env, ids: seq<Json>, added: seq<Event>, ds: seq<Json>, cs: seq<Json>)
    requires |ds| == |ids| && |cs| == |ids|
    requires SavedFiles(added) == [] && OkExchanges(added) == MovieExchanges(env, ids, ds, cs)
    requires MovieBlocks(env, ids, added)
    ensures DetailsSaved(env, ids, added + [Saved(Processed, DETAILS_FILE, JArr(ds)), Saved(Processed, CREDITS_FILE, JArr(cs))], ds, cs)
  {
    var saves := [Saved(Processed, DETAILS_FILE, JArr(ds)), Saved(Processed, CREDITS_FILE, JArr(cs))];
    NoRequestSaves(ds, cs);
    LogAppend(added, saves);
    assert (added + saves)[..|added + saves| - 2] == added;
  }

  lemma NoRequestSaves(ds: seq<Json>, cs: seq<Json>)
    ensures var saves := [Saved(Processed, DETAILS_FILE, JArr(ds)), Saved(Processed, CREDITS_FILE, JArr(cs))];
            OkExchanges(saves) == [] && SavedFiles(saves) == saves
  {
    var a := Saved(Processed, DETAILS_FILE, JArr(ds));
    var b := Saved(Processed, CREDITS_FILE, JArr(cs));
    SaveAfter([], a);
    SaveAfter([], b);
    assert [] + [a] == [a] && [] + [b] == [b];
    LogAppend([a], [b]);
    assert [a] + [b] == [a, b];
  }

  // ---------------------------------------------------------------------
  // extract_all

  /** The four listing extractions extract_all runs first, in this order. */
  const LISTINGS: seq<Listing> := [POPULAR, TOP_RATED, UPCOMING, TRENDING]

  /** The raw snapshots extract_all writes, in this order. */
  const SNAPSHOT_FILES: seq<string> := [POPULAR.file, TOP_RATED.file, UPCOMING.file, TRENDING.file, GENRES_FILE]

  /** The listing extractions `listings`, one after the other, stopping at the first that raises. */
  function ListingsSpec(env: Env, listings: seq<Listing>, log: seq<Event>): Step<()>
    decreases |listings|
  {
    if listings == [] then Step(log, Ok(()))
    else
      var first := ListingSpec(env, listings[0], log);
      if first.result.Err? then first else ListingsSpec(env, listings[1..], first.events)
  }

  /** The listings, then extract_genres. */
  function SnapshotsSpec(env: Env, log: seq<Event>): Step<()>
  {
    var listings := ListingsSpec(env, LISTINGS, log);
    if listings.result.Err? then listings else GenresSpec(env, listings.events)
  }

  /**
   * `json.load` of a snapshot in a log: the data of the last file saved
   * under that name, or FileNotFoundError when there is none.
   */
  function LoadJson(log: seq<Event>, folder: Folder, name: string): Result<Json, PyError>
  {
    LatestFile(SavedFiles(log), folder, name)
  }

  function LatestFile(files: seq<Event>, folder: Folder, name: string): Result<Json, PyError>
    decreases |files|
  {
    if files == [] then Err(FileNotFoundError(name))
    else
      var e := files[|files| - 1];
      if e.Saved? && e.folder == folder && e.name == name then Ok(e.data)
      else LatestFile(files[..|files| - 1], folder, name)
  }

  /**
   * `[m["id"] for m in popular[:50]]`. Slicing a dict, number, bool or None
   * raises TypeError; a string slices to a string, whose characters have no
   * `"id"`.
   */
  function SelectIds(popular: Json): Result<seq<Json>, PyError>
  {
    match popular
    case JArr(items) =>
      MapAll(items[..if |items| < MAX_DETAILED then |items| else MAX_DETAILED], IdOf)
    case JStr(s) => if s == [] then Ok([]) else Err(TypeError)
    case _ => Err(TypeError)
  }

  /**
   * The ids extract_all details are the `id`s of the first
   * min(50, len(popular)) popular movies, in order; it fails with the
   * error of the first of them without an `id`.
   */
  lemma SelectIdsSpec(items: seq<Json>)
    ensures var k := if |items| < MAX_DETAILED then |items| else MAX_DETAILED;
            var r := SelectIds(JArr(items));
      && (r.Ok? <==> forall i :: 0 <= i < k ==> Index(items[i], "id").Ok?)
      && (r.Ok? ==> |r.value| == k && forall i :: 0 <= i < k ==> r.value[i] == Index(items[i], "id").value)
      && (r.Err? ==> exists i :: 0 <= i < k && Index(items[i], "id") == Err(r.error) &&
                                 forall j :: 0 <= j < i ==> Index(items[j], "id").Ok?)
  {
    var k := if |items| < MAX_DETAILED then |items| else MAX_DETAILED;
    var top := items[..k];
    assert forall i :: 0 <= i < k ==> top[i] == items[i];
    MapAllOk(top, IdOf);
    if SelectIds(JArr(items)).Err? {
      MapAllErr(top, IdOf);
    }
  }

  /** `m["id"]`. */
  function IdOf(m: Json): Result<Json, PyError>
  {
    Index(m, "id")
  }

  /** extract_all from the log `log`. */
  function ExtractAllSpec(env: Env, log: seq<Event>): Step<()>
  {
    var snapshots := SnapshotsSpec(env, log);
    if snapshots.result.Err? then snapshots else
    match LoadJson(snapshots.events, Raw, POPULAR.file)
    case Err(e) => Step(snapshots.events, Err(Raised(e)))
    case Ok(popular) =>
      match SelectIds(popular)
      case Err(e) => Step(snapshots.events, Err(Raised(e)))
      case Ok(ids) => DetailsSpec(env, ids, snapshots.events)
  }

  method ExtractListings(s: Session, listings: seq<Listing>) returns (r: Result<(), Failure>)
    modifies s
    ensures ListingsSpec(s.env, listings, old(s.log)) == Step(s.log, r)
  {
    ghost var spec := ListingsSpec(s.env, listings, s.log);
    var i := 0;
    while i < |listings|
      invariant 0 <= i <= |listings|
      invariant spec == ListingsSpec(s.env, listings[i..], s.log)
    {
      ghost var log := s.log;
      r := ExtractListing(s, listings[i]);
      assert listings[i..][1..] == listings[i + 1..];
      if r.Err? {
        return;
      }
      i := i + 1;
    }
    assert listings[i..] == [];
    return Ok(());
  }

  method ExtractAll(s: Session) returns (r: Result<(), Failure>)
    modifies s
    ensures ExtractAllSpec(s.env, old(s.log)) == Step(s.log, r)
  {
    r := ExtractListings(s, LISTINGS);
    if r.Err? {
      return;
    }
    r := ExtractGenres(s);
    if r.Err? {
      return;
    }
    var popular := LoadJson(s.log, Raw, POPULAR.file);
    if popular.Err? {
      return Err(Raised(popular.error));
    }
    var movieIds := SelectIds(popular.value);
    if movieIds.Err? {
      return Err(Raised(movieIds.error));
    }
    r := ExtractMovieDetails(s, movieIds.value);
  }

  /** `files` are raw snapshots named by the first |files| of `names`. */
  predicate NamedSnapshots(files: seq<Event>, names: seq<string>)
  {
    && |files| <= |names|
    && forall i :: 0 <= i < |files| ==> files[i].Saved? && files[i].folder == Raw && files[i].name == names[i]
  }

  function FilesOf(listings: seq<Listing>): (names: seq<string>)
    ensures |names| == |listings| && forall i :: 0 <= i < |listings| ==> names[i] == listings[i].file
    decreases |listings|
  {
    if listings == [] then [] else [listings[0].file] + FilesOf(listings[1..])
  }

  /** The files of a log after `log`, split at an intermediate log `mid`. */
  lemma SavedBetween(log: seq<Event>, mid: seq<Event>, events: seq<Event>)
    requires |log| <= |mid| && mid[..|log|] == log
    requires |mid| <= |events| && events[..|mid|] == mid
    ensures events[..|log|] == log
    ensures SavedFiles(events[|log|..]) == SavedFiles(mid[|log|..]) + SavedFiles(events[|mid|..])
  {
    assert events[..|log|] == mid[..|log|];
    assert events[|log|..] == mid[|log|..] + events[|mid|..];
    LogAppend(mid[|log|..], events[|mid|..]);
  }

  /**
   * Listing extractions in a row write one raw snapshot each, in their
   * order, until the first that fails; all of them succeed exactly when
   * every snapshot is written.
   */
  lemma {:induction false} ListingsTrace(env: Env, listings: seq<Listing>, log: seq<Event>)
    ensures var st := ListingsSpec(env, listings, log);
      && |log| <= |st.events| && st.events[..|log|] == log
      && NamedSnapshots(SavedFiles(st.events[|log|..]), FilesOf(listings))
      && (st.result.Ok? <==> |SavedFiles(st.events[|log|..])| == |listings|)
    decreases |listings|
  {
    var st := ListingsSpec(env, listings, log);
    if listings == [] {
      assert st.events[|log|..] == [];
    } else {
      var first := ListingSpec(env, listings[0], log);
      ListingTrace(env, listings[0], log);
      if first.result.Err? {
        assert SavedFiles(st.events[|log|..]) == [];
      } else {
        ListingsTrace(env, listings[1..], first.events);
        SavedBetween(log, first.events, st.events);
        SnapshotsAppend(SavedFiles(first.events[|log|..]), SavedFiles(st.events[|first.events|..]), FilesOf(listings));
      }
    }
  }

  lemma SnapshotsAppend(one: seq<Event>, rest: seq<Event>, names: seq<string>)
    requires |one| <= |names| && NamedSnapshots(one, names[..|one|]) && NamedSnapshots(rest, names[|one|..])
    ensures NamedSnapshots(one + rest, names)
  {
    forall i | 0 <= i < |one + rest|
      ensures (one + rest)[i].Saved? && (one + rest)[i].folder == Raw && (one + rest)[i].name == names[i]
    {
      if i >= |one| {
        assert (one + rest)[i] == rest[i - |one|];
      }
    }
  }

  /**
   * extract_all's first five steps write popular.json, top_rated.json,
   * upcoming.json, trending.json and genres.json to data/raw, in this
   * order, stopping at the first step that raises; they succeed exactly
   * when all five are written.
   */
  lemma SnapshotsTrace(env: Env, log: seq<Event>)
    ensures var st := SnapshotsSpec(env, log);
      && |log| <= |st.events| && st.events[..|log|] == log
      && NamedSnapshots(SavedFiles(st.events[|log|..]), SNAPSHOT_FILES)
      && (st.result.Ok? <==> |SavedFiles(st.events[|log|..])| == |SNAPSHOT_FILES|)
  {
    var listings := ListingsSpec(env, LISTINGS, log);
    ListingsTrace(env, LISTINGS, log);
    assert FilesOf(LISTINGS) == SNAPSHOT_FILES[..4];
    if listings.result.Ok? {
      GenresTrace(env, listings.events);
      GenresAfterListings(log, listings, GenresSpec(env, listings.events));
    }
  }

  /** The genres step after four listing snapshots adds the fifth, or fails with none. */
  lemma GenresAfterListings(log: seq<Event>, listings: Step<()>, genres: Step<()>)
    requires |log| <= |listings.events| && listings.events[..|log|] == log
    requires NamedSnapshots(SavedFiles(listings.events[|log|..]), SNAPSHOT_FILES[..4])
    requires |SavedFiles(listings.events[|log|..])| == 4
    requires |listings.events| <= |genres.events| && genres.events[..|listings.events|] == listings.events
    requires genres.result.Err? ==> SavedFiles(genres.events[|listings.events|..]) == []
    requires genres.result.Ok? ==> exists data ::
      SavedFiles(genres.events[|listings.events|..]) == [Saved(Raw, GENRES_FILE, data)]
    ensures |log| <= |genres.events| && genres.events[..|log|] == log
    ensures NamedSnapshots(SavedFiles(genres.events[|log|..]), SNAPSHOT_FILES)
    ensures genres.result.Ok? <==> |SavedFiles(genres.events[|log|..])| == |SNAPSHOT_FILES|
  {
    SavedBetween(log, listings.events, genres.events);
    SnapshotsAppend(SavedFiles(listings.events[|log|..]), SavedFiles(genres.events[|listings.events|..]), SNAPSHOT_FILES);
  }

  /**
   * The movie list extract_all loads is the popular.json it wrote in the
   * same run, not a file left by an earlier one.
   */
  lemma ReadsOwnPopular(env: Env, log: seq<Event>)
    ensures var st := SnapshotsSpec(env, log);
      && |log| <= |st.events|
      && (st.result.Ok? ==>
            var files := SavedFiles(st.events[|log|..]);
            && |files| == 5 && files[0].Saved?
            && LoadJson(st.events, Raw, POPULAR.file) == Ok(files[0].data))
  {
    var st := SnapshotsSpec(env, log);
    SnapshotsTrace(env, log);
    if st.result.Ok? {
      var added := st.events[|log|..];
      assert st.events == log + added;
      LogAppend(log, added);
      PopularFirst(SavedFiles(log), SavedFiles(added));
    }
  }

  /** The first of the five snapshots is the latest popular.json. */
  lemma PopularFirst(prior: seq<Event>, files: seq<Event>)
    requires |files| == 5 && NamedSnapshots(files, SNAPSHOT_FILES)
    ensures files[0].Saved? && LatestFile(prior + files, Raw, POPULAR.file) == Ok(files[0].data)
  {
    LatestFileSkip(prior + files[..1], files[1..], Raw, POPULAR.file);
    assert prior + files == prior + files[..1] + files[1..];
    assert (prior + files[..1])[..|prior + files[..1]| - 1] == prior;
  }

  /** Files saved under other names do not hide a file. */
  lemma {:induction false} LatestFileSkip(files: seq<Event>, more: seq<Event>, folder: Folder, name: string)
    requires forall i :: 0 <= i < |more| ==> more[i].Saved? ==> more[i].name != name
    ensures LatestFile(files + more, folder, name) == LatestFile(files, folder, name)
    decreases |more|
  {
    if more == [] {
      assert files + more == files;
    } else {
      var m := more[..|more| - 1];
      assert (files + more)[..|files + more| - 1] == files + m;
      LatestFileSkip(files, m, folder, name);
    }
  }
}
