/**
 * src/etl/transform_tmdb.py: the normaliser. It reads details.json,
 * credits.json and genres.json from data/processed and flattens them into
 * five tables, movies, genres, movie_genres, cast and crew, each written to
 * data/clean as soon as it is built. The tables are modelled as sequences
 * of rows; a row of the fixed-column tables is a datatype with one field
 * per column, and a genres row, whose columns are whatever keys TMDB sent,
 * is a dict.
 */
module TransformTmdb {
  import opened Wrappers
  import opened Json
  import opened Traverse

  // ---------------------------------------------------------------------
  // Rows

  datatype MovieRow = MovieRow(
    movieId: Json, title: Json, originalTitle: Json, overview: Json, releaseDate: Json, runtime: Json,
    popularity: Json, voteAverage: Json, voteCount: Json, budget: Json, revenue: Json, originalLanguage: Json)

  datatype MovieGenre = MovieGenre(movieId: Json, genreId: Json)

  datatype CastRow = CastRow(
    movieId: Json, castId: Json, personId: Json, name: Json, character: Json, gender: Json, order: Json)

  datatype CrewRow = CrewRow(movieId: Json, personId: Json, name: Json, department: Json, job: Json)

  /** One written CSV file and its rows. */
  datatype Table =
    | MoviesCsv(movies: seq<MovieRow>)
    | GenresCsv(genres: seq<map<string, Json>>)
    | MovieGenresCsv(links: seq<MovieGenre>)
    | CastCsv(cast: seq<CastRow>)
    | CrewCsv(crew: seq<CrewRow>)

  /** The keys a movies row copies with `movie.get`, in column order after `movie_id`. */
  const MOVIE_FIELDS: seq<string> :=
    ["title", "original_title", "overview", "release_date", "runtime", "popularity",
     "vote_average", "vote_count", "budget", "revenue", "original_language"]

  /** The columns of a movies row after `movie_id`, in order. */
  function MovieColumns(row: MovieRow): seq<Json>
  {
    [row.title, row.originalTitle, row.overview, row.releaseDate, row.runtime, row.popularity,
     row.voteAverage, row.voteCount, row.budget, row.revenue, row.originalLanguage]
  }

  // ---------------------------------------------------------------------
  // movies (lines 32-48)

  /**
   * The movies row of one detail record: `movie["id"]`, then `movie.get`
   * of each other column.
   */
  function MovieRowOf(movie: Json): Result<MovieRow, PyError>
  {
    match movie
    case JObj(f) =>
      if "id" !in f then Err(KeyError("id"))
      else
        Ok(MovieRow(f["id"], Get(f, "title"), Get(f, "original_title"), Get(f, "overview"),
                    Get(f, "release_date"), Get(f, "runtime"), Get(f, "popularity"), Get(f, "vote_average"),
                    Get(f, "vote_count"), Get(f, "budget"), Get(f, "revenue"), Get(f, "original_language")))
    case _ => Err(TypeError)
  }

  /** movies_rows: one row per detail record, in order. */
  function MoviesTable(details: Json): Result<seq<MovieRow>, PyError>
  {
    match DictLoopItems(details)
    case Err(e) => Err(e)
    case Ok(movies) => MapAll(movies, MovieRowOf)
  }

  method BuildMovies(details: Json) returns (r: Result<seq<MovieRow>, PyError>)
    ensures r == MoviesTable(details)
  {
    var movies := DictLoopItems(details);
    if movies.Err? {
      return Err(movies.error);
    }
    var items := movies.value;
    var rows: seq<MovieRow> := [];
    var i := 0;
    while i < |items|
      invariant 0 <= i <= |items|
      invariant MapAll(items[..i], MovieRowOf) == Ok(rows)
    {
      var row := MovieRowOf(items[i]);
      assert items[..i + 1][..i] == items[..i];
      if row.Err? {
        MapAllStops(items, MovieRowOf, i + 1);
        return Err(row.error);
      }
      rows := rows + [row.value];
      i := i + 1;
    }
    assert items[..i] == items;
    return Ok(rows);
  }

  /**
   * One detail record's row: it needs a dict with an `id` (TypeError,
   * else KeyError "id"); `movie_id` is that id, and every other column is
   * the record's value for its key, or None when the key is absent.
   */
  lemma MovieRowSpec(movie: Json)
    ensures MovieRowOf(movie).Ok? <==> movie.JObj? && "id" in movie.fields
    ensures !movie.JObj? ==> MovieRowOf(movie) == Err(TypeError)
    ensures movie.JObj? && "id" !in movie.fields ==> MovieRowOf(movie) == Err(KeyError("id"))
    ensures MovieRowOf(movie).Ok? ==>
      var row := MovieRowOf(movie).value;
      && row.movieId == movie.fields["id"]
      && |MovieColumns(row)| == |MOVIE_FIELDS|
      && forall k :: 0 <= k < |MOVIE_FIELDS| ==>
           && (MOVIE_FIELDS[k] in movie.fields ==> MovieColumns(row)[k] == movie.fields[MOVIE_FIELDS[k]])
           && (MOVIE_FIELDS[k] !in movie.fields ==> MovieColumns(row)[k] == JNull)
  {
  }

  /**
   * The movies table has one row per detail record, in order, with
   * `movie_id` the record's `id`; it fails with the error of the first
   * record that is not a dict with an `id`.
   */
  lemma MoviesTableSpec(movies: seq<Json>)
    ensures var r := MoviesTable(JArr(movies));
      && (r.Ok? <==> forall i :: 0 <= i < |movies| ==> movies[i].JObj? && "id" in movies[i].fields)
      && (r.Ok? ==>
            && |r.value| == |movies|
            && forall i :: 0 <= i < |movies| ==>
                 r.value[i] == MovieRowOf(movies[i]).value && r.value[i].movieId == movies[i].fields["id"])
      && (r.Err? ==> exists k :: 0 <= k < |movies| && MovieRowOf(movies[k]) == Err(r.error) &&
                                 forall j :: 0 <= j < k ==> MovieRowOf(movies[j]).Ok?)
  {
    MapAllOk(movies, MovieRowOf);
    forall i | 0 <= i < |movies|
      ensures MovieRowOf(movies[i]).Ok? <==> movies[i].JObj? && "id" in movies[i].fields
    {
      MovieRowSpec(movies[i]);
    }
    if MoviesTable(JArr(movies)).Err? {
      MapAllErr(movies, MovieRowOf);
    }
  }

  // ---------------------------------------------------------------------
  // genres (lines 59-60)

  /** `rename(columns={"id": "genre_id"})` on one row. */
  function RenameId(row: map<string, Json>): map<string, Json>
  {
    if "id" in row then (row - {"id"})["genre_id" := row["id"]] else row
  }

  /** A row of `pd.DataFrame(list_of_dicts)`. */
  function GenreRowOf(v: Json): Result<map<string, Json>, PyError>
  {
    match v
    case JObj(f) => Ok(RenameId(f))
    case _ => Err(NotModelled("a DataFrame row that is not a dict"))
  }

  /**
   * `pd.DataFrame(genres["genres"])` with `id` renamed to `genre_id`:
   * None gives an empty frame, a list of dicts one row per dict, a scalar
   * ValueError.
   */
  function GenresTable(genres: Json): Result<seq<map<string, Json>>, PyError>
  {
    match Index(genres, "genres")
    case Err(e) => Err(e)
    case Ok(v) =>
      match v
      case JNull => Ok([])
      case JArr(items) => MapAll(items, GenreRowOf)
      case JObj(_) => Err(NotModelled("a DataFrame built from a dict of columns"))
      case _ => Err(ValueError("DataFrame constructor not properly called!"))
  }

  /**
   * The genres table has one row per entry of `genres["genres"]`, in order;
   * in each, `id` becomes `genre_id` and every other column is unchanged.
   */
  lemma GenresTableSpec(entries: seq<map<string, Json>>)
    ensures var r := GenresTable(JObj(map["genres" := JArr(seq(|entries|, i requires 0 <= i < |entries| => JObj(entries[i])))]));
      && r.Ok? && |r.value| == |entries|
      && forall i :: 0 <= i < |entries| ==>
           && "id" !in r.value[i]
           && ("id" !in entries[i] ==> r.value[i] == entries[i])
           && ("id" in entries[i] ==> "genre_id" in r.value[i] && r.value[i]["genre_id"] == entries[i]["id"])
           && (forall k :: k in entries[i] && k != "id" && k != "genre_id" ==> k in r.value[i] && r.value[i][k] == entries[i][k])
           && (forall k :: k in r.value[i] && k != "genre_id" ==> k in entries[i] && entries[i][k] == r.value[i][k])
  {
    var items := seq(|entries|, i requires 0 <= i < |entries| => JObj(entries[i]));
    MapAllOk(items, GenreRowOf);
  }

  // ---------------------------------------------------------------------
  // movie_genres (lines 70-78)

  /** The row `{"movie_id": movie["id"], "genre_id": g["id"]}`, its keys read in this order. */
  function GenreLink(movie: Json, g: Json): Result<MovieGenre, PyError>
  {
    match Index(movie, "id")
    case Err(e) => Err(e)
    case Ok(id) =>
      match Index(g, "id")
      case Err(e) => Err(e)
      case Ok(genreId) => Ok(MovieGenre(id, genreId))
  }

  /**
   * The genre list movie_genres iterates for a movie, when `movie.get("genres")`
   * is truthy. A non-empty string or dict is iterable, so the loop body runs
   * on its first item and reads `movie["id"]` before it fails on `g["id"]`.
   */
  function GenreLinksOf(movie: Json): Result<seq<MovieGenre>, PyError>
  {
    match movie
    case JObj(f) =>
      if !Truthy(Get(f, "genres")) then Ok([])
      else
        (match DictLoopItems(f["genres"])
         case Err(e) =>
           if (f["genres"].JStr? || f["genres"].JObj?) && Index(movie, "id").Err?
           then Err(Index(movie, "id").error) else Err(e)
         case Ok(gs) => MapAll(gs, (g: Json) => GenreLink(movie, g)))
    case _ => Err(TypeError)
  }

  function MovieGenresTable(details: Json): Result<seq<MovieGenre>, PyError>
  {
    match DictLoopItems(details)
    case Err(e) => Err(e)
    case Ok(movies) => FlatMapAll(movies, GenreLinksOf)
  }

  /** The inner loop `for g in movie["genres"]` of one movie. */
  method LinkGenres(movie: Json) returns (r: Result<seq<MovieGenre>, PyError>)
    ensures r == GenreLinksOf(movie)
  {
    if !movie.JObj? {
      return Err(TypeError);
    }
    if !Truthy(Get(movie.fields, "genres")) {
      return Ok([]);
    }
    var genres := DictLoopItems(movie.fields["genres"]);
    if genres.Err? {
      var g := movie.fields["genres"];
      if (g.JStr? || g.JObj?) && Index(movie, "id").Err? {
        return Err(Index(movie, "id").error);
      }
      return Err(genres.error);
    }
    var gs := genres.value;
    var link := (g: Json) => GenreLink(movie, g);
    var rows: seq<MovieGenre> := [];
    var j := 0;
    while j < |gs|
      invariant 0 <= j <= |gs|
      invariant MapAll(gs[..j], link) == Ok(rows)
    {
      var row := GenreLink(movie, gs[j]);
      assert gs[..j + 1][..j] == gs[..j];
      if row.Err? {
        MapAllStops(gs, link, j + 1);
        return Err(row.error);
      }
      rows := rows + [row.value];
      j := j + 1;
    }
    assert gs[..j] == gs;
    return Ok(rows);
  }

  method BuildMovieGenres(details: Json) returns (r: Result<seq<MovieGenre>, PyError>)
    ensures r == MovieGenresTable(details)
  {
    var movies := DictLoopItems(details);
    if movies.Err? {
      return Err(movies.error);
    }
    var items := movies.value;
    var rows: seq<MovieGenre> := [];
    var i := 0;
    while i < |items|
      invariant 0 <= i <= |items|
      invariant FlatMapAll(items[..i], GenreLinksOf) == Ok(rows)
    {
      var part := LinkGenres(items[i]);
      assert items[..i + 1][..i] == items[..i];
      if part.Err? {
        FlatMapAllStops(items, GenreLinksOf, i + 1);
        return Err(part.error);
      }
      rows := rows + part.value;
      i := i + 1;
    }
    assert items[..i] == items;
    return Ok(rows);
  }

  /** The genre entries of a movie that movie_genres walks: none when `genres` is missing or empty. */
  function GenresOf(movie: Json): seq<Json>
  {
    if movie.JObj? && Truthy(Get(movie.fields, "genres")) && movie.fields["genres"].JArr?
    then movie.fields["genres"].items
    else []
  }

  /**
   * One movie's links: a movie without a truthy `genres` contributes none;
   * a non-empty string or dict of genres fails on its first item, with
   * KeyError for a movie without `id` and TypeError otherwise; otherwise,
   * for a dict with an `id` whose genres are a list of dicts with `id`s, one
   * (movie id, genre id) row per genre, in order.
   */
  lemma GenreLinksSpec(movie: Json)
    ensures movie.JObj? && !Truthy(Get(movie.fields, "genres")) ==> GenreLinksOf(movie) == Ok([])
    ensures movie.JObj? && Truthy(Get(movie.fields, "genres")) &&
            (movie.fields["genres"].JStr? || movie.fields["genres"].JObj?) ==>
      GenreLinksOf(movie) == Err(if "id" in movie.fields then TypeError else KeyError("id"))
    ensures GenreLinksOf(movie).Ok? ==>
      var rows := GenreLinksOf(movie).value;
      && |rows| == |GenresOf(movie)|
      && forall j :: 0 <= j < |rows| ==>
           && GenresOf(movie)[j].JObj? && "id" in GenresOf(movie)[j].fields
           && rows[j] == MovieGenre(movie.fields["id"], GenresOf(movie)[j].fields["id"])
  {
    if movie.JObj? && Truthy(Get(movie.fields, "genres")) {
      var g := movie.fields["genres"];
      if g.JArr? {
        var link := (x: Json) => GenreLink(movie, x);
        MapAllOk(g.items, link);
      }
    }
  }

  /**
   * movie_genres is the movies' links concatenated in movie order: its row
   * count is the sum of the lengths of the genre lists it walks, and the
   * k-th part comes from the k-th movie.
   */
  lemma MovieGenresTableSpec(movies: seq<Json>)
    ensures var r := MovieGenresTable(JArr(movies));
            var parts := Parts(movies, GenreLinksOf);
      && (r.Ok? <==> forall i :: 0 <= i < |movies| ==> GenreLinksOf(movies[i]).Ok?)
      && (r.Ok? ==>
            && r.value == Flatten(parts)
            && |r.value| == SumLengths(parts)
            && forall i :: 0 <= i < |movies| ==> |parts[i]| == |GenresOf(movies[i])|)
  {
    FlatMapAllOk(movies, GenreLinksOf);
    forall i | 0 <= i < |movies| && GenreLinksOf(movies[i]).Ok?
      ensures |Parts(movies, GenreLinksOf)[i]| == |GenresOf(movies[i])|
    {
      GenreLinksSpec(movies[i]);
    }
  }

  // ---------------------------------------------------------------------
  // cast (lines 89-103) and crew (lines 114-126)

  function CastRowOf(movieId: Json, actor: Json): Result<CastRow, PyError>
  {
    match actor
    case JObj(a) =>
      Ok(CastRow(movieId, Get(a, "cast_id"), Get(a, "id"), Get(a, "name"), Get(a, "character"),
                 Get(a, "gender"), Get(a, "order")))
    case _ => Err(TypeError)
  }

  function CrewRowOf(movieId: Json, member: Json): Result<CrewRow, PyError>
  {
    match member
    case JObj(m) => Ok(CrewRow(movieId, Get(m, "id"), Get(m, "name"), Get(m, "department"), Get(m, "job")))
    case _ => Err(TypeError)
  }

  /** One credit record's cast rows: `movie_id = c["id"]`, then `for actor in c.get("cast", [])`. */
  function CastRowsOf(c: Json): Result<seq<CastRow>, PyError>
  {
    match Index(c, "id")
    case Err(e) => Err(e)
    case Ok(movieId) =>
      match DictLoopItems(GetOr(c.fields, "cast", JArr([])))
      case Err(e) => Err(e)
      case Ok(actors) => MapAll(actors, (a: Json) => CastRowOf(movieId, a))
  }

  function CrewRowsOf(c: Json): Result<seq<CrewRow>, PyError>
  {
    match Index(c, "id")
    case Err(e) => Err(e)
    case Ok(movieId) =>
      match DictLoopItems(GetOr(c.fields, "crew", JArr([])))
      case Err(e) => Err(e)
      case Ok(members) => MapAll(members, (m: Json) => CrewRowOf(movieId, m))
  }

  function CastTable(credits: Json): Result<seq<CastRow>, PyError>
  {
    match DictLoopItems(credits)
    case Err(e) => Err(e)
    case Ok(cs) => FlatMapAll(cs, CastRowsOf)
  }

  function CrewTable(credits: Json): Result<seq<CrewRow>, PyError>
  {
    match DictLoopItems(credits)
    case Err(e) => Err(e)
    case Ok(cs) => FlatMapAll(cs, CrewRowsOf)
  }

  /** The inner loop over one credit record's cast. */
  method CastOf(c: Json) returns (r: Result<seq<CastRow>, PyError>)
    ensures r == CastRowsOf(c)
  {
    var id := Index(c, "id");
    if id.Err? {
      return Err(id.error);
    }
    var movieId := id.value;
    var cast := DictLoopItems(GetOr(c.fields, "cast", JArr([])));
    if cast.Err? {
      return Err(cast.error);
    }
    var actors := cast.value;
    var row := (a: Json) => CastRowOf(movieId, a);
    var rows: seq<CastRow> := [];
    var j := 0;
    while j < |actors|
      invariant 0 <= j <= |actors|
      invariant MapAll(actors[..j], row) == Ok(rows)
    {
      var next := CastRowOf(movieId, actors[j]);
      assert actors[..j + 1][..j] == actors[..j];
      if next.Err? {
        MapAllStops(actors, row, j + 1);
        return Err(next.error);
      }
      rows := rows + [next.value];
      j := j + 1;
    }
    assert actors[..j] == actors;
    return Ok(rows);
  }

  /** The inner loop over one credit record's crew. */
  method CrewOf(c: Json) returns (r: Result<seq<CrewRow>, PyError>)
    ensures r == CrewRowsOf(c)
  {
    var id := Index(c, "id");
    if id.Err? {
      return Err(id.error);
    }
    var movieId := id.value;
    var crew := DictLoopItems(GetOr(c.fields, "crew", JArr([])));
    if crew.Err? {
      return Err(crew.error);
    }
    var members := crew.value;
    var row := (m: Json) => CrewRowOf(movieId, m);
    var rows: seq<CrewRow> := [];
    var j := 0;
    while j < |members|
      invariant 0 <= j <= |members|
      invariant MapAll(members[..j], row) == Ok(rows)
    {
      var next := CrewRowOf(movieId, members[j]);
      assert members[..j + 1][..j] == members[..j];
      if next.Err? {
        MapAllStops(members, row, j + 1);
        return Err(next.error);
      }
      rows := rows + [next.value];
      j := j + 1;
    }
    assert members[..j] == members;
    return Ok(rows);
  }

  method BuildCast(credits: Json) returns (r: Result<seq<CastRow>, PyError>)
    ensures r == CastTable(credits)
  {
    var records := DictLoopItems(credits);
    if records.Err? {
      return Err(records.error);
    }
    var items := records.value;
    var rows: seq<CastRow> := [];
    var i := 0;
    while i < |items|
      invariant 0 <= i <= |items|
      invariant FlatMapAll(items[..i], CastRowsOf) == Ok(rows)
    {
      var part := CastOf(items[i]);
      assert items[..i + 1][..i] == items[..i];
      if part.Err? {
        FlatMapAllStops(items, CastRowsOf, i + 1);
        return Err(part.error);
      }
      rows := rows + part.value;
      i := i + 1;
    }
    assert items[..i] == items;
    return Ok(rows);
  }

  method BuildCrew(credits: Json) returns (r: Result<seq<CrewRow>, PyError>)
    ensures r == CrewTable(credits)
  {
    var records := DictLoopItems(credits);
    if records.Err? {
      return Err(records.error);
    }
    var items := records.value;
    var rows: seq<CrewRow> := [];
    var i := 0;
    while i < |items|
      invariant 0 <= i <= |items|
      invariant FlatMapAll(items[..i], CrewRowsOf) == Ok(rows)
    {
      var part := CrewOf(items[i]);
      assert items[..i + 1][..i] == items[..i];
      if part.Err? {
        FlatMapAllStops(items, CrewRowsOf, i + 1);
        return Err(part.error);
      }
      rows := rows + part.value;
      i := i + 1;
    }
    assert items[..i] == items;
    return Ok(rows);
  }

  /** The entries `for x in c.get(key, [])` walks: none when the key is missing. */
  function EntriesOf(c: Json, key: string): seq<Json>
  {
    if c.JObj? && key in c.fields && c.fields[key].JArr? then c.fields[key].items else []
  }

  /**
   * One credit record's cast rows: it needs an `id` even with no cast; a
   * missing `cast` gives none; otherwise one row per entry, in order, with
   * `movie_id` the record's own `id`, `person_id` the entry's `id`, and
   * `cast_id`, `name`, `character`, `gender` and `order` copied (None
   * when absent).
   */
  lemma CastRowsSpec(c: Json)
    ensures Index(c, "id").Err? ==> CastRowsOf(c) == Err(Index(c, "id").error)
    ensures c.JObj? && "id" in c.fields && "cast" !in c.fields ==> CastRowsOf(c) == Ok([])
    ensures CastRowsOf(c).Ok? ==>
      var rows := CastRowsOf(c).value;
      && |rows| == |EntriesOf(c, "cast")|
      && forall j :: 0 <= j < |rows| ==>
           var a := EntriesOf(c, "cast")[j];
           && a.JObj?
           && rows[j] == CastRow(c.fields["id"], Get(a.fields, "cast_id"), Get(a.fields, "id"), Get(a.fields, "name"),
                                 Get(a.fields, "character"), Get(a.fields, "gender"), Get(a.fields, "order"))
  {
    if c.JObj? && "id" in c.fields {
      var v := GetOr(c.fields, "cast", JArr([]));
      if v.JArr? {
        var row := (a: Json) => CastRowOf(c.fields["id"], a);
        MapAllOk(v.items, row);
      }
    }
  }

  /** The same for crew rows, with `person_id`, `name`, `department` and `job`. */
  lemma CrewRowsSpec(c: Json)
    ensures Index(c, "id").Err? ==> CrewRowsOf(c) == Err(Index(c, "id").error)
    ensures c.JObj? && "id" in c.fields && "crew" !in c.fields ==> CrewRowsOf(c) == Ok([])
    ensures CrewRowsOf(c).Ok? ==>
      var rows := CrewRowsOf(c).value;
      && |rows| == |EntriesOf(c, "crew")|
      && forall j :: 0 <= j < |rows| ==>
           var m := EntriesOf(c, "crew")[j];
           && m.JObj?
           && rows[j] == CrewRow(c.fields["id"], Get(m.fields, "id"), Get(m.fields, "name"),
                                 Get(m.fields, "department"), Get(m.fields, "job"))
  {
    if c.JObj? && "id" in c.fields {
      var v := GetOr(c.fields, "crew", JArr([]));
      if v.JArr? {
        var row := (m: Json) => CrewRowOf(c.fields["id"], m);
        MapAllOk(v.items, row);
      }
    }
  }

  /**
   * cast and crew are the records' rows concatenated in record order, the
   * i-th part holding one row per entry of the i-th record.
   */
  lemma CreditsTablesSpec(credits: seq<Json>)
    ensures var r := CastTable(JArr(credits));
            var parts := Parts(credits, CastRowsOf);
      && (r.Ok? <==> forall i :: 0 <= i < |credits| ==> CastRowsOf(credits[i]).Ok?)
      && (r.Ok? ==>
            && r.value == Flatten(parts) && |r.value| == SumLengths(parts)
            && forall i :: 0 <= i < |credits| ==> |parts[i]| == |EntriesOf(credits[i], "cast")|)
    ensures var r := CrewTable(JArr(credits));
            var parts := Parts(credits, CrewRowsOf);
      && (r.Ok? <==> forall i :: 0 <= i < |credits| ==> CrewRowsOf(credits[i]).Ok?)
      && (r.Ok? ==>
            && r.value == Flatten(parts) && |r.value| == SumLengths(parts)
            && forall i :: 0 <= i < |credits| ==> |parts[i]| == |EntriesOf(credits[i], "crew")|)
  {
    FlatMapAllOk(credits, CastRowsOf);
    FlatMapAllOk(credits, CrewRowsOf);
    forall i | 0 <= i < |credits|
      ensures CastRowsOf(credits[i]).Ok? ==> |Parts(credits, CastRowsOf)[i]| == |EntriesOf(credits[i], "cast")|
      ensures CrewRowsOf(credits[i]).Ok? ==> |Parts(credits, CrewRowsOf)[i]| == |EntriesOf(credits[i], "crew")|
    {
      CastRowsSpec(credits[i]);
      CrewRowsSpec(credits[i]);
    }
  }

  // ---------------------------------------------------------------------
  // The script (lines 17-130)

  const DETAILS_FILE: string := "details.json"
  const CREDITS_FILE: string := "credits.json"
  const GENRES_FILE: string := "genres.json"

  /** `json.loads((RAW / name).read_text())`, over the parsed files of data/processed. */
  function ReadJson(processed: map<string, Json>, name: string): Result<Json, PyError>
  {
    if name in processed then Ok(processed[name]) else Err(FileNotFoundError(name))
  }

  /** The CSV files a run wrote, in order, and how it ended. */
  datatype Run = Run(written: seq<Table>, result: Result<(), PyError>)

  /** The five tables, each as its builder gives it, in the order the script writes them. */
  function Stages(details: Json, credits: Json, genres: Json): (stages: seq<Result<Table, PyError>>)
    ensures |stages| == 5
  {
    [ match MoviesTable(details) case Ok(t) => Ok(MoviesCsv(t)) case Err(e) => Err(e),
      match GenresTable(genres) case Ok(t) => Ok(GenresCsv(t)) case Err(e) => Err(e),
      match MovieGenresTable(details) case Ok(t) => Ok(MovieGenresCsv(t)) case Err(e) => Err(e),
      match CastTable(credits) case Ok(t) => Ok(CastCsv(t)) case Err(e) => Err(e),
      match CrewTable(credits) case Ok(t) => Ok(CrewCsv(t)) case Err(e) => Err(e) ]
  }

  /** The stages from `k` on, after `written`: each table is written before the next is built. */
  function WriteFrom(stages: seq<Result<Table, PyError>>, k: nat, written: seq<Table>): Run
    requires k <= |stages|
    decreases |stages| - k
  {
    if k == |stages| then Run(written, Ok(()))
    else
      match stages[k]
      case Err(e) => Run(written, Err(e))
      case Ok(t) => WriteFrom(stages, k + 1, written + [t])
  }

  /** The whole script, from the files of data/processed. */
  function TransformSpec(processed: map<string, Json>): Run
  {
    match ReadJson(processed, DETAILS_FILE)
    case Err(e) => Run([], Err(e))
    case Ok(details) =>
      match ReadJson(processed, CREDITS_FILE)
      case Err(e) => Run([], Err(e))
      case Ok(credits) =>
        match ReadJson(processed, GENRES_FILE)
        case Err(e) => Run([], Err(e))
        case Ok(genres) => WriteFrom(Stages(details, credits, genres), 0, [])
  }

  /**
   * The normaliser script: the three loads, then each table built and
   * written (`df.to_csv(CLEAN / name)` appends it to `written`) in turn.
   */
  method Transform(processed: map<string, Json>) returns (written: seq<Table>, r: Result<(), PyError>)
    ensures Run(written, r) == TransformSpec(processed)
  {
    written := [];
    var details := ReadJson(processed, DETAILS_FILE);
    if details.Err? {
      return written, Err(details.error);
    }
    var credits := ReadJson(processed, CREDITS_FILE);
    if credits.Err? {
      return written, Err(credits.error);
    }
    var genres := ReadJson(processed, GENRES_FILE);
    if genres.Err? {
      return written, Err(genres.error);
    }
    ghost var stages := Stages(details.value, credits.value, genres.value);
    assert TransformSpec(processed) == WriteFrom(stages, 0, written);
    var movies := BuildMovies(details.value);
    if movies.Err? {
      return written, Err(movies.error);
    }
    written := written + [MoviesCsv(movies.value)];
    assert TransformSpec(processed) == WriteFrom(stages, 1, written);
    var genreRows := GenresTable(genres.value);
    if genreRows.Err? {
      return written, Err(genreRows.error);
    }
    written := written + [GenresCsv(genreRows.value)];
    assert TransformSpec(processed) == WriteFrom(stages, 2, written);
    var links := BuildMovieGenres(details.value);
    if links.Err? {
      return written, Err(links.error);
    }
    written := written + [MovieGenresCsv(links.value)];
    assert TransformSpec(processed) == WriteFrom(stages, 3, written);
    var cast := BuildCast(credits.value);
    if cast.Err? {
      return written, Err(cast.error);
    }
    written := written + [CastCsv(cast.value)];
    assert TransformSpec(processed) == WriteFrom(stages, 4, written);
    var crew := BuildCrew(credits.value);
    if crew.Err? {
      return written, Err(crew.error);
    }
    written := written + [CrewCsv(crew.value)];
    return written, Ok(());
  }

  /** `tables` are the values of the first |tables| stages, none of which failed. */
  predicate TablesOf(tables: seq<Table>, stages: seq<Result<Table, PyError>>)
  {
    && |tables| <= |stages|
    && forall i :: 0 <= i < |tables| ==> stages[i] == Ok(tables[i])
  }

  /**
   * Writing the stages from `k` on keeps what was written and adds the
   * tables of the stages up to the first that fails, whose error it
   * returns; it succeeds exactly when none fails.
   */
  lemma {:induction false} WriteFromSpec(stages: seq<Result<Table, PyError>>, k: nat, written: seq<Table>)
    requires k <= |stages|
    ensures var run := WriteFrom(stages, k, written);
      && |written| <= |run.written|
      && run.written[..|written|] == written
      && TablesOf(run.written[|written|..], stages[k..])
      && (run.result.Ok? <==> |run.written| - |written| == |stages| - k)
      && (run.result.Err? ==> stages[k..][|run.written| - |written|] == Err(run.result.error))
    decreases |stages| - k
  {
    var run := WriteFrom(stages, k, written);
    if k == |stages| || stages[k].Err? {
      assert run.written[|written|..] == [];
    } else {
      var next := written + [stages[k].value];
      WriteFromSpec(stages, k + 1, next);
      assert run.written[..|written|] == run.written[..|next|][..|written|];
      TablesCons(run.written[|written|..], stages[k..]);
    }
  }

  lemma TablesCons(tables: seq<Table>, stages: seq<Result<Table, PyError>>)
    requires tables != [] && stages != [] && stages[0] == Ok(tables[0]) && TablesOf(tables[1..], stages[1..])
    ensures TablesOf(tables, stages)
  {
    forall i | 0 <= i < |tables|
      ensures stages[i] == Ok(tables[i])
    {
      if i > 0 {
        assert stages[i] == stages[1..][i - 1] && tables[i] == tables[1..][i - 1];
      }
    }
  }

  /**
   * The normaliser writes movies, genres, movie_genres, cast and crew in
   * this order, each as its builder makes it from the three files, and
   * stops at the first that raises: the tables written before it stay
   * written. A missing input file stops it before anything is written.
   */
  lemma TransformWrites(processed: map<string, Json>)
    ensures var run := TransformSpec(processed);
      && (DETAILS_FILE !in processed ==> run == Run([], Err(FileNotFoundError(DETAILS_FILE))))
      && (DETAILS_FILE in processed && CREDITS_FILE !in processed ==> run == Run([], Err(FileNotFoundError(CREDITS_FILE))))
      && (DETAILS_FILE in processed && CREDITS_FILE in processed && GENRES_FILE !in processed ==>
            run == Run([], Err(FileNotFoundError(GENRES_FILE))))
      && (DETAILS_FILE in processed && CREDITS_FILE in processed && GENRES_FILE in processed ==>
            var stages := Stages(processed[DETAILS_FILE], processed[CREDITS_FILE], processed[GENRES_FILE]);
            && TablesOf(run.written, stages)
            && (run.result.Ok? <==> |run.written| == 5)
            && (run.result.Err? ==> stages[|run.written|] == Err(run.result.error)))
  {
    if DETAILS_FILE in processed && CREDITS_FILE in processed && GENRES_FILE in processed {
      var stages := Stages(processed[DETAILS_FILE], processed[CREDITS_FILE], processed[GENRES_FILE]);
      WriteFromSpec(stages, 0, []);
      var run := WriteFrom(stages, 0, []);
      assert run.written[0..] == run.written && stages[0..] == stages;
    }
  }
}
