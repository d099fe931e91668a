# tmdb-data-analyst: a Dafny model of the extraction, normalisation and query-loading core

This project models the core of a small ETL pipeline for The Movie Database (TMDB):

- **The TMDB client** (`src/etl/utils_api.py`). `request_tmdb` is a bounded retrying GET that injects the API key. `paginated_request` walks pages 1, 2, … and concatenates each page's `results`, stopping at the page the API reports as the last one.
- **The older client** (`src/etl/utils_db.py`). `tmdb_get` is a simpler retrying GET.
- **The extractor** (`src/etl/extract_tmdb.py`):
  - four listing snapshots and the genre list, written to data/raw;
  - `extract_movie_details`, which builds index-aligned detail and credit lists and saves them to data/processed;
  - `extract_all`, which chains the steps and picks the ids of the first 50 popular movies.
- **The normaliser** (`src/etl/transform_tmdb.py`). It flattens the processed snapshots into five tables: movies, genres, movie_genres, cast and crew.
- **`read_sql`** (`src/analytics/helpers.py`). It cuts the query file into blocks, picks the first block whose name matches, and fills in the project and dataset placeholders.

## How the world is modelled

- **JSON values** (`Json`, module `Json`). Numbers are exact reals. The Python operations the code applies to parsed JSON are functions on these values: `d.get`, `d[k]`, truthiness, `for x in v` and `list.extend`. The exception each one raises is a `PyError`.
- **HTTP** (`Http`) is an oracle, `Env.server`. The server answers the k-th request of a run, counted from 0, with `server(k, request)`, so a retry may be answered differently.
- **The session log.** A `Session` object records everything observable, in order:
  - each request with its response;
  - each `time.sleep`, as its duration;
  - each `save_json`, as the folder, the file name and the JSON value.

  Reading a snapshot back (`json.load`) is `LoadJson` on that log.
- **Specification functions and methods.** Every imperative operation is a `method` on the session. Each is proved to append exactly the events of a specification function and to return its outcome: `Attempts`, `Pages`, `ListingSpec`, `DetailsSpec`, `ExtractAllSpec`, and so on. The lemmas then state what those functions do.
- **The params dict** is a `Dict` object, so the aliasing of the caller's dict is visible: `request_tmdb` and `tmdb_get` write `api_key` into it, and `paginated_request` never touches it.
- **Failures** (`Failure`) are of three kinds:
  - `TMDBApiError` of utils_api, with its retry count and URL;
  - the plain `Exception` of utils_db, with its retry count and endpoint;
  - a Python error raised while reading a body.
- **The normaliser's tables** are sequences of rows: a datatype per fixed-column table, and a dict per genres row. Its inputs are the parsed files of data/processed, given as a map from file name to JSON value. Its outputs are the CSV tables in the order they are written.

The generic loop lemmas (`PagesOf…`, `DetailsOf…`) are stated for an abstract loop body. Each concrete body's one-turn facts are proved once (`PageRoundsFacts`, `MovieFetchesFacts`), so the inductions do not unfold the HTTP retry loop.

**Where the genres file comes from.** transform_tmdb.py reads genres.json from data/processed, but `extract_genres` writes its genres.json to data/raw. The processed copy is written by `src/etl/fetch_genres.py`, which is not part of this model. The normaliser therefore takes all three of its input files as a parameter rather than reading the extractor's log.

## Model

| member | source | states |
|---|---|---|
| UtilsApi.SendWithRetries | src/etl/utils_api.py:22-39 | the retry loop appends exactly the attempts of `Attempts` to the log and returns its outcome, including the ValueError of `time.sleep` for a negative wait |
| UtilsApi.RequestTmdb | src/etl/utils_api.py:16-39 | request_tmdb: a caller's params dict afterwards holds `api_key` set to the configured key; `None` params mean `{}`; the log and result are those of `RequestSpec` |
| UtilsApi.AttemptsEnd | src/etl/utils_api.py:24-39 | a run of attempts has at most 2·retries events; when it returns a body it ends on a request (an odd event count), the server's 200 answer to the last request; when it raises ValueError it also ends on a request, a failure whose wait would be negative; otherwise all attempts were made, each followed by its wait, and it raises TMDBApiError for the URL |
| UtilsApi.AttemptsCount | src/etl/utils_api.py:24-35 | at most `retries` requests, none when `retries <= 0`; the log alternates requests and waits (`Traced`): every request but a last one that returns or raises ValueError is a failure followed by exactly one wait, 2 s after a 429 and `sleep` s otherwise, and nothing follows a 200 |
| UtilsApi.AttemptsTrace | src/etl/utils_api.py:24-35 | the run in closed form: the i-th request of the run is at position 2i, answered by the server, and each wait at an odd position follows a non-200 answer and is its non-negative backoff |
| UtilsApi.AttemptsOk | src/etl/utils_api.py:25-37 | the only 200 response in the run is its last request, and only when it returns that response's body |
| UtilsApi.RequestOutcome | src/etl/utils_api.py:24-39 | the outcome is a body, TMDBApiError or ValueError; it raises TMDBApiError iff every one of the `retries` answers is a failure it waits after, after exactly max(retries, 0) requests; if attempt k is the first it does not wait after, it stops after exactly k requests, returning the body when that answer is a 200 and raising ValueError (a negative `sleep`) otherwise; a 429 uses up an attempt like any other failure |
| UtilsApi.AttemptsSaveNothing | src/etl/utils_api.py:16-39 | request_tmdb writes no file |
| UtilsApi.RequestCarriesApiKey | src/etl/utils_api.py:17-25 | every request goes to `BASE_URL + endpoint`; its params are the caller's keys plus `api_key`, with `api_key` the configured key and every other param unchanged |
| UtilsApi.FetchPage | src/etl/utils_api.py:48-54 | one page: a fresh params dict `{**params, "page": page}`, the request, the `results` and the `total_pages` test, as `PageRound` gives them |
| UtilsApi.PageTurn | src/etl/utils_api.py:46-56 | one turn of the page loop followed by the 0.2 s pause exactly when the loop goes on, matching one unfolding of `Pages` |
| UtilsApi.PageLoop | src/etl/utils_api.py:44-58 | the page loop appends exactly the events of `Pages` from page 1 and returns its outcome |
| UtilsApi.PaginatedRequest | src/etl/utils_api.py:42-58 | paginated_request leaves the caller's params dict unchanged, and its log and result are those of `Pages` over the caller's params (or `{}`) |
| UtilsApi.PagesOfAscending | src/etl/utils_api.py:46-56 | the loop asks for pages in increasing order, none before the first: page q+1 is asked for only after every attempt at page q |
| UtilsApi.PagesOfValue | src/etl/utils_api.py:44-51 | the result is the results collected so far followed by each 200 page's `results`, in page order (a missing `results` counts as empty) |
| UtilsApi.PagesOfStop | src/etl/utils_api.py:46-54 | on success, every page read but the last reported more pages (`page < total_pages`), and the last page read was the reported last one or the budget's last; there are no responses at all exactly when the budget is empty |
| UtilsApi.PagesOfUpTo | src/etl/utils_api.py:44-56 | the `break` ends the requests: on success no request asks for a page after the last one read, and on failure none asks for a page after the one following the last page read (the page whose attempts failed) |
| UtilsApi.PagesTrace | src/etl/utils_api.py:42-58 | it keeps the log; with a budget of 0 or less it makes no request and returns `[]`; requests ask only for pages within the budget, in increasing order, and the k-th 200 answers page k+1; on success no request goes past the last page read, on failure none past the page after it; at most one 200 per page; it fails only with TMDBApiError or a Python error, with no partial result; on success the value is the pages' `results` concatenated; it writes no file |
| UtilsDb.GetWithRetries | src/etl/utils_db.py:14-22 | the retry loop appends exactly the attempts of `DbAttempts` to the log and returns its outcome, including the ValueError of `time.sleep` for a negative `delay` |
| UtilsDb.TmdbGet | src/etl/utils_db.py:7-22 | tmdb_get: a caller's params dict afterwards holds `api_key`; the log and result are those of `GetSpec` |
| UtilsDb.DbEnd | src/etl/utils_db.py:14-22 | a run has at most 2·retries events; when it returns a body it ends on a request, the server's 200 answer to the last request; when it raises ValueError it ends on a failed request with `delay < 0`; otherwise all attempts were made, each followed by its wait, and it raises the Exception for the endpoint |
| UtilsDb.DbCount | src/etl/utils_db.py:14-20 | at most `retries` requests, none when `retries <= 0`; the log alternates requests and waits (`DbTraced`): every request but a last one that returns or raises ValueError is a failure, 429 included, followed by exactly one `delay` wait, and nothing follows a 200 |
| UtilsDb.DbTrace | src/etl/utils_db.py:14-20 | the run in closed form: the i-th request at position 2i, answered by the server, and at each odd position the non-negative `delay` wait after a non-200 answer |
| UtilsDb.GetOutcome | src/etl/utils_db.py:14-22 | the outcome is a body, the Exception naming the endpoint or ValueError; it raises the Exception iff every one of the `retries` answers is a failure it waits after, after max(retries, 0) requests and with the last event a `delay` wait; if attempt k is the first it does not wait after, it stops after k requests, returning the body of a 200 and raising ValueError (a negative `delay`) otherwise |
| UtilsDb.GetCarriesApiKey | src/etl/utils_db.py:9-15 | every request goes to `BASE_URL + endpoint` with the caller's params plus `api_key`, set to the configured key |
| Helpers.IndexOf | src/analytics/helpers.py:56 | the position found is an occurrence with no earlier one; none found means no occurrence at all |
| Helpers.JoinSplit | src/analytics/helpers.py:53 | `sep.join(text.split(sep)) == text`: splitting into blocks loses nothing |
| Helpers.SplitPiecesFree | src/analytics/helpers.py:53 | no block of the split contains the separator `"-- "` |
| Helpers.AfterFirst | src/analytics/helpers.py:56 | `s.split(":", 1)[1]` raises IndexError iff there is no `":"`; otherwise the text is the part before the first occurrence of `":"`, then `":"`, then the result |
| Helpers.StripSpec | src/analytics/helpers.py:56 | `strip()` keeps one contiguous stretch that starts and ends with a non-space, and everything it drops is whitespace |
| Helpers.ReplaceAllIsSplitJoin | src/analytics/helpers.py:58-59 | `replace(pat, rep)` is split at `pat` and joined with `rep`: every occurrence is replaced, from the left, without overlaps |
| Helpers.FirstMatch | src/analytics/helpers.py:54-55 | the block chosen is the first, in file order, that starts with the query name; there is none exactly when no block starts with it |
| Helpers.ReadSql | src/analytics/helpers.py:47-63 | a missing file raises FileNotFoundError; otherwise the result is the first matching block's query, or ValueError when no block matches |
| Helpers.ReadSqlOutcome | src/analytics/helpers.py:53-63 | a block that starts with the name, with no earlier one that does, is the block read_sql answers from, so an earlier block whose longer name shares the prefix wins |
| Helpers.BlockQuerySpec | src/analytics/helpers.py:56-59 | a matching block with no `":"` raises IndexError; otherwise the query is the stripped text after the first `":"`, with every `{{PROJECT}}` and then every `{{DATASET}}` replaced |
| Helpers.BlockQueryUnset | src/analytics/helpers.py:56-59 | a block without `":"` raises IndexError whatever the environment holds; otherwise an unset `GCP_PROJECT_ID`, or a set one with an unset `BIGQUERY_DATASET`, makes `replace` raise TypeError |
| ExtractTmdb.ExtractListing | src/etl/extract_tmdb.py:30-47 | a listing extraction runs the paginator with a budget of 5 and no params, then saves the results to data/raw; its log and result are those of `ListingSpec` |
| ExtractTmdb.ListingTrace | src/etl/extract_tmdb.py:30-47 | only requests for pages 1–5 of the endpoint, none past the last page answered when the page loop returns and none past the page after it when it fails; on failure nothing is saved; on success the snapshot is the last event and the only file written, and it holds every page's `results` in page order |
| ExtractTmdb.ExtractGenres | src/etl/extract_tmdb.py:50-52 | extract_genres requests `/genre/movie/list` and saves the body to data/raw/genres.json, as `GenresSpec` gives it |
| ExtractTmdb.GenresTrace | src/etl/extract_tmdb.py:50-52 | every request is for `/genre/movie/list` with only `api_key`; on failure nothing is saved and no 200 was seen; on success genres.json is the last event and the only file, holding exactly the body of the one 200 response |
| ExtractTmdb.FetchMovie | src/etl/extract_tmdb.py:63-64 | one turn: `/movie/{id}` and then, if that answered, `/movie/{id}/credits`, as `MovieFetch` gives them |
| ExtractTmdb.ExtractMovieDetails | src/etl/extract_tmdb.py:55-70 | the loop over the ids then both saves to data/processed; its log and result are those of `DetailsSpec` |
| ExtractTmdb.MovieExchangesAt | src/etl/extract_tmdb.py:60-67 | the answers for id i are responses 2i (`/movie/{id}`) and 2i+1 (`/movie/{id}/credits`), in id order |
| ExtractTmdb.DetailsTrace | src/etl/extract_tmdb.py:55-70 | a failure on any fetch aborts before either file is saved; on success details.json and then credits.json are the only files and the last two events, both of length len(movie_ids), position i holding the bodies of the 200 answers for `movie_ids[i]`; all requests, retries included, form one block per id in order (`MovieBlocks`), over every id on success and over the ids up to the failing one on failure |
| ExtractTmdb.MovieFetchFacts | src/etl/extract_tmdb.py:60-64 | one turn writes no file; its requests, retries included, go to `/movie/{id}` and then, only once that answered with 200, to `/movie/{id}/credits`; when it answers, its 200 responses are those two, in this order, with the bodies it returns |
| ExtractTmdb.DetailsOfOrder | src/etl/extract_tmdb.py:60-64 | the loop's requests, retries included, are one block per id in order: `/movie/{id}` requests, then `/movie/{id}/credits` requests only once details answered with 200; a failing run makes no request after the id whose turn failed |
| ExtractTmdb.SelectIdsSpec | src/etl/extract_tmdb.py:90 | the ids are those of the first min(50, len(popular)) entries, in order; it fails exactly when one of them has no `id`, with the error of the first such entry |
| ExtractTmdb.ExtractListings | src/etl/extract_tmdb.py:80-83 | the four listing extractions in order, stopping at the first that raises, as `ListingsSpec` gives them |
| ExtractTmdb.ExtractAll | src/etl/extract_tmdb.py:77-93 | extract_all's log and result are those of `ExtractAllSpec`: the five snapshots, then popular.json loaded back, then the ids selected, then the details |
| ExtractTmdb.ListingsTrace | src/etl/extract_tmdb.py:80-83 | listings in a row write one raw snapshot each, in their order, until the first that fails; they all succeed exactly when every snapshot is written |
| ExtractTmdb.SnapshotsTrace | src/etl/extract_tmdb.py:80-84 | the first five steps write popular, top_rated, upcoming, trending and genres to data/raw in this order, stopping at the first failure; they succeed exactly when all five are written |
| ExtractTmdb.ReadsOwnPopular | src/etl/extract_tmdb.py:80-88 | after the five steps succeed, loading popular.json gives the snapshot this run wrote, whatever earlier logs hold |
| TransformTmdb.MovieRowSpec | src/etl/transform_tmdb.py:35-47 | a detail record gives a row iff it is a dict with an `id` (TypeError for a non-dict, KeyError "id" otherwise); `movie_id` is the id and each of the eleven other columns is the record's value, or None when the key is absent |
| TransformTmdb.BuildMovies | src/etl/transform_tmdb.py:32-48 | the loop builds `MoviesTable` |
| TransformTmdb.MoviesTableSpec | src/etl/transform_tmdb.py:32-48 | one row per detail record, in order, with `movie_id` the record's id; it succeeds iff every record is a dict with an `id`, and fails with the error of the first that is not |
| TransformTmdb.GenresTableSpec | src/etl/transform_tmdb.py:59-60 | one row per entry of `genres["genres"]`, in order; `id` is renamed to `genre_id` and every other column is kept unchanged, with no column added; an entry without `id` is its row unchanged |
| TransformTmdb.LinkGenres | src/etl/transform_tmdb.py:73-78 | the inner loop builds one movie's links, `GenreLinksOf` |
| TransformTmdb.BuildMovieGenres | src/etl/transform_tmdb.py:70-78 | the nested loops build `MovieGenresTable`, stopping at the first error |
| TransformTmdb.GenreLinksSpec | src/etl/transform_tmdb.py:73-78 | a movie with a missing or empty `genres` adds no rows; a non-empty string or dict of genres raises KeyError for a movie without `id` (read first in the loop body), TypeError otherwise; on success, one (movie id, genre id) row per genre entry, in order |
| TransformTmdb.MovieGenresTableSpec | src/etl/transform_tmdb.py:70-78 | movie_genres is the movies' links concatenated in movie order; its row count is the sum of the lengths of the genre lists it walks |
| TransformTmdb.CastOf | src/etl/transform_tmdb.py:92-103 | the inner loop builds one credit record's cast rows, `CastRowsOf` |
| TransformTmdb.CrewOf | src/etl/transform_tmdb.py:117-126 | the inner loop builds one credit record's crew rows, `CrewRowsOf` |
| TransformTmdb.BuildCast | src/etl/transform_tmdb.py:89-103 | the nested loops build `CastTable` |
| TransformTmdb.BuildCrew | src/etl/transform_tmdb.py:114-126 | the nested loops build `CrewTable` |
| TransformTmdb.CastRowsSpec | src/etl/transform_tmdb.py:91-103 | a credit record needs an `id`, even with no cast; a missing `cast` adds no rows; otherwise one row per entry, in order, with `movie_id` the record's own id, `person_id` the entry's `id`, and `cast_id`, `name`, `character`, `gender` and `order` copied (None when absent) |
| TransformTmdb.CrewRowsSpec | src/etl/transform_tmdb.py:116-126 | the same for crew: a missing `crew` adds no rows; otherwise one row per entry with `movie_id`, `person_id`, `name`, `department` and `job` |
| TransformTmdb.CreditsTablesSpec | src/etl/transform_tmdb.py:89-126 | cast and crew are the records' rows concatenated in record order, the i-th part holding one row per entry of the i-th record; the row count is the sum of those entry counts |
| TransformTmdb.Transform | src/etl/transform_tmdb.py:17-129 | the script: it loads the three files and builds and writes each table in turn, as `TransformSpec` gives it |
| TransformTmdb.WriteFromSpec | src/etl/transform_tmdb.py:50-129 | writing the tables in turn keeps what was already written and adds tables up to the first stage that fails, whose error it returns; it succeeds exactly when no stage fails |
| TransformTmdb.TransformWrites | src/etl/transform_tmdb.py:17-129 | a missing input file stops the script before anything is written; otherwise it writes movies, genres, movie_genres, cast and crew in this order, each as its builder makes it; it stops at the first that raises, and the tables before it stay written |

## Left out

- `print`: the log messages have no observable effect in the model.
- `time.sleep`: real waiting is not modelled; each sleep is recorded in the log as its duration. A negative length raises ValueError before anything is recorded, as `time.sleep` does.
- The `requests` library and the network are the server oracle `Env.server`; `response.json()` is the body as a `Json` value.
- Attempts, DbAttempts: exceptions raised by `requests.get` itself (connection failures, timeouts) are not modelled, because the server oracle always answers.
- Attempts, DbAttempts: a 200 whose body is not valid JSON (the decode error of `response.json()`) is not modelled, because a response body is already a `Json` value.
- Not modelled: `response.text` in the error message, and the message strings of `TMDBApiError` and `Exception`. Both failures are datatypes that carry the retry count and the URL or endpoint.
- The endpoint f-strings `f"/movie/{movie_id}"` and `f"/movie/{movie_id}/credits"` are kept symbolic (`MovieDetails(id)`, `MovieCredits(id)`). How the id is formatted into the path is not modelled.
- `os.getenv`, `load_dotenv` and `src/config/settings.py` are parameters: the API key is `Env.apiKey` (JNull when unset), and `GCP_PROJECT_ID` and `BIGQUERY_DATASET` are `Option<string>` arguments of `ReadSql`.
- JSON files are their parsed values:
  - `save_json` records the value, not the encoded text with its indentation;
  - `json.load` of a file this run wrote gives back that value;
  - a malformed file (`JSONDecodeError`) and directory creation (`mkdir`) are not modelled.
- Files left by earlier runs are not modelled: extract_all reads only what its own log holds (`LoadJson`). The normaliser gets the files of data/processed as a map parameter.
- pandas and CSV are not modelled. A table is its sequence of rows. Two results of `pd.DataFrame` are `NotModelled` errors: a `genres` value that is a dict of columns, and a list that holds something other than dicts.
- GenresTableSpec: rows keep their own keys. The columns that pandas fills with NaN, when some entries lack keys that others have, are not modelled.
- GenresTableSpec: when an entry already has a `genre_id` key beside its `id`, the renamed `id` overwrites it. pandas would keep two columns named `genre_id` instead.
- `list.extend` with a non-empty dict appends the dict's keys in insertion order. A map does not keep that order, so this case is a `NotModelled` error.
- AttributeError (`.get` on something that is not a dict) is folded into TypeError.
- Python's ints and floats are both exact reals. The comparison `page >= total_pages` is exact; a bool counts as 0 or 1.
- Not modelled: `get_client` and `run_query` in `src/analytics/helpers.py`, and `src/etl/load_tmdb.py`, `src/cloud/bigquery_load.py`, `src/config/create_schema.py`, `src/analytics/product_metrics.py`, `src/etl/fetch_genres.py` and `src/etl/test_tmdb.py`. These are database, cloud and one-shot scripts.
- Determinism of the normaliser has no separate lemma: every table is a function of the three input files, so it holds by construction.
