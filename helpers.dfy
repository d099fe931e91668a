/**
 * src/analytics/helpers.py, `read_sql`: the query file is cut into blocks
 * at every "-- ", the first block that starts with the query name is taken,
 * its text after the first ":" is stripped of surrounding whitespace and the
 * `{{PROJECT}}` and `{{DATASET}}` placeholders are filled in.
 *
 * The Python string operations it uses (`split`, `startswith`, `strip`,
 * `replace`) are modelled as functions on `string`; each is given a partner
 * that says what its result means.
 */
module Helpers {
  import opened Wrappers
  import opened Json

  const BLOCK_SEPARATOR: string := "-- "
  const PROJECT_PLACEHOLDER: string := "{{PROJECT}}"
  const DATASET_PLACEHOLDER: string := "{{DATASET}}"
  /** `SQL_FILE`, relative to the project root. */
  const SQL_FILE: string := "src/analytics/sql_queries.sql"

  /** `s[i:i + len(pat)] == pat`. */
  predicate OccursAt(s: string, pat: string, i: nat)
  {
    i + |pat| <= |s| && s[i..i + |pat|] == pat
  }

  /** `s.find(pat)`: the first index where `pat` occurs in `s`, if any. */
  function IndexOf(s: string, pat: string): (r: Option<nat>)
    ensures r.Some? ==> OccursAt(s, pat, r.value) && forall j :: 0 <= j < r.value ==> !OccursAt(s, pat, j)
    ensures r.None? ==> forall j :: 0 <= j <= |s| ==> !OccursAt(s, pat, j)
    decreases |s|
  {
    if |s| < |pat| then
      None
    else if s[..|pat|] == pat then
      Some(0)
    else
      match IndexOf(s[1..], pat)
      case None =>
        assert forall j :: 1 <= j <= |s| ==> (OccursAt(s, pat, j) ==> OccursAt(s[1..], pat, j - 1));
        None
      case Some(i) =>
        assert OccursAt(s[1..], pat, i) ==> OccursAt(s, pat, i + 1);
        assert forall j :: 1 <= j < i + 1 ==> (OccursAt(s, pat, j) ==> OccursAt(s[1..], pat, j - 1));
        Some(i + 1)
  }

  /** `s.split(sep)`: the pieces between the non-overlapping occurrences of `sep`, from the left. */
  function Split(s: string, sep: string): (parts: seq<string>)
    requires sep != []
    ensures |parts| >= 1
    decreases |s|
  {
    match IndexOf(s, sep)
    case None => [s]
    case Some(i) => [s[..i]] + Split(s[i + |sep|..], sep)
  }

  /** `sep.join(parts)`. */
  function Join(parts: seq<string>, sep: string): string
    decreases |parts|
  {
    if parts == [] then []
    else if |parts| == 1 then parts[0]
    else parts[0] + sep + Join(parts[1..], sep)
  }

  /** Splitting loses nothing: joining the pieces back with the separator gives the text. */
  lemma {:induction false} JoinSplit(s: string, sep: string)
    requires sep != []
    ensures Join(Split(s, sep), sep) == s
    decreases |s|
  {
    match IndexOf(s, sep)
    case None =>
    case Some(i) =>
      var rest := s[i + |sep|..];
      var parts := Split(s, sep);
      JoinSplit(rest, sep);
      assert parts == [s[..i]] + Split(rest, sep);
      assert parts[1..] == Split(rest, sep);
      assert |parts| >= 2;
      calc {
        Join(parts, sep);
        parts[0] + sep + Join(parts[1..], sep);
        s[..i] + sep + rest;
        { assert s[i..i + |sep|] == sep; }
        s;
      }
  }

  /** No piece of a split contains the separator. */
  lemma {:induction false} SplitPiecesFree(s: string, sep: string)
    requires sep != []
    ensures forall k :: 0 <= k < |Split(s, sep)| ==> IndexOf(Split(s, sep)[k], sep).None?
    decreases |s|
  {
    match IndexOf(s, sep)
    case None =>
    case Some(i) =>
      var rest := s[i + |sep|..];
      SplitPiecesFree(rest, sep);
      var head := s[..i];
      forall j | 0 <= j <= |head|
        ensures !OccursAt(head, sep, j)
      {
        if OccursAt(head, sep, j) {
          assert head[j..j + |sep|] == s[j..j + |sep|];
          assert OccursAt(s, sep, j);
        }
      }
      assert Split(s, sep) == [head] + Split(rest, sep);
  }

  /** `s.split(sep, 1)[1]`: the text after the first `sep`, or IndexError when there is none. */
  function AfterFirst(s: string, sep: string): (r: Result<string, PyError>)
    ensures r.Err? <==> IndexOf(s, sep).None?
    ensures r.Err? ==> r.error == IndexError
    ensures r.Ok? ==> exists i ::
      && 0 <= i && OccursAt(s, sep, i) && (forall j :: 0 <= j < i ==> !OccursAt(s, sep, j))
      && s == s[..i] + sep + r.value
  {
    match IndexOf(s, sep)
    case None => Err(IndexError)
    case Some(i) =>
      assert s == s[..i] + sep + s[i + |sep|..];
      Ok(s[i + |sep|..])
  }

  /** The characters Python's `str.isspace` accepts (the whitespace `str.strip()` removes). */
  predicate IsSpace(c: char)
  {
    || ('\t' <= c <= '\r')
    || ('\U{1C}' <= c <= '\U{1F}')
    || c == ' ' || c == '\U{85}' || c == '\U{A0}' || c == '\U{1680}'
    || ('\U{2000}' <= c <= '\U{200A}')
    || c == '\U{2028}' || c == '\U{2029}' || c == '\U{202F}' || c == '\U{205F}' || c == '\U{3000}'
  }

  function TrimStart(s: string): (t: string)
    ensures |t| <= |s| && t == s[|s| - |t|..]
    ensures t != [] ==> !IsSpace(t[0])
    ensures forall k :: 0 <= k < |s| - |t| ==> IsSpace(s[k])
    decreases |s|
  {
    if s != [] && IsSpace(s[0]) then TrimStart(s[1..]) else s
  }

  function TrimEnd(s: string): (t: string)
    ensures |t| <= |s| && t == s[..|t|]
    ensures t != [] ==> !IsSpace(t[|t| - 1])
    ensures forall k :: |t| <= k < |s| ==> IsSpace(s[k])
    decreases |s|
  {
    if s != [] && IsSpace(s[|s| - 1]) then TrimEnd(s[..|s| - 1]) else s
  }

  /** `s.strip()`: the text without its leading and trailing whitespace. */
  function Strip(s: string): string
  {
    TrimEnd(TrimStart(s))
  }

  /** `t` is `s[i..j]`, and everything of `s` outside it is whitespace. */
  predicate Stretch(s: string, t: string, i: nat, j: nat)
  {
    && i <= j <= |s|
    && t == s[i..j]
    && (forall k :: 0 <= k < i ==> IsSpace(s[k]))
    && (forall k :: j <= k < |s| ==> IsSpace(s[k]))
  }

  /**
   * Strip keeps one contiguous stretch of the text that neither starts nor
   * ends with whitespace, and everything it drops is whitespace.
   */
  lemma StripSpec(s: string)
    ensures var t := Strip(s);
      && (t != [] ==> !IsSpace(t[0]) && !IsSpace(t[|t| - 1]))
      && exists i: nat, j: nat :: Stretch(s, t, i, j)
  {
    var u := TrimStart(s);
    var t := TrimEnd(u);
    var i := |s| - |u|;
    StripStretch(s, u, t, i);
  }

  /** The stretch left by trimming leading whitespace into `u`, then trailing whitespace into `t`. */
  lemma StripStretch(s: string, u: string, t: string, i: nat)
    requires i + |u| == |s| && u == s[i..] && forall k :: 0 <= k < i ==> IsSpace(s[k])
    requires |t| <= |u| && t == u[..|t|] && forall k :: |t| <= k < |u| ==> IsSpace(u[k])
    ensures Stretch(s, t, i, i + |t|)
  {
    var j := i + |t|;
    assert t == s[i..j];
    forall k | j <= k < |s|
      ensures IsSpace(s[k])
    {
      assert s[k] == u[k - i];
    }
  }

  /** `s.replace(pat, rep)`: every non-overlapping occurrence of `pat`, from the left, replaced by `rep`. */
  function ReplaceAll(s: string, pat: string, rep: string): string
    requires pat != []
    decreases |s|
  {
    match IndexOf(s, pat)
    case None => s
    case Some(i) => s[..i] + rep + ReplaceAll(s[i + |pat|..], pat, rep)
  }

  /** Replacing is splitting at the pattern and joining with the replacement. */
  lemma {:induction false} ReplaceAllIsSplitJoin(s: string, pat: string, rep: string)
    requires pat != []
    ensures ReplaceAll(s, pat, rep) == Join(Split(s, pat), rep)
    decreases |s|
  {
    match IndexOf(s, pat)
    case None =>
    case Some(i) =>
      var rest := s[i + |pat|..];
      var parts := Split(s, pat);
      ReplaceAllIsSplitJoin(rest, pat, rep);
      assert parts == [s[..i]] + Split(rest, pat);
      assert |parts| >= 2 && parts[0] == s[..i] && parts[1..] == Split(rest, pat);
      assert Join(parts, rep) == s[..i] + rep + Join(Split(rest, pat), rep);
      assert ReplaceAll(s, pat, rep) == s[..i] + rep + ReplaceAll(rest, pat, rep);
  }

  /**
   * `sql.replace(placeholder, value)` with a value read from the environment:
   * a variable that is not set is None, which `replace` rejects.
   */
  function Fill(sql: string, placeholder: string, value: Option<string>): Result<string, PyError>
    requires placeholder != []
  {
    if value.None? then Err(TypeError) else Ok(ReplaceAll(sql, placeholder, value.value))
  }

  /** The query of a block that starts with the query name: lines 56 to 61. */
  function BlockQuery(block: string, project: Option<string>, dataset: Option<string>): Result<string, PyError>
  {
    match AfterFirst(block, ":")
    case Err(e) => Err(e)
    case Ok(after) =>
      match Fill(Strip(after), PROJECT_PLACEHOLDER, project)
      case Err(e) => Err(e)
      case Ok(sql) => Fill(sql, DATASET_PLACEHOLDER, dataset)
  }

  /** The index of the first block, in order, that starts with `name`. */
  function FirstMatch(blocks: seq<string>, name: string): (r: Option<nat>)
    ensures r.Some? ==> r.value < |blocks| && name <= blocks[r.value] &&
                        forall j :: 0 <= j < r.value ==> !(name <= blocks[j])
    ensures r.None? <==> forall j :: 0 <= j < |blocks| ==> !(name <= blocks[j])
    decreases |blocks|
  {
    if blocks == [] then None
    else if name <= blocks[0] then Some(0)
    else
      match FirstMatch(blocks[1..], name)
      case None => None
      case Some(i) => Some(i + 1)
  }

  function NotFound(name: string): PyError
  {
    ValueError("[ERROR] Query '" + name + "' not found in sql_queries.sql")
  }

  /**
   * read_sql, with the file's text (None when the file does not exist) and
   * the two environment values as parameters.
   */
  method ReadSql(file: Option<string>, queryName: string, project: Option<string>, dataset: Option<string>)
    returns (r: Result<string, PyError>)
    ensures file.None? ==> r == Err(FileNotFoundError(SQL_FILE))
    ensures file.Some? ==>
      var blocks := Split(file.value, BLOCK_SEPARATOR);
      r == match FirstMatch(blocks, queryName)
           case None => Err(NotFound(queryName))
           case Some(i) => BlockQuery(blocks[i], project, dataset)
  {
    if file.None? {
      return Err(FileNotFoundError(SQL_FILE));
    }
    var parts := Split(file.value, BLOCK_SEPARATOR);
    var i := 0;
    while i < |parts|
      invariant 0 <= i <= |parts|
      invariant forall j :: 0 <= j < i ==> !(queryName <= parts[j])
    {
      var block := parts[i];
      if queryName <= block {
        ReadSqlOutcome(file.value, queryName, project, dataset, i);
        var after := AfterFirst(block, ":");
        if after.Err? {
          return Err(after.error);
        }
        var sql := Strip(after.value);
        if project.None? {
          return Err(TypeError);
        }
        sql := ReplaceAll(sql, PROJECT_PLACEHOLDER, project.value);
        if dataset.None? {
          return Err(TypeError);
        }
        sql := ReplaceAll(sql, DATASET_PLACEHOLDER, dataset.value);
        return Ok(sql);
      }
      i := i + 1;
    }
    return Err(NotFound(queryName));
  }

  /**
   * What read_sql promises: it fails with ValueError exactly when no block
   * starts with the name, and otherwise answers from the first such block,
   * so an earlier block whose name merely shares the prefix wins.
   */
  lemma ReadSqlOutcome(text: string, queryName: string, project: Option<string>, dataset: Option<string>, i: nat)
    requires var blocks := Split(text, BLOCK_SEPARATOR);
      i < |blocks| && queryName <= blocks[i] && forall j :: 0 <= j < i ==> !(queryName <= blocks[j])
    ensures FirstMatch(Split(text, BLOCK_SEPARATOR), queryName) == Some(i)
  {
    var blocks := Split(text, BLOCK_SEPARATOR);
    var m := FirstMatch(blocks, queryName);
    if m.Some? {
      assert !(m.value < i) && !(i < m.value);
    }
  }

  /**
   * The answer from a matching block: the text after its first ":",
   * stripped, with the placeholders filled in, and IndexError for a block
   * without ":".
   */
  lemma BlockQuerySpec(block: string, project: string, dataset: string)
    ensures IndexOf(block, ":").None? ==> BlockQuery(block, Some(project), Some(dataset)) == Err(IndexError)
    ensures IndexOf(block, ":").Some? ==>
      var after := block[IndexOf(block, ":").value + 1..];
      var stripped := Strip(after);
      BlockQuery(block, Some(project), Some(dataset)) ==
        Ok(Join(Split(Join(Split(stripped, PROJECT_PLACEHOLDER), project), DATASET_PLACEHOLDER), dataset))
  {
    if IndexOf(block, ":").Some? {
      var after := block[IndexOf(block, ":").value + 1..];
      ReplaceAllIsSplitJoin(Strip(after), PROJECT_PLACEHOLDER, project);
      var filled := ReplaceAll(Strip(after), PROJECT_PLACEHOLDER, project);
      ReplaceAllIsSplitJoin(filled, DATASET_PLACEHOLDER, dataset);
    }
  }

  /**
   * A block with no ":" raises IndexError whatever the environment holds;
   * otherwise an unset GCP_PROJECT_ID, or a set one with an unset
   * BIGQUERY_DATASET, makes `replace` raise TypeError.
   */
  lemma BlockQueryUnset(block: string, project: Option<string>, dataset: Option<string>)
    ensures IndexOf(block, ":").None? ==> BlockQuery(block, project, dataset) == Err(IndexError)
    ensures IndexOf(block, ":").Some? && project.None? ==> BlockQuery(block, project, dataset) == Err(TypeError)
    ensures IndexOf(block, ":").Some? && project.Some? && dataset.None? ==>
      BlockQuery(block, project, dataset) == Err(TypeError)
  {
  }
}
