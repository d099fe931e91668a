/**
 * Parsed JSON documents as the Python code sees them after `json.loads` or
 * `response.json()`, and the few Python operations the core applies to them:
 * `d.get(k)`, `d.get(k, default)`, `v[k]`, truthiness, iteration and
 * `list.extend`.
 */
module Json {
  import opened Wrappers

  /** A JSON value. Numbers are exact reals (Python int and float alike). */
  datatype Json =
    | JNull
    | JBool(b: bool)
    | JNum(n: real)
    | JStr(s: string)
    | JArr(items: seq<Json>)
    | JObj(fields: map<string, Json>)

  /**
   * The Python exceptions the core can raise. AttributeError (calling `.get`
   * on something that is not a dict) is folded into TypeError. NotModelled
   * marks an outcome of Python or pandas the model does not reproduce
   * (listed as such in the README).
   */
  datatype PyError =
    | KeyError(key: string)
    | TypeError
    | IndexError
    | ValueError(message: string)
    | FileNotFoundError(name: string)
    | NotModelled(what: string)

  /** `d.get(key)`: the entry, or None (JNull) when the key is absent. */
  function Get(fields: map<string, Json>, key: string): Json
  {
    if key in fields then fields[key] else JNull
  }

  /** `d.get(key, default)`. */
  function GetOr(fields: map<string, Json>, key: string, default: Json): Json
  {
    if key in fields then fields[key] else default
  }

  /**
   * `v[key]` with a string key: a dict gives its entry or raises KeyError;
   * a list, string, number, bool or None raises TypeError.
   */
  function Index(v: Json, key: string): Result<Json, PyError>
  {
    match v
    case JObj(fields) => if key in fields then Ok(fields[key]) else Err(KeyError(key))
    case _ => Err(TypeError)
  }

  /** Python's `bool(v)`: None, False, 0, "", [] and {} are false. */
  predicate Truthy(v: Json)
  {
    match v
    case JNull => false
    case JBool(b) => b
    case JNum(n) => n != 0.0
    case JStr(s) => s != []
    case JArr(items) => items != []
    case JObj(fields) => |fields| != 0
  }

  /**
   * `for x in v`, where the loop body then uses `x` as a dict (`x["k"]` or
   * `x.get("k")`). A list yields its elements. An empty string or dict
   * yields nothing. A non-empty string yields one-character strings and a
   * non-empty dict yields its keys, and the body fails on the first of them
   * with TypeError. None, a number or a bool is not iterable (TypeError).
   */
  function DictLoopItems(v: Json): Result<seq<Json>, PyError>
  {
    match v
    case JArr(items) => Ok(items)
    case JStr(s) => if s == [] then Ok([]) else Err(TypeError)
    case JObj(fields) => if |fields| == 0 then Ok([]) else Err(TypeError)
    case _ => Err(TypeError)
  }

  /** The one-character strings of `s`, in order, as iterating over a Python string yields them. */
  function Characters(s: string): (cs: seq<Json>)
    ensures |cs| == |s|
    ensures forall i :: 0 <= i < |s| ==> cs[i] == JStr([s[i]])
    decreases |s|
  {
    if s == [] then [] else Characters(s[..|s| - 1]) + [JStr([s[|s| - 1]])]
  }

  /**
   * The elements `list.extend(v)` appends: a list's elements, a string's
   * characters as one-character strings. A non-empty dict would append its
   * keys in insertion order, which an unordered map does not keep.
   */
  function Extended(v: Json): Result<seq<Json>, PyError>
  {
    match v
    case JArr(items) => Ok(items)
    case JStr(s) => Ok(Characters(s))
    case JObj(fields) =>
      if |fields| == 0 then Ok([]) else Err(NotModelled("extend by the keys of a dict"))
    case _ => Err(TypeError)
  }
}
