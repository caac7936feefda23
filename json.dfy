/**
 * Parsed JSON values as the clients receive them from `Response.json()`,
 * the exceptions the clients raise, and the Python operations the clients
 * apply to parsed JSON: truthiness, `d.get(k, default)`, `d[k]`, `x[0]`,
 * `k in x` and `str(x)`.
 */
module PyJson {
  import opened PyText

  /** A JSON document after `json.loads`; objects are Python dicts. */
  datatype Json =
    | Null
    | Bool(b: bool)
    | Int(i: int)
    | Str(s: string)
    | Arr(elems: seq<Json>)
    | Obj(fields: map<string, Json>)

  /**
   * The exceptions the clients raise. The built-in ones are Python's own;
   * the others are the `Exception`s the clients raise explicitly, carrying
   * exactly the values their messages interpolate.
   */
  datatype Error =
    | TypeError
    | KeyError
    | AttributeError
    | IndexError
    | ValueError
    | InvalidSparqlResponse(response: Json)
    | NoSparqlResults(categoryName: string)
    | NoSparqlItem(categoryName: string)
    | InvalidQid(qId: string, itemUri: string)
    | InvalidPetScanJson(statusCode: int, bodyStart: string)
    | MarkFileFailed(mId: string, qId: string, categoryTitle: string, body: string)
    | MarkCategoryFailed(qId: string, body: string)

  /** The outcome of a call that either returns a value or raises. */
  datatype Result<T> = Ok(value: T) | Err(error: Error) {
    predicate IsFailure() { Err? }
    function PropagateFailure<U>(): Result<U> requires Err? { Err(error) }
    function Extract(): T requires Ok? { value }
  }

  /** Python's `bool(x)`. */
  predicate Truthy(j: Json) {
    match j
    case Null => false
    case Bool(b) => b
    case Int(i) => i != 0
    case Str(s) => s != []
    case Arr(a) => a != []
    case Obj(m) => m != map[]
  }

  /** `x.get(key, default)`: only dicts have `.get`. */
  function Get(x: Json, key: string, default: Json): (r: Result<Json>)
    ensures r.Ok? <==> x.Obj?
    ensures x.Obj? && key in x.fields ==> r == Ok(x.fields[key])
    ensures x.Obj? && key !in x.fields ==> r == Ok(default)
  {
    match x
    case Obj(m) => Ok(if key in m then m[key] else default)
    case _ => Err(AttributeError)
  }

  /** `x[key]` with a string key: a missing key is a `KeyError`, a non-dict a `TypeError`. */
  function Index(x: Json, key: string): (r: Result<Json>)
    ensures r.Ok? <==> x.Obj? && key in x.fields
    ensures r.Ok? ==> r.value == x.fields[key]
    ensures !x.Obj? ==> r == Err(TypeError)
  {
    match x
    case Obj(m) => if key in m then Ok(m[key]) else Err(KeyError)
    case _ => Err(TypeError)
  }

  /** `x[0]`: a list or string gives its first element; a dict has no key `0`, since JSON keys are strings. */
  function First(x: Json): (r: Result<Json>)
    ensures x.Arr? && x.elems != [] ==> r == Ok(x.elems[0])
    ensures r.Ok? ==> (x.Arr? && x.elems != []) || (x.Str? && x.s != [])
  {
    match x
    case Arr(a) => if a != [] then Ok(a[0]) else Err(IndexError)
    case Str(s) => if s != [] then Ok(Str([s[0]])) else Err(IndexError)
    case Obj(_) => Err(KeyError)
    case _ => Err(TypeError)
  }

  /** `key in x`: a dict tests its keys, a list its elements, a string its substrings. */
  function Contains(x: Json, key: string): (r: Result<bool>)
    ensures x.Obj? ==> r == Ok(key in x.fields)
    ensures r.Ok? <==> (x.Obj? || x.Arr? || x.Str?)
  {
    match x
    case Obj(m) => Ok(key in m)
    case Arr(a) => Ok(Str(key) in a)
    case Str(s) => Ok(IsSubstring(key, s))
    case _ => Err(TypeError)
  }

  /** The single-character strings that iterating over a Python string produces. */
  function Chars(s: string): (r: seq<Json>)
    ensures |r| == |s|
    ensures forall i :: 0 <= i < |s| ==> r[i] == Str([s[i]])
  {
    seq(|s|, i requires 0 <= i < |s| => Str([s[i]]))
  }

  /**
   * `str(x)` for the scalar values that occur as identifiers and titles.
   * The `repr` of a list or dict is not modelled; both render as a fixed
   * placeholder.
   */
  function PyStr(x: Json): (r: string)
    ensures x.Str? ==> r == x.s
    ensures x.Int? ==> ParseInt(r) == Some(x.i)
  {
    match x
    case Null => "None"
    case Bool(b) => if b then "True" else "False"
    case Int(i) =>
      ParseIntOfDecimal(i);
      IntToDecimal(i)
    case Str(s) => s
    case Arr(_) => "[...]"
    case Obj(_) => "{...}"
  }
}
