/** What travels between the client and the music service: parsed JSON,
    form dictionaries, the requests the client posts and the failures the
    core raises. The HTTP transport itself (pycloudmusic/ahttp.py) is not
    part of this model: a call's outcome is given as a scripted `Reply`. */
module Wire {

  datatype Option<+T> = None | Some(value: T)

  datatype Result<+T, +E> = Ok(value: T) | Err(error: E)

  /** A parsed JSON value. Floating-point numbers are not modelled. */
  datatype Json =
    | JNull
    | JBool(b: bool)
    | JInt(i: int)
    | JStr(s: string)
    | JList(items: seq<Json>)
    | JObject(fields: map<string, Json>)

  /** A Python dict of form fields, or a parsed JSON object. */
  type Dict = map<string, Json>

  /** The exceptions the core raises or lets through. */
  datatype Failure =
    | CannotConnectApi(url: string)   // the login post ran out of retries
    | PostFailed(path: string)        // the shared transport `_post` raised
    | KeyError(key: string)           // `d[key]` on a dict without that key
    | TypeMismatch                    // subscripting, iterating or `+=` on a value of the wrong type
    | BadData                         // Music163BadData
    | SingleMusicNotListable          // `list(...)` applied to a single Music object
    | KeyOrderNotKept                 // iterating the keys of an object with two or more keys:
                                      // their order in the reply is not kept by `Dict`

  /** The scripted outcome of one call to the shared transport `_post`. */
  datatype Reply = Answered(body: Json) | NoAnswer

  /** One request the client posts: path, form fields and the cookie it attaches. */
  datatype Request = Request(path: string, form: Dict, cookie: Option<string>)

  /** Python's `v[key]` on a parsed JSON value. */
  function Subscript(v: Json, key: string): Result<Json, Failure>
  {
    if !v.JObject? then Err(TypeMismatch)
    else if key !in v.fields then Err(KeyError(key))
    else Ok(v.fields[key])
  }

  /** The parsed body of a reply to `path`, or the transport's failure. */
  function BodyOf(reply: Reply, path: string): Result<Json, Failure>
  {
    match reply
    case Answered(body) => Ok(body)
    case NoAnswer => Err(PostFailed(path))
  }

  /** `reply[key]`, failing as the transport or the subscript does. */
  function ReplyField(reply: Reply, path: string, key: string): Result<Json, Failure>
  {
    match BodyOf(reply, path)
    case Err(e) => Err(e)
    case Ok(body) => Subscript(body, key)
  }

  /** Python's `iter(v)` succeeds: strings, lists and dicts are iterable;
      None, booleans and integers are not (TypeError). */
  predicate Iterable(v: Json)
  {
    v.JStr? || v.JList? || v.JObject?
  }

  /** Python's `len(v)` on an iterable parsed value: characters, items or keys. */
  function Len(v: Json): nat
    requires Iterable(v)
  {
    match v
    case JStr(s) => |s|
    case JList(items) => |items|
    case JObject(fields) => |fields|
  }

  function Digit(d: nat): char
    requires d < 10
  {
    "0123456789"[d]
  }

  /** Decimal digits of `n`, as Python's `str` writes them. */
  function Decimal(n: nat): (r: string)
    ensures |r| > 0
    ensures forall i :: 0 <= i < |r| ==> '0' <= r[i] <= '9'
    decreases n
  {
    if n < 10 then [Digit(n)] else Decimal(n / 10) + [Digit(n % 10)]
  }

  /** Python's `str(v)` (and `"%s" % v`) on a scalar. A list or object gets a
      placeholder rather than Python's rendering of it. */
  function PyStr(v: Json): string
  {
    match v
    case JNull => "None"
    case JBool(b) => if b then "True" else "False"
    case JInt(i) => if i < 0 then "-" + Decimal(-i) else Decimal(i)
    case JStr(s) => s
    case JList(_) => "[...]"
    case JObject(_) => "{...}"
  }
}
