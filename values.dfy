/** Values as the Next.js pages and API routes see them: parsed JSON plus `undefined`,
    with JavaScript's truthiness, `||` and property access. The Flask side uses the same
    values for its JSON request and response bodies. */
module JsValues {

  datatype Option<+T> = None | Some(value: T)

  /** A JavaScript value that a JSON body can carry, plus `undefined`. Numbers are kept as
      exact reals: the floating-point rounding of the source is not modelled. */
  datatype Value =
    | Undefined
    | Null
    | Bool(b: bool)
    | Num(n: real)
    | Str(s: string)
    | Arr(items: seq<Value>)
    | Obj(fields: map<string, Value>)

  /** How an expression finished: normally with a value, or by throwing a TypeError. */
  datatype Completion<+T> = Normal(value: T) | Threw

  /** JavaScript's ToBoolean. */
  predicate Truthy(v: Value) {
    match v
    case Undefined => false
    case Null => false
    case Bool(b) => b
    case Num(n) => n != 0.0
    case Str(s) => s != ""
    case _ => true
  }

  /** `v == null` in JavaScript: the two values optional chaining stops at. */
  predicate Nullish(v: Value) {
    v.Undefined? || v.Null?
  }

  /** `a || b`: the first operand if it is truthy, otherwise the second. */
  function Or(a: Value, b: Value): (r: Value)
    ensures Truthy(a) ==> r == a
    ensures !Truthy(a) ==> r == b
    ensures Truthy(r) <==> Truthy(a) || Truthy(b)
  {
    if Truthy(a) then a else b
  }

  /** `v.key`: reading a property of null or undefined throws; an own field of an object is
      its value; arrays and strings have `length`; every other property reads as undefined
      (prototype members are not modelled). */
  function Get(v: Value, key: string): (r: Completion<Value>)
    ensures r.Threw? <==> Nullish(v)
    ensures v.Obj? && key in v.fields ==> r == Normal(v.fields[key])
    ensures v.Obj? && key !in v.fields ==> r == Normal(Undefined)
    ensures !v.Obj? && key != "length" && !Nullish(v) ==> r == Normal(Undefined)
  {
    match v
    case Undefined => Threw
    case Null => Threw
    case Obj(m) => Normal(if key in m then m[key] else Undefined)
    case Arr(xs) => Normal(if key == "length" then Num(|xs| as real) else Undefined)
    case Str(s) => Normal(if key == "length" then Num(|s| as real) else Undefined)
    case _ => Normal(Undefined)
  }

  /** `v?.key`: undefined when `v` is nullish, otherwise `v.key`. */
  function GetOpt(v: Value, key: string): (r: Value)
    ensures Nullish(v) ==> r == Undefined
    ensures !Nullish(v) ==> Get(v, key) == Normal(r)
  {
    match Get(v, key)
    case Threw => Undefined
    case Normal(x) => x
  }

  /** Python's `d.get(key)` on a decoded JSON object: a missing key and a JSON null both give None. */
  function PyGet(d: map<string, Value>, key: string): (r: Option<Value>)
    ensures r.None? <==> key !in d || d[key] == Null
    ensures r.Some? ==> r.value == d[key]
  {
    if key in d && d[key] != Null then Some(d[key]) else None
  }
}

/** HTTP exchanges as the handlers see them. */
module Http {
  import opened JsValues

  /** A response body: nothing, a JSON document, the framework's default page for an
      uncaught exception (Flask answers such a request with status 500 and an HTML page), or
      its default page for a request it refuses before the handler's own logic (a 4xx). */
  datatype Body = NoBody | Json(v: Value) | ServerErrorPage | ClientErrorPage

  datatype Response = Response(status: int, body: Body)

  /** `{"error": msg}` */
  function ErrorJson(msg: string): Body {
    Json(Obj(map["error" := Str(msg)]))
  }

  /** What one `fetch` produced: the promise rejected (transport failure), or it resolved with
      `res.ok` and, for `res.json()`, the parsed body or None when the body is not JSON. */
  datatype Reply = Unreachable | Replied(ok: bool, json: Option<Value>)

  /** One outgoing request: URL, HTTP method, headers and JSON body (None when there is none). */
  datatype Outbound = Outbound(url: string, verb: string, headers: map<string, string>, body: Option<Value>)

  const JsonContentType: map<string, string> := map["Content-Type" := "application/json"]

  /** What Flask's `request.get_json()` makes of a request body: the request does not declare
      a JSON content type, its body is not valid JSON, or the decoded document (which may be
      `null`, a list, a string or a number as well as an object). */
  datatype RequestJson = NotJsonType | MalformedJson | Parsed(v: Value)

  /** The answer Flask gives, without running the rest of the handler, when `get_json()`
      refuses the body: 415 Unsupported Media Type or 400 Bad Request. */
  function GetJsonAbort(body: RequestJson): (r: Response)
    requires !body.Parsed?
    ensures r.body == ClientErrorPage && 400 <= r.status <= 499
    ensures body == NotJsonType <==> r.status == 415
  {
    if body == NotJsonType then Response(415, ClientErrorPage) else Response(400, ClientErrorPage)
  }

  /** How a client's `fetch` sees a response: `res.ok` is a 2xx status, and `res.json()` only
      succeeds on a JSON body (an empty body or an HTML error page makes it reject). */
  function AsReply(resp: Response): (r: Reply)
    ensures r.Replied? && (r.ok <==> 200 <= resp.status <= 299)
    ensures r.json.Some? <==> resp.body.Json?
    ensures resp.body.Json? ==> r.json == Some(resp.body.v)
  {
    Replied(200 <= resp.status <= 299, if resp.body.Json? then Some(resp.body.v) else None)
  }
}
