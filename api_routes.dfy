/** frontend/pages/api/predict_year.js: a POST-only proxy to the year-series backend. */
module PredictYearApi {
  import opened JsValues
  import opened Http

  const DefaultModelUrl := "http://localhost:8000/predict_year"

  /** `process.env.MODEL_URL || default`: an unset or empty variable falls back. */
  function ModelUrl(env: Option<string>): (url: string)
    ensures env.Some? && env.value != "" ==> url == env.value
    ensures env.None? || env.value == "" ==> url == DefaultModelUrl
  {
    if env.Some? && env.value != "" then env.value else DefaultModelUrl
  }

  /** What one call of a proxy handler did: the backend request it made (if any) and the single
      response it wrote. */
  datatype Proxied = Proxied(call: Option<Outbound>, response: Response)

  /** `handler(req, res)`: `body` is `req.body`, `reply` what the backend fetch produced.
      `JSON.stringify(undefined)` is undefined, and a fetch given that body sends none. */
  function Handler(verb: string, body: Value, env: Option<string>, reply: Reply): (r: Proxied)
    ensures verb != "POST" ==> r == Proxied(None, Response(405, ErrorJson("method not allowed")))
    // a POST forwards the body unchanged to the configured backend, or no body for undefined
    ensures verb == "POST" && !body.Undefined? ==>
      r.call == Some(Outbound(ModelUrl(env), "POST", JsonContentType, Some(body)))
    ensures verb == "POST" && body.Undefined? ==>
      r.call == Some(Outbound(ModelUrl(env), "POST", JsonContentType, None))
    // the backend's JSON is passed through; only its status is mapped
    ensures verb == "POST" && reply.Replied? && reply.json.Some? ==>
      r.response == Response(if reply.ok then 200 else 500, Json(reply.json.value))
    ensures verb == "POST" && (reply.Unreachable? || reply.json.None?) ==>
      r.response == Response(500, ErrorJson("failed to fetch predictions"))
  {
    if verb != "POST" then Proxied(None, Response(405, ErrorJson("method not allowed")))
    else
      var call := Outbound(ModelUrl(env), "POST", JsonContentType, if body.Undefined? then None else Some(body));
      match reply
      case Unreachable => Proxied(Some(call), Response(500, ErrorJson("failed to fetch predictions")))
      case Replied(ok, json) =>
        match json
        case None => Proxied(Some(call), Response(500, ErrorJson("failed to fetch predictions")))
        case Some(data) => Proxied(Some(call), Response(if ok then 200 else 500, Json(data)))
  }

  /** The answer is 200 exactly when the backend answered ok with a JSON body; every other POST
      gets 500, and every other method 405. */
  lemma HandlerStatus(verb: string, body: Value, env: Option<string>, reply: Reply)
    ensures Handler(verb, body, env, reply).response.status == 200
        <==> verb == "POST" && reply.Replied? && reply.ok && reply.json.Some?
    ensures Handler(verb, body, env, reply).response.status in {200, 405, 500}
  {
  }
}

/** frontend/pages/api/models/index.js: a proxy to the model inventory, for every method. */
module ModelsApi {
  import opened JsValues
  import opened Http
  import PredictYearApi

  const DefaultBackendUrl := "http://localhost:5000/models"

  /** `process.env.BACKEND_URL || default`. */
  function BackendUrl(env: Option<string>): (url: string)
    ensures env.Some? && env.value != "" ==> url == env.value
    ensures env.None? || env.value == "" ==> url == DefaultBackendUrl
  {
    if env.Some? && env.value != "" then env.value else DefaultBackendUrl
  }

  /** `handler(req, res)`: there is no method gate, the backend is always fetched with a plain GET,
      a non-ok status throws before the body is read, and every failure gets the same body. */
  function Handler(env: Option<string>, reply: Reply): (r: PredictYearApi.Proxied)
    ensures r.call == Some(Outbound(BackendUrl(env), "GET", map[], None))
    ensures reply.Replied? && reply.ok && reply.json.Some? ==> r.response == Response(200, Json(reply.json.value))
    ensures !(reply.Replied? && reply.ok && reply.json.Some?) ==>
      r.response == Response(500, ErrorJson("failed to load models"))
  {
    var call := Outbound(BackendUrl(env), "GET", map[], None);
    match reply
    case Unreachable => PredictYearApi.Proxied(Some(call), Response(500, ErrorJson("failed to load models")))
    case Replied(ok, json) =>
      if !ok then PredictYearApi.Proxied(Some(call), Response(500, ErrorJson("failed to load models")))
      else
        match json
        case None => PredictYearApi.Proxied(Some(call), Response(500, ErrorJson("failed to load models")))
        case Some(data) => PredictYearApi.Proxied(Some(call), Response(200, Json(data)))
  }

  /** Unlike the prediction proxy, a non-ok backend never leaks its body: the answer depends on
      the backend's body only when the backend answered ok. */
  lemma NonOkBodyIgnored(env: Option<string>, j1: Option<Value>, j2: Option<Value>)
    ensures Handler(env, Replied(false, j1)) == Handler(env, Replied(false, j2))
    ensures Handler(env, Replied(false, j1)) == Handler(env, Unreachable)
  {
  }
}
