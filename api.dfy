/** The generic request helper: it builds the URL, headers and body of a
    call, and turns the response into its data or an error. */
module Api {
  import opened Js

  /** A JSON value. Numbers are integers here. */
  datatype Json =
    | JNull
    | JBool(b: bool)
    | JNum(n: int)
    | JStr(s: string)
    | JArr(items: seq<Json>)
    | JObj(fields: map<string, Json>)

  /** JavaScript truthiness of a JSON value; `undefined` is falsy too. */
  predicate JsonTruthy(v: Option<Json>) {
    match v
    case None => false
    case Some(JNull) => false
    case Some(JBool(b)) => b
    case Some(JNum(n)) => n != 0
    case Some(JStr(s)) => s != ""
    case Some(_) => true
  }

  const DefaultBase := "http://localhost:4000/api"

  /** `API_BASE_URL`: the configured base, or the default when it is unset or empty. */
  function BaseUrl(env: Option<string>): (r: string)
    ensures !Truthy(env) ==> r == DefaultBase
    ensures Truthy(env) ==> r == env.value
  {
    OrElse(env, DefaultBase)
  }

  /** The arguments handed to `fetch`. */
  datatype Request = Request(url: string, verb: string, headers: map<string, string>, body: Option<Json>)

  /** `apiRequest` up to the `fetch` call: the content type is always set,
      the bearer header is added in place only for a non-empty token, the
      body is sent only when truthy, and a missing method means GET. */
  method BuildRequest(env: Option<string>, endpoint: string, verb: Option<string>, body: Option<Json>, token: Option<string>)
    returns (req: Request)
    ensures req.url == BaseUrl(env) + endpoint
    ensures req.verb == if verb.Some? then verb.value else "GET"
    ensures "Content-Type" in req.headers && req.headers["Content-Type"] == "application/json"
    ensures "Authorization" in req.headers <==> Truthy(token)
    ensures "Authorization" in req.headers ==> req.headers["Authorization"] == "Bearer " + token.value
    ensures req.headers.Keys <= {"Content-Type", "Authorization"}
    ensures req.body.Some? <==> JsonTruthy(body)
    ensures req.body.Some? ==> req.body == body
  {
    var headers := map["Content-Type" := "application/json"];
    if Truthy(token) {
      headers := headers["Authorization" := "Bearer " + token.value];
    }
    var chosen := if verb.Some? then verb.value else "GET";
    req := Request(BaseUrl(env) + endpoint, chosen, headers, if JsonTruthy(body) then body else None);
  }

  /** What `fetch` and `res.json()` produced. */
  datatype Reply = Received(ok: bool, data: Option<Json>) | NetworkError

  /** Why the returned promise rejects. */
  datatype Failure =
    | FetchRejected             // `fetch` itself rejected
    | BodyRejected              // `res.json()` rejected
    | RequestError(message: Json)  // `new Error(data.error || "Request failed")`
    | NullData                  // `data.error` read on a `null` body

  datatype Settled = Resolved(data: Json) | Rejected(failure: Failure)

  /** `data.error` for a body that is not `null`: only an object can carry it. */
  function ErrorField(data: Json): Option<Json>
    requires data != JNull
  {
    match data
    case JObj(m) => if "error" in m then Some(m["error"]) else None
    case _ => None
  }

  /** The end of `apiRequest`: an ok response resolves to its data; any other
      status rejects with the body's `error` if truthy, else "Request failed". */
  function Settle(reply: Reply): (r: Settled)
    ensures r.Resolved? <==> reply.Received? && reply.ok && reply.data.Some?
    ensures r.Resolved? ==> r.data == reply.data.value
    ensures reply.Received? && !reply.ok && reply.data.Some? && reply.data.value != JNull ==>
      r == Rejected(RequestError(
        if JsonTruthy(ErrorField(reply.data.value)) then ErrorField(reply.data.value).value
        else JStr("Request failed")))
    ensures reply == Received(false, Some(JNull)) ==> r == Rejected(NullData)
    ensures reply.NetworkError? ==> r == Rejected(FetchRejected)
    ensures reply.Received? && reply.data.None? ==> r == Rejected(BodyRejected)
  {
    match reply
    case NetworkError => Rejected(FetchRejected)
    case Received(ok, None) => Rejected(BodyRejected)
    case Received(ok, Some(data)) =>
      if ok then Resolved(data)
      else if data == JNull then Rejected(NullData)
      else
        var e := ErrorField(data);
        Rejected(RequestError(if JsonTruthy(e) then e.value else JStr("Request failed")))
  }

  /** A failed call whose body names no error reports the default message. */
  lemma DefaultErrorMessage(fields: map<string, Json>)
    requires "error" !in fields || !JsonTruthy(Some(fields["error"]))
    ensures Settle(Received(false, Some(JObj(fields)))) == Rejected(RequestError(JStr("Request failed")))
  {
  }
}
