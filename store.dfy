/** The top-level app: the cached session list, the bearer token and the
    session being edited, with the handlers that fetch, mutate, log in and
    out, and the guard on the admin routes. The list is only ever replaced
    wholesale by a refetch; mutations never patch it. */
module Store {
  import opened Js
  import opened Types
  import Form
  import Table

  /** The storage key under which the token is kept. */
  const TokenKey := "adminToken"

  /** What an admin route renders. */
  datatype Route = Children | RedirectToLogin

  /** `ProtectedRoute`: the admin pages are shown exactly when a token is held. */
  function ProtectedRoute(token: string): (r: Route)
    ensures r == Children <==> token != ""
    ensures r == RedirectToLogin <==> token == ""
  {
    if token == "" then RedirectToLogin else Children
  }

  /** `${API_BASE}/api/sessions`; the base has no default here. */
  function SessionsUrl(apiBase: Option<string>): string {
    Template(apiBase) + "/api/sessions"
  }

  /** `${API_BASE}/api/sessions/${id}`. */
  function SessionUrl(apiBase: Option<string>, id: Option<string>): (url: string)
    ensures id.None? ==> url == Template(apiBase) + "/api/sessions/undefined"
    ensures id.Some? ==> url == Template(apiBase) + "/api/sessions/" + id.value
  {
    SessionsUrl(apiBase) + "/" + Template(id)
  }

  /** The header every authenticated call sends, even for an empty token. */
  function Bearer(token: string): map<string, string> {
    map["Authorization" := "Bearer " + token]
  }

  /** The same header plus the JSON content type, for calls with a body. */
  function JsonBearer(token: string): map<string, string> {
    map["Content-Type" := "application/json", "Authorization" := "Bearer " + token]
  }

  /** What `fetchSessions` leaves in the list: the body if it parsed to an
      array (whatever the status), otherwise the list as it was. */
  function Refreshed(current: Body, resp: Response): (r: Body)
    ensures resp.Received? && resp.body.Some? && resp.body.value.Array? ==> r == resp.body.value
    ensures !(resp.Received? && resp.body.Some? && resp.body.value.Array?) ==> r == current
    ensures current.Array? ==> r.Array?
  {
    match resp
    case Received(_, Some(Array(xs))) => Array(xs)
    case _ => current
  }

  /** The application state. `sessions` holds whatever `setSessions` was
      last given: the handlers here only ever give it an array, but the
      dashboard's `onSessionsUpdate` gives it any parsed body. */
  class App {
    var sessions: Body
    var token: string
    var editingSession: Option<Body>
    var storage: map<string, string>
    const apiBase: Option<string>

    /** The cached list is a list. */
    ghost predicate ListIsArray()
      reads this
    {
      sessions.Array?
    }

    /** The initial state: an empty list, no edit, and the stored token or "". */
    constructor(stored: map<string, string>, apiBase: Option<string>)
      ensures ListIsArray() && sessions == Array([]) && editingSession == None
      ensures storage == stored && this.apiBase == apiBase
      ensures token == if TokenKey in stored then stored[TokenKey] else ""
    {
      sessions := Array([]);
      token := if TokenKey in stored then stored[TokenKey] else "";
      editingSession := None;
      storage := stored;
      this.apiBase := apiBase;
    }

    /** `fetchSessions`: an unauthenticated GET of the collection. The list is
        replaced only by an array body; a rejected request, an unparseable
        body or a non-array body leave it untouched. */
    method FetchSessions(resp: Response) returns (req: HttpRequest)
      modifies this`sessions
      ensures req == HttpRequest("GET", SessionsUrl(apiBase), map[], None)
      ensures sessions == Refreshed(old(sessions), resp)
      ensures old(ListIsArray()) ==> ListIsArray()
    {
      req := HttpRequest("GET", SessionsUrl(apiBase), map[], None);
      sessions := Refreshed(sessions, resp);
    }

    /** `handleEdit`: fetch the record by its `id` and make it the edit
        session, only after an ok response whose body parses. */
    method HandleEdit(session: Session, resp: Response) returns (req: HttpRequest)
      modifies this`editingSession
      ensures req == HttpRequest("GET", SessionUrl(apiBase, session.id), Bearer(token), None)
      ensures editingSession ==
        if resp.Received? && resp.ok && resp.body.Some? then resp.body else old(editingSession)
    {
      req := HttpRequest("GET", SessionUrl(apiBase, session.id), Bearer(token), None);
      if resp.Received? && resp.ok && resp.body.Some? {
        editingSession := resp.body;
      }
    }

    /** The shared tail of the three mutations: an ok status triggers a full
        refetch; anything else leaves the list as it was. */
    method AfterMutation(resp: Response, refetch: Response) returns (refetchReq: Option<HttpRequest>)
      modifies this`sessions
      ensures refetchReq.Some? <==> resp.Received? && resp.ok
      ensures refetchReq.Some? ==> refetchReq.value == HttpRequest("GET", SessionsUrl(apiBase), map[], None)
      ensures sessions == if resp.Received? && resp.ok then Refreshed(old(sessions), refetch) else old(sessions)
      ensures old(ListIsArray()) ==> ListIsArray()
    {
      refetchReq := None;
      if resp.Received? && resp.ok {
        var r := FetchSessions(refetch);
        refetchReq := Some(r);
      }
    }

    /** `handleAddSession`: POST the draft. The list is never patched with
        the draft: after success it is whatever the refetch returned. */
    method HandleAddSession(draft: Session, resp: Response, refetch: Response)
      returns (req: HttpRequest, refetchReq: Option<HttpRequest>)
      modifies this`sessions
      ensures req == HttpRequest("POST", SessionsUrl(apiBase), JsonBearer(token), Some(draft))
      ensures refetchReq.Some? <==> resp.Received? && resp.ok
      ensures sessions == if resp.Received? && resp.ok then Refreshed(old(sessions), refetch) else old(sessions)
      ensures resp.Received? && resp.ok && refetch.Received? && refetch.body.Some? && refetch.body.value.Array? ==>
        sessions == refetch.body.value
      ensures old(ListIsArray()) ==> ListIsArray()
    {
      req := HttpRequest("POST", SessionsUrl(apiBase), JsonBearer(token), Some(draft));
      refetchReq := AfterMutation(resp, refetch);
    }

    /** `handleUpdateSession`: PUT the record to the URL of its `id`. */
    method HandleUpdateSession(updated: Session, resp: Response, refetch: Response)
      returns (req: HttpRequest, refetchReq: Option<HttpRequest>)
      modifies this`sessions
      ensures req == HttpRequest("PUT", SessionUrl(apiBase, updated.id), JsonBearer(token), Some(updated))
      ensures refetchReq.Some? <==> resp.Received? && resp.ok
      ensures sessions == if resp.Received? && resp.ok then Refreshed(old(sessions), refetch) else old(sessions)
      ensures resp.Received? && resp.ok && refetch.Received? && refetch.body.Some? && refetch.body.value.Array? ==>
        sessions == refetch.body.value
      ensures old(ListIsArray()) ==> ListIsArray()
    {
      req := HttpRequest("PUT", SessionUrl(apiBase, updated.id), JsonBearer(token), Some(updated));
      refetchReq := AfterMutation(resp, refetch);
    }

    /** `handleDeleteSession`: DELETE the URL of the given id. */
    method HandleDeleteSession(id: Option<string>, resp: Response, refetch: Response)
      returns (req: HttpRequest, refetchReq: Option<HttpRequest>)
      modifies this`sessions
      ensures req == HttpRequest("DELETE", SessionUrl(apiBase, id), Bearer(token), None)
      ensures refetchReq.Some? <==> resp.Received? && resp.ok
      ensures sessions == if resp.Received? && resp.ok then Refreshed(old(sessions), refetch) else old(sessions)
      ensures resp.Received? && resp.ok && refetch.Received? && refetch.body.Some? && refetch.body.value.Array? ==>
        sessions == refetch.body.value
      ensures old(ListIsArray()) ==> ListIsArray()
    {
      req := HttpRequest("DELETE", SessionUrl(apiBase, id), Bearer(token), None);
      refetchReq := AfterMutation(resp, refetch);
    }

    /** `handleLogin`: store the token and hold it. */
    method HandleLogin(jwt: string)
      modifies this`storage, this`token
      ensures storage == old(storage)[TokenKey := jwt] && token == jwt
      ensures ProtectedRoute(token) == Children <==> jwt != ""
    {
      storage := storage[TokenKey := jwt];
      token := jwt;
    }

    /** `handleLogout`: remove the stored token and hold the empty one. */
    method HandleLogout()
      modifies this`storage, this`token
      ensures storage == old(storage) - {TokenKey} && token == ""
      ensures ProtectedRoute(token) == RedirectToLogin
    {
      storage := storage - {TokenKey};
      token := "";
    }

    /** The dashboard's `onSessionsUpdate`, which is `setSessions` itself:
        the one writer of the list that does not check for an array. */
    method OnSessionsUpdate(data: Body)
      modifies this`sessions
      ensures sessions == data
    {
      sessions := data;
    }
  }

  /** The form passes the record's `_id`, but the update handler builds its
      URL from `id`, which the form never sets: every update submitted from
      the form is sent to `/api/sessions/undefined`. */
  lemma FormUpdateTargetsUndefined(f: Form.FormData, edit: Session, loc: Locale, apiBase: Option<string>)
    requires Form.SubmitResult(f, Some(edit), true, loc).Value?
    ensures Form.SubmitResult(f, Some(edit), true, loc).value.Updated?
    ensures var rec := Form.SubmitResult(f, Some(edit), true, loc).value.record;
      SessionUrl(apiBase, rec.id) == Template(apiBase) + "/api/sessions/undefined"
  {
  }

  /** Editing from the table fetches the row by `_id`, then the app fetches
      the result again by its `id`: a record the server returns without an
      `id` leads to a second request for `/api/sessions/undefined`. */
  lemma TableEditRefetchesById(row: Session, token: string, env: Option<string>, resp: Response, apiBase: Option<string>)
    requires resp.Received? && resp.ok && resp.body.Some?
    ensures Table.HandleEditClick(row._id, token, env, resp).request.url ==
      Table.ApiBase(env) + "/api/sessions/" + Template(row._id)
    ensures var passed := Table.HandleEditClick(row._id, token, env, resp).onEdit;
      passed.Some? && SessionUrl(apiBase, passed.value.id) ==
        SessionsUrl(apiBase) + "/" + Template(AsRecord(resp.body.value).id)
  {
  }
}
