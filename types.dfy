/** The session record shared by every component, and the shapes in which
    the remote session collection answers. */
module Types {
  import opened Js

  /** A session record as the front-end receives or builds it. Every key may
      be missing from a JSON object, so every field is optional. The record
      carries both identifier keys found in the code: `id`, the one the
      declared interface names and `App` reads, and `_id`, the one the table,
      the calendar and the edit form read. */
  datatype Session = Session(
    id: Option<string>,
    _id: Option<string>,
    title: Option<string>,
    date: Option<string>,
    time: Option<string>,
    description: Option<string>,
    meetingLink: Option<string>,
    trainer: Option<string>,
    topic: Option<string>,
    durationMinutes: Option<int>
  )

  /** An object with none of the session keys: how any property read sees a
      value that is not a session object, such as an array. */
  const NoKeys: Session :=
    Session(None, None, None, None, None, None, None, None, None, None)

  /** The parsed JSON body of a session endpoint: a list or a single object. */
  datatype Body = Array(items: seq<Session>) | Object(record: Session)

  /** The body read as a record: property reads on an array find nothing. */
  function AsRecord(b: Body): Session {
    match b
    case Object(s) => s
    case Array(_) => NoKeys
  }

  /** What one `fetch` produced: a response with its status flag and its body
      (None when `res.json()` rejects), or a rejected promise. */
  datatype Response = Received(ok: bool, body: Option<Body>) | NetworkError

  /** A request as handed to `fetch`: its `method` (here `verb`), URL and
      headers; `payload` is the object passed to
      `JSON.stringify`, when there is one. */
  datatype HttpRequest = HttpRequest(
    verb: string,
    url: string,
    headers: map<string, string>,
    payload: Option<Session>
  )
}
