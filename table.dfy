/** The admin table of all sessions: its rows, the topic badge of each row,
    the edit button that fetches the full record first, and the delete
    confirmation. */
module Table {
  import opened Js
  import opened Types
  import Calendar

  const Blue := "bg-blue-100 text-blue-700"
  const Green := "bg-green-100 text-green-700"
  const Orange := "bg-orange-100 text-orange-700"

  /** The badge class: exact, case-sensitive comparisons, and orange for
      everything that is neither `"SOC"` nor `"GRC"`; there is no grey. */
  function BadgeClass(topic: Option<string>): (r: string)
    ensures r == Blue <==> topic == Some("SOC")
    ensures r == Green <==> topic == Some("GRC")
    ensures r == Orange <==> topic != Some("SOC") && topic != Some("GRC")
  {
    if topic == Some("SOC") then Blue
    else if topic == Some("GRC") then Green
    else Orange
  }

  /** The colour family of a Tailwind badge class used by the table or the
      calendar; the two components spell their classes differently (the
      calendar adds a border colour), so only the family can be compared. */
  datatype Hue = BlueHue | GreenHue | OrangeHue | GrayHue

  function HueOf(cls: string): Option<Hue> {
    if cls == Blue || cls == Calendar.Blue then Some(BlueHue)
    else if cls == Green || cls == Calendar.Green then Some(GreenHue)
    else if cls == Orange || cls == Calendar.Orange then Some(OrangeHue)
    else if cls == Calendar.Gray then Some(GrayHue)
    else None
  }

  /** The table and the calendar never produce the same class string, and
      they give a topic the same colour family exactly for the upper-case
      labels `"SOC"` and `"GRC"` and for Threat Intel in any letter case:
      `"soc"` or `"grc"` is orange in the table, an unknown topic is orange
      in the table and grey on the calendar. */
  lemma BadgeAgainstCalendar(t: string)
    ensures BadgeClass(Some(t)) != Calendar.TopicColor(t)
    ensures HueOf(BadgeClass(Some(t))) == HueOf(Calendar.TopicColor(t)) <==>
      t == "SOC" || t == "GRC" || Lower(t) == "threat intel"
  {
    if t == "SOC" {
      Calendar.SocInAnyCaseIsBlue();
    } else if t == "GRC" {
      Calendar.GrcIsGreen();
    }
  }

  /** A table body row. */
  datatype Row = Placeholder(colSpan: nat) | SessionRow(session: Session)

  /** The table body: one placeholder row across all six columns when there
      are no sessions, otherwise one row per session in list order. A cached
      value that is not an array has no `length`, so the emptiness test is
      false and the following `map` is a TypeError. */
  function Rows(data: Body): (r: Outcome<seq<Row>>)
    ensures r.Throws? <==> data.Object?
    ensures r.Throws? ==> r.error == TypeError
    ensures data == Array([]) ==> r == Value([Placeholder(6)])
    ensures data.Array? && data.items != [] ==> |r.value| == |data.items|
    ensures data.Array? && data.items != [] ==>
      forall i :: 0 <= i < |r.value| ==> r.value[i] == SessionRow(data.items[i])
  {
    match data
    case Array(sessions) =>
      if sessions == [] then Value([Placeholder(6)])
      else Value(seq(|sessions|, i requires 0 <= i < |sessions| => SessionRow(sessions[i])))
    case Object(_) => Throws(TypeError)
  }

  /** What an edit click does: the request it sends and the record, if any,
      that it passes on to `onEdit`. */
  datatype EditClick = EditClick(request: HttpRequest, onEdit: Option<Session>)

  /** The table's base URL: the configured one or `http://localhost:4000`. */
  function ApiBase(env: Option<string>): string {
    OrElse(env, "http://localhost:4000")
  }

  /** `handleEditClick(session._id)`: fetch the record with the bearer token,
      and call `onEdit` with the fetched record only after an ok response
      whose body parses. */
  function HandleEditClick(sessionId: Option<string>, token: string, env: Option<string>, resp: Response)
    : (r: EditClick)
    ensures r.request.verb == "GET" && r.request.payload.None?
    ensures r.request.url == ApiBase(env) + "/api/sessions/" + Template(sessionId)
    ensures r.request.headers == map["Authorization" := "Bearer " + token]
    ensures r.onEdit.Some? <==> resp.Received? && resp.ok && resp.body.Some?
    ensures r.onEdit.Some? ==> r.onEdit.value == AsRecord(resp.body.value)
  {
    var request := HttpRequest("GET", ApiBase(env) + "/api/sessions/" + Template(sessionId),
                               map["Authorization" := "Bearer " + token], None);
    match resp
    case Received(true, Some(b)) => EditClick(request, Some(AsRecord(b)))
    case _ => EditClick(request, None)
  }

  /** The delete confirmation: `onDelete` receives the row's `_id`. */
  function ConfirmDelete(row: Session): (id: Option<string>)
    ensures id == row._id
  {
    row._id
  }
}
