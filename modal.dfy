/** The public session dialog: nothing for a missing session, otherwise the
    record with a topic badge coloured like the calendar's. */
module Modal {
  import opened Js
  import opened Types
  import Calendar

  /** The dialog's own `getTopicColor`, written out again in its source file. */
  function TopicColor(topic: string): (r: string)
    ensures r == Calendar.Gray <==>
      Lower(topic) != "soc" && Lower(topic) != "grc" && Lower(topic) != "threat intel"
  {
    match Lower(topic)
    case "soc" => "bg-blue-100 text-blue-700 border-blue-300"
    case "grc" => "bg-green-100 text-green-700 border-green-300"
    case "threat intel" => "bg-orange-100 text-orange-700 border-orange-300"
    case _ => "bg-gray-100 text-gray-700 border-gray-300"
  }

  /** The two copies are the same function. */
  lemma TopicColorMatchesCalendar(topic: string)
    ensures TopicColor(topic) == Calendar.TopicColor(topic)
  {
  }

  /** What the dialog shows: the record and its badge class. */
  datatype View = View(session: Session, badge: string)

  /** The component: `null` renders nothing; reading the topic of a record
      without one throws. */
  function Render(session: Option<Session>): (r: Outcome<Option<View>>)
    ensures session.None? ==> r == Value(None)
    ensures session.Some? && session.value.topic.None? ==> r == Throws(TypeError)
    ensures session.Some? && session.value.topic.Some? ==>
      r == Value(Some(View(session.value, Calendar.TopicColor(session.value.topic.value))))
  {
    match session
    case None => Value(None)
    case Some(s) =>
      if s.topic.None? then Throws(TypeError)
      else Value(Some(View(s, TopicColor(s.topic.value))))
  }
}
