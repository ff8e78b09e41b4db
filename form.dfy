/** The admin session form: the edit prefill that turns a fetched record into
    flat form fields, the submit step that chooses between update and create,
    and the reset that follows a submit. */
module Form {
  import opened Js
  import opened Types

  /** The form's state: the session keys except `id`, all plain values. */
  datatype FormData = FormData(
    title: string,
    date: string,         // `yyyy-MM-dd`, as the date input holds it
    time: string,         // the time input's text
    description: string,
    meetingLink: string,
    trainer: string,
    topic: string,
    durationMinutes: int
  )

  /** The state the form starts in and returns to after every submit. */
  const Blank := FormData("", "", "", "", "", "", "", 60)

  /** `s.split("T")[0]`: the text before the first `T`, or all of it. */
  function DatePart(s: string): (r: string)
    ensures r <= s
    ensures 'T' !in r
    ensures |r| < |s| ==> s[|r|] == 'T'
  {
    if s == [] || s[0] == 'T' then [] else [s[0]] + DatePart(s[1..])
  }

  /** The time field of the prefill: empty for a missing date, the locale's
      hour-and-minute text of a parseable one (not necessarily the 24-hour
      form a time input holds), and the text an Invalid Date prints as. */
  function PrefillTime(date: Option<string>, loc: Locale): string {
    if !Truthy(date) then ""
    else match loc.parse(date.value)
      case Some(t) => loc.timeText(t)
      case None => "Invalid Date"
  }

  /** The prefill mapping applied when an edit session arrives. The date is
      cut from the stored string, not converted to local time. */
  function Prefill(s: Session, loc: Locale): (f: FormData)
    ensures Truthy(s.title) ==> f.title == s.title.value
    ensures !Truthy(s.title) ==> f.title == ""
    ensures Truthy(s.description) ==> f.description == s.description.value
    ensures !Truthy(s.description) ==> f.description == ""
    ensures Truthy(s.meetingLink) ==> f.meetingLink == s.meetingLink.value
    ensures !Truthy(s.meetingLink) ==> f.meetingLink == ""
    ensures Truthy(s.trainer) ==> f.trainer == s.trainer.value
    ensures !Truthy(s.trainer) ==> f.trainer == ""
    ensures Truthy(s.date) ==> f.date == DatePart(s.date.value)
    ensures !Truthy(s.date) ==> f.date == "" && f.time == ""
    ensures Truthy(s.date) && loc.parse(s.date.value).Some? ==>
      f.time == loc.timeText(loc.parse(s.date.value).value)
    ensures Truthy(s.date) && loc.parse(s.date.value).None? ==> f.time == "Invalid Date"
    ensures f.topic != ""
    ensures Truthy(s.topic) ==> f.topic == s.topic.value
    ensures !Truthy(s.topic) ==> f.topic == "SOC"
    ensures s.durationMinutes.Some? ==> f.durationMinutes == s.durationMinutes.value
    ensures s.durationMinutes.None? ==> f.durationMinutes == 60
  {
    FormData(
      OrElse(s.title, ""),
      if Truthy(s.date) then DatePart(s.date.value) else "",
      PrefillTime(s.date, loc),
      OrElse(s.description, ""),
      OrElse(s.meetingLink, ""),
      OrElse(s.trainer, ""),
      OrElse(s.topic, "SOC"),
      NullishOr(s.durationMinutes, 60))
  }

  /** A stored duration of 0 minutes survives the prefill, although the
      calendar shows such a session as one hour long. */
  lemma PrefillKeepsZeroDuration(s: Session, loc: Locale)
    requires s.durationMinutes == Some(0)
    ensures Prefill(s, loc).durationMinutes == 0
    ensures NumberOr(s.durationMinutes, 60) == 60
  {
  }

  /** The object handed to a callback: `{...formData, date: dateTime.toISOString()}`. */
  function Payload(f: FormData, instant: int, loc: Locale): (p: Session)
    ensures p.id.None? && p._id.None?
    ensures p.date == Some(loc.iso(instant))
    ensures p.title == Some(f.title) && p.time == Some(f.time) && p.description == Some(f.description)
    ensures p.meetingLink == Some(f.meetingLink) && p.trainer == Some(f.trainer) && p.topic == Some(f.topic)
    ensures p.durationMinutes == Some(f.durationMinutes)
  {
    Session(None, None, Some(f.title), Some(loc.iso(instant)), Some(f.time), Some(f.description),
            Some(f.meetingLink), Some(f.trainer), Some(f.topic), Some(f.durationMinutes))
  }

  /** `{...p, _id: v}`. */
  function WithUnderscoreId(p: Session, v: Option<string>): Session {
    Session(p.id, v, p.title, p.date, p.time, p.description, p.meetingLink, p.trainer, p.topic, p.durationMinutes)
  }

  /** Which callback a submit calls, and with what. */
  datatype Submission = Created(record: Session) | Updated(record: Session)

  /** `handleSubmit` up to the reset. `new Date(date + "T" + time)` is parsed
      in local time; `toISOString` throws on an Invalid Date, and then neither
      callback runs. Update mode needs both an edit session and an update
      callback; otherwise the form creates. */
  function SubmitResult(f: FormData, editSession: Option<Session>, hasUpdateCallback: bool, loc: Locale)
    : (r: Outcome<Submission>)
    ensures r.Throws? <==> loc.parse(f.date + "T" + f.time).None?
    ensures r.Throws? ==> r.error == RangeError
    ensures r.Value? ==> (r.value.Updated? <==> editSession.Some? && hasUpdateCallback)
    ensures r.Value? ==> r.value.record.id.None?
    ensures r.Value? && r.value.Created? ==> r.value.record._id.None?
    ensures r.Value? && r.value.Updated? ==> r.value.record._id == editSession.value._id
    ensures r.Value? ==>
      var t := loc.parse(f.date + "T" + f.time).value;
      r.value.record == WithUnderscoreId(Payload(f, t, loc), r.value.record._id)
  {
    match loc.parse(f.date + "T" + f.time)
    case None => Throws(RangeError)
    case Some(t) =>
      var payload := Payload(f, t, loc);
      if editSession.Some? && hasUpdateCallback then Value(Updated(WithUnderscoreId(payload, editSession.value._id)))
      else Value(Created(payload))
  }

  /** The round trip of an edit: when the stored date's text before `T`,
      followed by the locale's time text, parses back to the stored instant,
      submitting the untouched prefill updates the same record with that
      instant and the prefilled fields. In a locale whose time text carries
      AM/PM the condition can fail. */
  lemma {:induction false} EditRoundTrip(s: Session, loc: Locale, t: int)
    requires Truthy(s.date) && loc.parse(s.date.value) == Some(t)
    requires loc.parse(DatePart(s.date.value) + "T" + loc.timeText(t)) == Some(t)
    ensures SubmitResult(Prefill(s, loc), Some(s), true, loc).Value?
    ensures SubmitResult(Prefill(s, loc), Some(s), true, loc).value.Updated?
    ensures SubmitResult(Prefill(s, loc), Some(s), true, loc).value.record.date == Some(loc.iso(t))
    ensures SubmitResult(Prefill(s, loc), Some(s), true, loc).value.record._id == s._id
    ensures SubmitResult(Prefill(s, loc), Some(s), true, loc).value.record ==
      WithUnderscoreId(Payload(Prefill(s, loc), t, loc), s._id)
  {
    var f := Prefill(s, loc);
    assert f.date + "T" + f.time == DatePart(s.date.value) + "T" + loc.timeText(t);
  }

  /** The form's state, which the prefill effect overwrites and a submit resets. */
  class SessionForm {
    var formData: FormData

    constructor()
      ensures formData == Blank
    {
      formData := Blank;
    }

    /** The prefill effect: runs when the edit session changes, and does
        nothing when there is none. */
    method PrefillFrom(editSession: Option<Session>, loc: Locale)
      modifies this
      ensures formData == if editSession.Some? then Prefill(editSession.value, loc) else old(formData)
    {
      if editSession.Some? {
        formData := Prefill(editSession.value, loc);
      }
    }

    /** `handleSubmit`: calls exactly one callback and resets the form to
        `Blank`, unless building the date throws first. */
    method HandleSubmit(editSession: Option<Session>, hasUpdateCallback: bool, loc: Locale)
      returns (r: Outcome<Submission>)
      modifies this
      ensures r == SubmitResult(old(formData), editSession, hasUpdateCallback, loc)
      ensures r.Value? ==> formData == Blank
      ensures r.Throws? ==> formData == old(formData)
    {
      r := SubmitResult(formData, editSession, hasUpdateCallback, loc);
      if r.Value? {
        formData := Blank;
      }
    }
  }
}
