/** The public calendar: which sessions fall on the selected day, whether a
    day is highlighted, and the fields each session card derives (time
    window, topic colour, trainer label, meeting link). Days are compared as
    formatted `yyyy-MM-dd` strings in the viewer's time zone, never as
    time-zone-aware dates. */
module Calendar {
  import opened Js
  import opened Types

  /** The day key of a session, or None where `new Date(session.date)` is an
      Invalid Date (on which date-fns `format` throws a RangeError). */
  function DayOf(s: Session, loc: Locale): Option<string> {
    match DateOf(loc, s.date)
    case Some(t) => Some(loc.dayKey(t))
    case None => None
  }

  /** The session belongs to the calendar day of the instant `day`. */
  predicate OnDay(s: Session, day: int, loc: Locale) {
    DayOf(s, loc) == Some(loc.dayKey(day))
  }

  /** Every session in the list has a date that formats. */
  predicate AllDated(sessions: seq<Session>, loc: Locale) {
    forall i :: 0 <= i < |sessions| ==> DayOf(sessions[i], loc).Some?
  }

  /** `a` is `b` with some elements left out, the rest in their order. */
  predicate IsSubsequence(a: seq<Session>, b: seq<Session>)
    decreases |b|
  {
    if a == [] then true
    else if b == [] then false
    else (a[0] == b[0] && IsSubsequence(a[1..], b[1..])) || IsSubsequence(a, b[1..])
  }

  /** `getSessionsForDate`: `sessions.filter` keeping the sessions whose day key
      equals the selected day's. The filter visits every session, so a single
      unparseable date makes it throw. */
  function SessionsForDate(sessions: seq<Session>, day: int, loc: Locale): (r: Outcome<seq<Session>>)
    ensures r.Value? <==> AllDated(sessions, loc)
    ensures r.Throws? ==> r.error == RangeError
    ensures r.Value? ==> |r.value| <= |sessions|
    ensures r.Value? ==> forall x :: x in r.value ==> OnDay(x, day, loc)
    ensures r.Value? ==> forall x :: OnDay(x, day, loc) ==> multiset(r.value)[x] == multiset(sessions)[x]
  {
    if sessions == [] then Value([])
    else
      match DayOf(sessions[0], loc)
      case None => Throws(RangeError)
      case Some(k) =>
        match SessionsForDate(sessions[1..], day, loc)
        case Throws(e) =>
          assert !AllDated(sessions[1..], loc);
          Throws(e)
        case Value(rest) =>
          assert sessions == [sessions[0]] + sessions[1..];
          Value(if k == loc.dayKey(day) then [sessions[0]] + rest else rest)
  }

  /** The filter keeps the collection's own order. */
  lemma {:induction false} SessionsForDateInOrder(sessions: seq<Session>, day: int, loc: Locale)
    requires SessionsForDate(sessions, day, loc).Value?
    ensures IsSubsequence(SessionsForDate(sessions, day, loc).value, sessions)
  {
    if sessions != [] {
      SessionsForDateInOrder(sessions[1..], day, loc);
      var rest := SessionsForDate(sessions[1..], day, loc).value;
      if OnDay(sessions[0], day, loc) {
        assert SessionsForDate(sessions, day, loc).value == [sessions[0]] + rest;
      } else {
        SubsequenceOfTail(rest, sessions);
      }
    }
  }

  lemma {:induction false} SubsequenceOfTail(a: seq<Session>, b: seq<Session>)
    requires b != [] && IsSubsequence(a, b[1..])
    ensures IsSubsequence(a, b)
  {
  }

  /** `selectedDateSessions`: with no selected date the list is empty and
      `filter` is not reached; otherwise a cached value that is not an array
      has no `filter`, which is a TypeError. */
  function SelectedDateSessions(data: Body, selected: Option<int>, loc: Locale): (r: Outcome<seq<Session>>)
    ensures selected.None? ==> r == Value([])
    ensures selected.Some? && data.Object? ==> r == Throws(TypeError)
    ensures selected.Some? && data.Array? ==> r == SessionsForDate(data.items, selected.value, loc)
  {
    if selected.None? then Value([])
    else match data
      case Array(xs) => SessionsForDate(xs, selected.value, loc)
      case Object(_) => Throws(TypeError)
  }

  /** The calendar's `hasSession` modifier for one day: `sessions.some`,
      which a cached value that is not an array does not have. */
  function DayHighlighted(data: Body, day: int, loc: Locale): (r: Outcome<bool>)
    ensures data.Object? ==> r == Throws(TypeError)
    ensures data.Array? ==> r == HasSessionsOnDate(data.items, day, loc)
  {
    match data
    case Array(xs) => HasSessionsOnDate(xs, day, loc)
    case Object(_) => Throws(TypeError)
  }

  /** `hasSessionsOnDate`: `sessions.some` with the same test. It stops at the
      first match, so it throws only on an unparseable date met before one. */
  function HasSessionsOnDate(sessions: seq<Session>, day: int, loc: Locale): (r: Outcome<bool>)
    ensures r == Value(true) <==>
      exists i :: 0 <= i < |sessions| && OnDay(sessions[i], day, loc) && AllDated(sessions[..i], loc)
    ensures r == Value(false) <==>
      AllDated(sessions, loc) && forall i :: 0 <= i < |sessions| ==> !OnDay(sessions[i], day, loc)
    ensures r.Throws? <==>
      exists j :: 0 <= j < |sessions| && DayOf(sessions[j], loc).None? &&
        forall i :: 0 <= i < j ==> !OnDay(sessions[i], day, loc)
    ensures r.Throws? ==> r.error == RangeError
  {
    if sessions == [] then Value(false)
    else
      match DayOf(sessions[0], loc)
      case None =>
        assert forall i :: 0 < i <= |sessions| ==> sessions[..i][0] == sessions[0];
        Throws(RangeError)
      case Some(k) =>
        if k == loc.dayKey(day) then
          assert sessions[..0] == [];
          Value(true)
        else
          var r := HasSessionsOnDate(sessions[1..], day, loc);
          TailShiftMatch(sessions, day, loc);
          TailShiftNone(sessions, day, loc);
          TailShiftThrow(sessions, day, loc);
          r
  }

  /** Past a first session that is dated and not on the day, the first
      match of the existence test is one of the rest of the list. */
  lemma TailShiftMatch(sessions: seq<Session>, day: int, loc: Locale)
    requires sessions != [] && DayOf(sessions[0], loc).Some? && !OnDay(sessions[0], day, loc)
    ensures (exists i :: 0 <= i < |sessions| && OnDay(sessions[i], day, loc) && AllDated(sessions[..i], loc)) <==>
      (exists i :: 0 <= i < |sessions[1..]| && OnDay(sessions[1..][i], day, loc) && AllDated(sessions[1..][..i], loc))
  {
    var t := sessions[1..];
    if exists i :: 0 <= i < |sessions| && OnDay(sessions[i], day, loc) && AllDated(sessions[..i], loc) {
      var i :| 0 <= i < |sessions| && OnDay(sessions[i], day, loc) && AllDated(sessions[..i], loc);
      assert i >= 1;
      assert sessions[..i] == [sessions[0]] + t[..i - 1];
      assert OnDay(t[i - 1], day, loc) && AllDated(t[..i - 1], loc);
    }
    if exists i :: 0 <= i < |t| && OnDay(t[i], day, loc) && AllDated(t[..i], loc) {
      var i :| 0 <= i < |t| && OnDay(t[i], day, loc) && AllDated(t[..i], loc);
      assert sessions[..i + 1] == [sessions[0]] + t[..i];
      assert OnDay(sessions[i + 1], day, loc) && AllDated(sessions[..i + 1], loc);
    }
  }

  /** Past such a first session, no match and no bad date means the same for
      the rest of the list. */
  lemma TailShiftNone(sessions: seq<Session>, day: int, loc: Locale)
    requires sessions != [] && DayOf(sessions[0], loc).Some? && !OnDay(sessions[0], day, loc)
    ensures (AllDated(sessions, loc) && forall i :: 0 <= i < |sessions| ==> !OnDay(sessions[i], day, loc)) <==>
      (AllDated(sessions[1..], loc) && forall i :: 0 <= i < |sessions[1..]| ==> !OnDay(sessions[1..][i], day, loc))
  {
    assert forall i :: 1 <= i < |sessions| ==> sessions[i] == sessions[1..][i - 1];
  }

  /** Past such a first session, a bad date reached before any match is one
      of the rest of the list. */
  lemma TailShiftThrow(sessions: seq<Session>, day: int, loc: Locale)
    requires sessions != [] && DayOf(sessions[0], loc).Some? && !OnDay(sessions[0], day, loc)
    ensures (exists j :: 0 <= j < |sessions| && DayOf(sessions[j], loc).None? &&
               forall i :: 0 <= i < j ==> !OnDay(sessions[i], day, loc)) <==>
      (exists j :: 0 <= j < |sessions[1..]| && DayOf(sessions[1..][j], loc).None? &&
         forall i :: 0 <= i < j ==> !OnDay(sessions[1..][i], day, loc))
  {
    var t := sessions[1..];
    if exists j :: 0 <= j < |sessions| && DayOf(sessions[j], loc).None? &&
         forall i :: 0 <= i < j ==> !OnDay(sessions[i], day, loc) {
      var j :| 0 <= j < |sessions| && DayOf(sessions[j], loc).None? &&
         forall i :: 0 <= i < j ==> !OnDay(sessions[i], day, loc);
      assert j >= 1;
      assert DayOf(t[j - 1], loc).None? && forall i :: 0 <= i < j - 1 ==> !OnDay(t[i], day, loc);
    }
    if exists j :: 0 <= j < |t| && DayOf(t[j], loc).None? && forall i :: 0 <= i < j ==> !OnDay(t[i], day, loc) {
      var j :| 0 <= j < |t| && DayOf(t[j], loc).None? && forall i :: 0 <= i < j ==> !OnDay(t[i], day, loc);
      assert DayOf(sessions[j + 1], loc).None?;
      assert forall i :: 0 <= i < j + 1 ==> !OnDay(sessions[i], day, loc);
    }
  }

  /** The highlight and the list agree: whenever the filter succeeds, the
      existence test succeeds too and is true exactly when the list is not
      empty; and a day the existence test reports empty has an empty list. */
  lemma {:induction false} HighlightAgreesWithList(sessions: seq<Session>, day: int, loc: Locale)
    ensures SessionsForDate(sessions, day, loc).Value? ==>
      HasSessionsOnDate(sessions, day, loc) == Value(SessionsForDate(sessions, day, loc).value != [])
    ensures HasSessionsOnDate(sessions, day, loc) == Value(false) ==>
      SessionsForDate(sessions, day, loc) == Value([])
  {
    if sessions != [] {
      HighlightAgreesWithList(sessions[1..], day, loc);
    }
  }

  /** The two tests differ only in when they throw: a match before a bad date
      highlights the day while the list for it throws. */
  lemma HighlightCanOutrunList(hit: Session, undated: Session, day: int, loc: Locale)
    requires OnDay(hit, day, loc) && DayOf(undated, loc).None?
    ensures HasSessionsOnDate([hit, undated], day, loc) == Value(true)
    ensures SessionsForDate([hit, undated], day, loc) == Throws(RangeError)
  {
    assert [hit, undated][1..] == [undated];
  }

  const Blue := "bg-blue-100 text-blue-700 border-blue-300"
  const Green := "bg-green-100 text-green-700 border-green-300"
  const Orange := "bg-orange-100 text-orange-700 border-orange-300"
  const Gray := "bg-gray-100 text-gray-700 border-gray-300"

  /** `getTopicColor`: the lower-cased topic selects one of three classes;
      every other topic gets the neutral grey class. */
  function TopicColor(topic: string): (r: string)
    ensures r == Blue <==> Lower(topic) == "soc"
    ensures r == Green <==> Lower(topic) == "grc"
    ensures r == Orange <==> Lower(topic) == "threat intel"
    ensures r == Gray <==> Lower(topic) != "soc" && Lower(topic) != "grc" && Lower(topic) != "threat intel"
  {
    match Lower(topic)
    case "soc" => Blue
    case "grc" => Green
    case "threat intel" => Orange
    case _ => Gray
  }

  /** Topics that differ only in letter case get the same colour. */
  lemma TopicColorIgnoresCase(a: string, b: string)
    requires Lower(a) == Lower(b)
    ensures TopicColor(a) == TopicColor(b)
  {
  }

  lemma SocInAnyCaseIsBlue()
    ensures TopicColor("SOC") == TopicColor("soc") == TopicColor("Soc") == Blue
  {
  }

  lemma GrcIsGreen()
    ensures TopicColor("grc") == TopicColor("GRC") == Green
  {
  }

  lemma ThreatIntelIsOrange()
    ensures TopicColor("threat intel") == TopicColor("Threat Intel") == Orange
  {
  }

  lemma UnknownTopicIsGray()
    ensures TopicColor("Red Team") == TopicColor("") == Gray
  {
  }

  /** The badge class of a card: `topic.toLowerCase()` throws on a missing topic. */
  function Badge(s: Session): (r: Outcome<string>)
    ensures r.Throws? <==> s.topic.None?
    ensures r.Value? ==> r.value == TopicColor(s.topic.value)
  {
    if s.topic.Some? then Value(TopicColor(s.topic.value)) else Throws(TypeError)
  }

  /** The start and end instants behind a card's time label; an end past
      the range of `Date` is an Invalid Date. */
  datatype Window = Window(start: int, end: Option<int>)

  /** `formatSessionTime`'s instants: the end is `new Date` of the start plus
      `(durationMinutes || 60)` minutes, in milliseconds. Nothing checks that
      the end stays on the same day, nor that it stays within `MaxTime`. */
  function DisplayWindow(s: Session, loc: Locale): (r: Option<Window>)
    ensures r.Some? <==> DateOf(loc, s.date).Some?
    ensures r.Some? ==> r.value.start == DateOf(loc, s.date).value
    ensures r.Some? && r.value.end.Some? ==> -MaxTime <= r.value.end.value <= MaxTime
    ensures r.Some? && (s.durationMinutes == None || s.durationMinutes == Some(0)) ==>
      (r.value.end.Some? <==> -MaxTime <= r.value.start + 3_600_000 <= MaxTime) &&
      (r.value.end.Some? ==> r.value.end.value - r.value.start == 3_600_000)
    ensures r.Some? && s.durationMinutes.Some? && s.durationMinutes.value != 0 ==>
      (r.value.end.Some? <==> -MaxTime <= r.value.start + s.durationMinutes.value * 60_000 <= MaxTime) &&
      (r.value.end.Some? ==> r.value.end.value - r.value.start == s.durationMinutes.value * 60_000)
  {
    match DateOf(loc, s.date)
    case Some(start) => Some(Window(start, TimeClip(start + NumberOr(s.durationMinutes, 60) * 60000)))
    case None => None
  }

  /** The label `"<start> - <end>"`; formatting an Invalid Date, the start
      or the end, throws. */
  function SessionTime(s: Session, loc: Locale): (r: Outcome<string>)
    ensures r.Throws? <==> DateOf(loc, s.date).None? || DisplayWindow(s, loc).value.end.None?
    ensures r.Throws? ==> r.error == RangeError
    ensures r.Value? ==>
      r.value == loc.clock12(DisplayWindow(s, loc).value.start) + " - " +
        loc.clock12(DisplayWindow(s, loc).value.end.value)
  {
    match DisplayWindow(s, loc)
    case Some(Window(start, Some(end))) => Value(loc.clock12(start) + " - " + loc.clock12(end))
    case _ => Throws(RangeError)
  }

  /** A card whose start is a valid date after 1970 still fails to render
      when the stored duration pushes its end past the range of `Date`:
      200 billion minutes is 1.2e16 ms, more than `MaxTime`. */
  lemma HugeDurationThrows(s: Session, loc: Locale)
    requires DateOf(loc, s.date).Some? && 0 <= DateOf(loc, s.date).value <= MaxTime
    requires s.durationMinutes == Some(200_000_000_000)
    ensures SessionTime(s, loc) == Throws(RangeError)
  {
    var w := DisplayWindow(s, loc).value;
    assert w.start + 200_000_000_000 * 60_000 > MaxTime;
  }

  /** An ordinary session, well inside the range, always gets its label. */
  lemma OrdinarySessionHasLabel(s: Session, loc: Locale)
    requires DateOf(loc, s.date).Some? && 0 <= DateOf(loc, s.date).value <= MaxTime - 10_000 * 60_000
    requires s.durationMinutes.None? || 0 <= s.durationMinutes.value <= 10_000
    ensures SessionTime(s, loc).Value?
  {
  }

  /** `session.trainer || "TBD"`: never blank. */
  function TrainerLabel(s: Session): (r: string)
    ensures r != ""
    ensures Truthy(s.trainer) ==> r == s.trainer.value
    ensures !Truthy(s.trainer) ==> r == "TBD"
  {
    OrElse(s.trainer, "TBD")
  }

  /** `session.meetingLink && <a …>`: the link renders only when present and non-empty. */
  function ShowsMeetingLink(s: Session): (r: bool)
    ensures r <==> s.meetingLink.Some? && s.meetingLink.value != ""
  {
    Truthy(s.meetingLink)
  }
}
