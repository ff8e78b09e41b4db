/** The admin dashboard: its own copy of the session list, loaded without a
    shape check and forwarded to the app, and the three counters shown on it. */
module Dashboard {
  import opened Js
  import opened Types

  /** A session counts as upcoming when its date parses to `now` or later. */
  predicate IsUpcoming(s: Session, now: int, loc: Locale) {
    DateOf(loc, s.date).Some? && DateOf(loc, s.date).value >= now
  }

  /** A session counts as completed when its date parses to before `now`. */
  predicate IsCompleted(s: Session, now: int, loc: Locale) {
    DateOf(loc, s.date).Some? && DateOf(loc, s.date).value < now
  }

  /** Sessions dated at or after `now`. An Invalid Date compares false. */
  function Upcoming(sessions: seq<Session>, now: int, loc: Locale): (n: nat)
    ensures n <= |sessions|
    ensures |sessions| == 1 ==> (n == 1 <==> IsUpcoming(sessions[0], now, loc))
    ensures n == 0 <==> forall i :: 0 <= i < |sessions| ==> !IsUpcoming(sessions[i], now, loc)
    ensures n == |sessions| <==> forall i :: 0 <= i < |sessions| ==> IsUpcoming(sessions[i], now, loc)
  {
    if sessions == [] then 0
    else
      var rest := Upcoming(sessions[1..], now, loc);
      assert forall i :: 1 <= i < |sessions| ==> sessions[i] == sessions[1..][i - 1];
      (if IsUpcoming(sessions[0], now, loc) then 1 else 0) + rest
  }

  /** Sessions dated strictly before `now`. */
  function Completed(sessions: seq<Session>, now: int, loc: Locale): (n: nat)
    ensures n <= |sessions|
    ensures |sessions| == 1 ==> (n == 1 <==> IsCompleted(sessions[0], now, loc))
    ensures n == 0 <==> forall i :: 0 <= i < |sessions| ==> !IsCompleted(sessions[i], now, loc)
    ensures n == |sessions| <==> forall i :: 0 <= i < |sessions| ==> IsCompleted(sessions[i], now, loc)
  {
    if sessions == [] then 0
    else
      var rest := Completed(sessions[1..], now, loc);
      assert forall i :: 1 <= i < |sessions| ==> sessions[i] == sessions[1..][i - 1];
      (if IsCompleted(sessions[0], now, loc) then 1 else 0) + rest
  }

  /** The upcoming count of a concatenation is the sum of the counts, so
      together with the one-session case it fixes which sessions count. */
  lemma {:induction false} UpcomingAppend(a: seq<Session>, b: seq<Session>, now: int, loc: Locale)
    ensures Upcoming(a + b, now, loc) == Upcoming(a, now, loc) + Upcoming(b, now, loc)
  {
    if a == [] {
      assert a + b == b;
    } else {
      assert (a + b)[0] == a[0];
      assert (a + b)[1..] == a[1..] + b;
      UpcomingAppend(a[1..], b, now, loc);
    }
  }

  /** The completed count of a concatenation is the sum of the counts. */
  lemma {:induction false} CompletedAppend(a: seq<Session>, b: seq<Session>, now: int, loc: Locale)
    ensures Completed(a + b, now, loc) == Completed(a, now, loc) + Completed(b, now, loc)
  {
    if a == [] {
      assert a + b == b;
    } else {
      assert (a + b)[0] == a[0];
      assert (a + b)[1..] == a[1..] + b;
      CompletedAppend(a[1..], b, now, loc);
    }
  }

  /** Sessions whose date does not parse. */
  function Undated(sessions: seq<Session>, loc: Locale): (n: nat)
    ensures n <= |sessions|
    ensures n == 0 <==> forall i :: 0 <= i < |sessions| ==> DateOf(loc, sessions[i].date).Some?
  {
    if sessions == [] then 0
    else (if DateOf(loc, sessions[0].date).None? then 1 else 0) + Undated(sessions[1..], loc)
  }

  /** Every session is upcoming, completed or undated, and only one of them. */
  lemma {:induction false} CountsPartition(sessions: seq<Session>, now: int, loc: Locale)
    ensures Upcoming(sessions, now, loc) + Completed(sessions, now, loc) + Undated(sessions, loc) == |sessions|
  {
    if sessions != [] {
      CountsPartition(sessions[1..], now, loc);
    }
  }

  /** With every date parseable the two counters add up to the total. */
  lemma {:induction false} CountsSumToTotal(sessions: seq<Session>, now: int, loc: Locale)
    requires forall i :: 0 <= i < |sessions| ==> DateOf(loc, sessions[i].date).Some?
    ensures Upcoming(sessions, now, loc) + Completed(sessions, now, loc) == |sessions|
  {
    CountsPartition(sessions, now, loc);
    NoneUndated(sessions, loc);
  }

  lemma {:induction false} NoneUndated(sessions: seq<Session>, loc: Locale)
    requires forall i :: 0 <= i < |sessions| ==> DateOf(loc, sessions[i].date).Some?
    ensures Undated(sessions, loc) == 0
  {
    if sessions != [] {
      assert DateOf(loc, sessions[0].date).Some?;
      NoneUndated(sessions[1..], loc);
    }
  }

  /** A session dated at or after now, including exactly now, adds one to
      the upcoming card and nothing to the completed one; one dated before
      now does the opposite. */
  lemma SessionAtOrAfterNowIsUpcoming(xs: seq<Session>, s: Session, now: int, loc: Locale)
    requires DateOf(loc, s.date).Some? && DateOf(loc, s.date).value >= now
    ensures Upcoming(xs + [s], now, loc) == Upcoming(xs, now, loc) + 1
    ensures Completed(xs + [s], now, loc) == Completed(xs, now, loc)
  {
    UpcomingAppend(xs, [s], now, loc);
    CompletedAppend(xs, [s], now, loc);
  }

  lemma SessionBeforeNowIsCompleted(xs: seq<Session>, s: Session, now: int, loc: Locale)
    requires DateOf(loc, s.date).Some? && DateOf(loc, s.date).value < now
    ensures Upcoming(xs + [s], now, loc) == Upcoming(xs, now, loc)
    ensures Completed(xs + [s], now, loc) == Completed(xs, now, loc) + 1
  {
    UpcomingAppend(xs, [s], now, loc);
    CompletedAppend(xs, [s], now, loc);
  }

  /** The three cards. */
  datatype Stats = Stats(total: nat, upcoming: nat, completed: nat)

  /** The counters of the rendered list; `sessions.filter` throws when the
      stored data is not an array. */
  function StatsOf(data: Body, now: int, loc: Locale): (r: Outcome<Stats>)
    ensures r.Value? <==> data.Array?
    ensures r.Throws? ==> r.error == TypeError
    ensures r.Value? ==> r.value.total == |data.items|
    ensures r.Value? ==> r.value.upcoming == Upcoming(data.items, now, loc)
    ensures r.Value? ==> r.value.completed == Completed(data.items, now, loc)
    ensures r.Value? ==> r.value.upcoming + r.value.completed + Undated(data.items, loc) == r.value.total
  {
    match data
    case Array(xs) =>
      CountsPartition(xs, now, loc);
      Value(Stats(|xs|, Upcoming(xs, now, loc), Completed(xs, now, loc)))
    case Object(_) => Throws(TypeError)
  }

  /** The dashboard's base URL: the configured one or `http://localhost:4000`. */
  function ApiBase(env: Option<string>): string {
    OrElse(env, "http://localhost:4000")
  }

  /** The component's state: the list it last received and the loading flag. */
  class AdminDashboard {
    var data: Body
    var loading: bool

    constructor()
      ensures data == Array([]) && !loading
    {
      data := Array([]);
      loading := false;
    }

    /** The start of `fetchSessions`: the flag goes up and the collection is
        requested, without authentication. */
    method BeginFetch(env: Option<string>) returns (req: HttpRequest)
      modifies this`loading
      ensures loading
      ensures req == HttpRequest("GET", ApiBase(env) + "/api/sessions", map[], None)
    {
      loading := true;
      req := HttpRequest("GET", ApiBase(env) + "/api/sessions", map[], None);
    }

    /** The end of `fetchSessions`: whatever body parsed, array or not and ok
        or not, becomes the local list and is passed to `onSessionsUpdate`;
        a rejected fetch or body changes nothing. The flag always comes down. */
    method FinishFetch(resp: Response) returns (forwarded: Option<Body>)
      modifies this`data, this`loading
      ensures !loading
      ensures forwarded == if resp.Received? then resp.body else None
      ensures data == if forwarded.Some? then forwarded.value else old(data)
    {
      forwarded := None;
      if resp.Received? && resp.body.Some? {
        data := resp.body.value;
        forwarded := resp.body;
      }
      loading := false;
    }
  }
}
