# Training-session calendar front-end: a verified model

This project is a Dafny model of the logic in a React front-end for a
training-session calendar. The front-end has a public calendar of sessions and
a login-gated admin area that creates, reads, updates and deletes session
records through a remote HTTP API. Most of the code is UI. The model keeps the
parts with stated behaviour:

- **Calendar binning** (`calendar.dfy`, from `CalendarView.tsx`). It picks the
  sessions whose local `yyyy-MM-dd` day key equals the selected day's. It also
  has the existence test that highlights days, and the fields each card
  derives: the topic colour, the start/end window, the trainer label and the
  meeting link.
- **Edit form** (`form.dfy`, from `SessionForm.tsx`). It covers the prefill
  that turns a fetched record into form fields, the choice between update and
  create on submit, and the reset after a submit.
- **Session cache and auth state** (`store.dfy`, from `App.tsx`). The app
  state is a class with `sessions`, `token`, `editingSession` and the browser
  storage map. Each handler is a method that takes the server's answer as a
  parameter and returns the request it sends. `ProtectedRoute` is a pure
  guard.
- **Dashboard** (`dashboard.dfy`, from `AdminDashboard.tsx`). It holds the
  dashboard's own list and its loading flag, plus the total, upcoming and
  completed counters.
- **Table and dialog** (`table.dfy` and `modal.dfy`, from `SessionTable.tsx`
  and `SessionModal.tsx`). These cover the badge classes, the row list, the
  edit click, the delete confirmation and the dialog's null guard.
- **Request helper** (`api.dfy`, from `src/lib/api.ts`). It covers the URL,
  the headers, the body and how the error message is chosen.

`js.dfy` holds the JavaScript semantics the code relies on:

- optional values (`undefined`);
- `||` and `??`;
- template strings, where `undefined` prints as `"undefined"`;
- thrown errors.

The `Locale` record stands in for the time-zone-dependent `Date` API: parsing
(`new Date(text)`), `format(d, "yyyy-MM-dd")`, `format(d, "hh:mm a")`,
`toLocaleTimeString` and `toISOString`. Every operation that needs them takes a
`Locale` as a parameter. Instants are integer milliseconds. `types.dfy`
declares the `Session` record and the shapes a session endpoint can answer in.

`Session` carries both `id` and `_id`. The declared interface
(`src/types.ts:3`) names `id`, and `App.tsx` reads it (lines 132 and 162). The
table, the calendar and the edit form read `_id` (`SessionTable.tsx:82,122,151`,
`CalendarView.tsx:94`, `SessionForm.tsx:75`). The model keeps both, so each
operation shows which one it reads. Two lemmas follow from this:

- `Store.FormUpdateTargetsUndefined`: an update submitted from the form sets
  only `_id`, so `handleUpdateSession` sends it to `…/api/sessions/undefined`.
- `Store.TableEditRefetchesById`: the edit button fetches by `_id`, and the app
  then fetches again by the result's `id`.

Some behaviours of the code are easy to misread. The model keeps each one as
written:

- **Invalid date on submit.** An unparseable date/time on submit does not
  silently become an Invalid Date. `toISOString` throws, so neither callback
  runs and the form is not reset (`Form.SubmitResult`,
  `Form.SessionForm.HandleSubmit`).
- **Topic of a new session.** A new session's topic does not default to `SOC`.
  The blank form's topic is `""`, and only the edit prefill defaults it to
  `SOC`.
- **Prefill date.** The prefill date is not converted to the local calendar
  date. The code cuts the stored ISO string at its first `T`, which is the UTC
  date, so the edit round trip holds only under the condition stated in
  `Form.EditRoundTrip`. The prefill time is `toLocaleTimeString` text, which
  follows the viewer's locale: in a locale with a 12-hour clock it reads like
  "09:05 AM", which a time input cannot hold and which the submit then
  combines with the date, so the round-trip condition fails there.
- **Bearer header with an empty token.** `App.tsx` always sends
  `"Bearer " + token`, even for an empty token. Only `api.ts` leaves the header
  out for an empty token (`Api.BuildRequest`).
- **Writes to the cached list.** Every `App.tsx` handler replaces the cached
  list only with an array, which keeps `Store.App.ListIsArray`. But the
  dashboard passes whatever body it parsed to `onSessionsUpdate`, which is
  `setSessions` itself (`Store.App.OnSessionsUpdate`). An object body stored
  this way, such as the error body of a failed fetch, makes the calendar's
  `filter` and `some` and the table's `map` throw a TypeError
  (`Calendar.SelectedDateSessions`, `Calendar.DayHighlighted`, `Table.Rows`).

## Model

| member | source | states |
|---|---|---|
| `Calendar.SessionsForDate` | src/components/CalendarView.tsx:16-22 | succeeds iff every session's date parses (a RangeError otherwise); when it succeeds, every session it keeps is on the selected day and every session on that day is kept as often as it occurs in the list |
| `Calendar.SessionsForDateInOrder` | src/components/CalendarView.tsx:16-22 | the kept sessions are a subsequence of the collection, in the collection's order |
| `Calendar.SelectedDateSessions` | src/components/CalendarView.tsx:16-26 | with no selected date the list is empty; otherwise a cached value that is not an array throws a TypeError, and an array gives the day's filter |
| `Calendar.DayHighlighted` | src/components/CalendarView.tsx:28-34 | a cached value that is not an array throws a TypeError; an array gives the existence test for the day |
| `Calendar.HasSessionsOnDate` | src/components/CalendarView.tsx:28-34 | true iff some session is on the day and every session before it has a parseable date; false iff every date parses and none is on the day; throws (RangeError) iff some session has an unparseable date and no session before it is on the day |
| `Calendar.TailShiftMatch` | src/components/CalendarView.tsx:28-34 | past a first session that is dated and not on the day, a first match with only dated sessions before it exists in the list iff one exists in the rest |
| `Calendar.TailShiftNone` | src/components/CalendarView.tsx:28-34 | past such a first session, "all dated and none on the day" holds for the list iff it holds for the rest |
| `Calendar.TailShiftThrow` | src/components/CalendarView.tsx:28-34 | past such a first session, an unparseable date with no match before it exists in the list iff one exists in the rest |
| `Calendar.HighlightAgreesWithList` | src/components/CalendarView.tsx:16-34 | whenever the filter succeeds, the existence test succeeds and equals "the list is non-empty"; a day reported empty has the empty list |
| `Calendar.HighlightCanOutrunList` | src/components/CalendarView.tsx:28-34 | `some` stops at the first match: a match before an unparseable date highlights the day while the filter throws |
| `Calendar.TopicColor` | src/components/CalendarView.tsx:36-47 | blue iff the lower-cased topic is "soc", green iff "grc", orange iff "threat intel", grey for every other topic |
| `Calendar.TopicColorIgnoresCase` | src/components/CalendarView.tsx:37 | topics equal up to letter case get the same class |
| `Calendar.SocInAnyCaseIsBlue` | src/components/CalendarView.tsx:38-39 | "SOC", "soc" and "Soc" all give the blue class |
| `Calendar.GrcIsGreen` | src/components/CalendarView.tsx:40-41 | "grc" and "GRC" give the green class |
| `Calendar.ThreatIntelIsOrange` | src/components/CalendarView.tsx:42-43 | "threat intel" and "Threat Intel" give the orange class |
| `Calendar.UnknownTopicIsGray` | src/components/CalendarView.tsx:44-45 | an unknown topic and the empty topic give the grey class |
| `Calendar.Badge` | src/components/CalendarView.tsx:105 | a card's badge throws a TypeError iff the topic is missing, else it is the topic's colour |
| `Calendar.DisplayWindow` | src/components/CalendarView.tsx:49-52 | defined iff the date parses; the window starts at the session's instant and lasts 60 minutes for a missing or zero duration, else the duration, in milliseconds, with no same-day check; the end is an Invalid Date exactly when it falls outside the ±8.64e15 ms range of `Date` |
| `Calendar.SessionTime` | src/components/CalendarView.tsx:49-53 | throws a RangeError iff the date does not parse or the end falls outside the range of `Date`; otherwise the label is the start and end clock times joined by " - " |
| `Calendar.HugeDurationThrows` | src/components/CalendarView.tsx:49-53 | a start after 1970 with a stored duration of 200 billion minutes makes the card's time label throw a RangeError |
| `Calendar.OrdinarySessionHasLabel` | src/components/CalendarView.tsx:49-53 | a start between 1970 and near the end of the `Date` range, with a duration of at most 10,000 minutes or none, always gets a label |
| `Calendar.TrainerLabel` | src/components/CalendarView.tsx:114 | the trainer when present and non-empty, otherwise "TBD"; never empty |
| `Calendar.ShowsMeetingLink` | src/components/CalendarView.tsx:116 | the link is shown iff the meeting link is present and non-empty |
| `Form.DatePart` | src/components/SessionForm.tsx:46 | the result is a prefix of the stored date with no "T" in it, stopping exactly at the first "T" if there is one |
| `Form.Prefill` | src/components/SessionForm.tsx:42-60 | title, description, meeting link and trainer copied when truthy, else ""; date is the text before "T", or "" (with time "") for a missing date; time is the locale's hour-and-minute text of the parsed date (12-hour with AM/PM in some locales), or "Invalid Date" when it does not parse; topic is the stored topic or "SOC" and never empty; duration is kept when present (0 included), else 60 |
| `Form.PrefillKeepsZeroDuration` | src/components/SessionForm.tsx:57 | a stored 0-minute duration stays 0 in the form, while the calendar's `||` turns it into 60 |
| `Form.Payload` | src/components/SessionForm.tsx:68-71 | the payload is the form's fields with only the date replaced by the ISO text of the combined instant; it carries neither `id` nor `_id` |
| `Form.SubmitResult` | src/components/SessionForm.tsx:62-81 | throws (RangeError) iff the combined date-time does not parse; otherwise exactly one callback is chosen: update iff both an edit session and an update callback exist, with the edit session's `_id` added, else create; no `id` is ever set |
| `Form.EditRoundTrip` | src/components/SessionForm.tsx:44-75 | if the stored date's text before "T" plus the locale's time text parses back to the stored instant, then submitting the untouched prefill updates the same `_id` with that instant, and the record sent is the prefilled fields with that date |
| `Form.SessionForm.constructor` | src/components/SessionForm.tsx:30-39 | the form starts blank: empty strings, topic "", duration 60 |
| `Form.SessionForm.PrefillFrom` | src/components/SessionForm.tsx:42-60 | with an edit session the form becomes its prefill; without one it is unchanged |
| `Form.SessionForm.HandleSubmit` | src/components/SessionForm.tsx:62-94 | returns the submit's choice; after a submit that reached a callback the form equals the blank record; a throwing submit leaves it unchanged |
| `Table.BadgeClass` | src/components/SessionTable.tsx:94-100 | blue iff the topic is exactly "SOC", green iff exactly "GRC", orange for everything else; case-sensitive, with no grey |
| `Table.BadgeAgainstCalendar` | src/components/SessionTable.tsx:94-100 | the table's class string never equals the calendar's; their colour families agree iff the topic is exactly "SOC", exactly "GRC", or lower-cases to "threat intel" ("soc" is orange in the table but blue on the calendar, an unknown topic orange but grey) |
| `Table.Rows` | src/components/SessionTable.tsx:74-81 | an empty list gives one placeholder row spanning 6 columns; a non-empty one gives one row per session, in order; a cached value that is not an array fails the length test and throws a TypeError at `map` |
| `Table.HandleEditClick` | src/components/SessionTable.tsx:41-55 | GET of the row's `_id` with the bearer header; `onEdit` is called iff the response is ok and its body parses, with the fetched record |
| `Table.ConfirmDelete` | src/components/SessionTable.tsx:150-152 | `onDelete` receives the row's `_id` |
| `Modal.TopicColor` | src/components/SessionModal.tsx:23-34 | grey exactly for topics that do not lower-case to "soc", "grc" or "threat intel" |
| `Modal.TopicColorMatchesCalendar` | src/components/SessionModal.tsx:23-34 | the dialog's colour map equals the calendar's for every topic |
| `Modal.Render` | src/components/SessionModal.tsx:21 | a null session renders nothing; a session without a topic throws; otherwise it shows the session with the calendar's colour for its topic |
| `Dashboard.Upcoming` | src/components/AdminDashboard.tsx:43-45 | a one-session list counts 1 iff its date parses to now or later; the count is 0 iff no session is upcoming and the list length iff every one is; never more than the list |
| `Dashboard.UpcomingAppend` | src/components/AdminDashboard.tsx:43-45 | the upcoming count of a concatenation is the sum of the counts, so with the one-session case it counts exactly the sessions dated at or after now |
| `Dashboard.Completed` | src/components/AdminDashboard.tsx:46-48 | a one-session list counts 1 iff its date parses to before now; the count is 0 iff no session is completed and the list length iff every one is; never more than the list |
| `Dashboard.CompletedAppend` | src/components/AdminDashboard.tsx:46-48 | the completed count of a concatenation is the sum of the counts |
| `Dashboard.Undated` | src/components/AdminDashboard.tsx:43-48 | counts the sessions whose date does not parse, which neither filter keeps; zero iff every date parses |
| `Dashboard.CountsPartition` | src/components/AdminDashboard.tsx:42-48 | upcoming + completed + unparseable = total: each session falls in exactly one class |
| `Dashboard.CountsSumToTotal` | src/components/AdminDashboard.tsx:43-48 | when every date parses, upcoming + completed equals the list length |
| `Dashboard.SessionAtOrAfterNowIsUpcoming` | src/components/AdminDashboard.tsx:44-47 | appending a session dated at or after now, exactly now included, adds one to the upcoming count and nothing to the completed one |
| `Dashboard.SessionBeforeNowIsCompleted` | src/components/AdminDashboard.tsx:44-47 | appending a session dated before now adds one to the completed count and nothing to the upcoming one |
| `Dashboard.StatsOf` | src/components/AdminDashboard.tsx:41-53 | the counters exist iff the stored data is an array (TypeError otherwise); the total is its length, the upcoming and completed cards are `Upcoming` and `Completed` of the list, and the unparseable dates are in neither counter |
| `Dashboard.AdminDashboard.constructor` | src/components/AdminDashboard.tsx:16-17 | starts with an empty list and not loading |
| `Dashboard.AdminDashboard.BeginFetch` | src/components/AdminDashboard.tsx:20-25 | the loading flag is up while the unauthenticated collection request is out |
| `Dashboard.AdminDashboard.FinishFetch` | src/components/AdminDashboard.tsx:26-34 | any parsed body, with no array or status check, becomes the local list and is the value passed to `onSessionsUpdate`; a failed fetch changes nothing; loading ends false whatever the outcome |
| `Store.ProtectedRoute` | src/App.tsx:24-30 | the admin pages render iff the token is non-empty; otherwise the user is sent to /login |
| `Store.SessionUrl` | src/App.tsx:132 | the base (or "undefined") + "/api/sessions/" + the id; a missing id makes the URL end in "/api/sessions/undefined" |
| `Store.Refreshed` | src/App.tsx:114-123 | the list becomes the body iff the body parsed to an array, whatever the status; otherwise it is unchanged; an array stays an array |
| `Store.App.constructor` | src/App.tsx:268-271 | empty list, no edit session, token = stored "adminToken" value or "" |
| `Store.App.FetchSessions` | src/App.tsx:114-123 | unauthenticated GET of the collection; the list after is `Refreshed` of the list before; keeps the list an array |
| `Store.App.HandleEdit` | src/App.tsx:130-143 | GET by the session's `id` with "Bearer " + token; the edit session is set only on an ok, parsed response, else unchanged |
| `Store.App.AfterMutation` | src/App.tsx:154-158 | a refetch is issued iff the mutation's response is ok; on a non-ok or failed response the list is unchanged |
| `Store.App.HandleAddSession` | src/App.tsx:145-159 | POST of the draft with the JSON and bearer headers; refetch iff ok; the list changes only through the refetch, and after an ok mutation whose refetch parses to an array it is exactly that array: the draft is never patched in |
| `Store.App.HandleUpdateSession` | src/App.tsx:161-176 | PUT to the record's `id`; refetch iff ok; the list changes only through the refetch, and after an ok refetch of an array it is exactly that array |
| `Store.App.HandleDeleteSession` | src/App.tsx:178-187 | DELETE of the given id (the table passes the row's `_id`) with the bearer header; refetch iff ok; the list changes only through the refetch, and after an ok refetch of an array it is exactly that array |
| `Store.App.HandleLogin` | src/App.tsx:189-193 | stores the token under "adminToken" and holds it; the admin routes then render iff that token is non-empty |
| `Store.App.HandleLogout` | src/App.tsx:195-199 | removes "adminToken" from storage and holds ""; the admin routes then redirect |
| `Store.App.OnSessionsUpdate` | src/App.tsx:217 | the dashboard's callback replaces the list with any body, without the array check |
| `Store.FormUpdateTargetsUndefined` | src/App.tsx:161-162 | every update from the form carries no `id`, so its PUT URL ends in "/api/sessions/undefined" |
| `Store.TableEditRefetchesById` | src/components/SessionTable.tsx:41-49 | the table fetches by the row's `_id` and then the app fetches the result again by its `id` |
| `Api.BaseUrl` | src/lib/api.ts:2 | the configured base when set and non-empty, otherwise "http://localhost:4000/api" |
| `Api.BuildRequest` | src/lib/api.ts:4-19 | URL = base + endpoint; method defaults to GET; Content-Type is always "application/json"; Authorization is present iff the token is non-empty, as "Bearer " + token; no other header; the body is sent iff truthy |
| `Api.Settle` | src/lib/api.ts:21-23 | an ok response resolves to its data; a non-ok one rejects with `data.error` when truthy, else "Request failed", and a non-ok `null` body rejects with the TypeError of reading `null.error`; a failed fetch or an unparseable body rejects |
| `Api.DefaultErrorMessage` | src/lib/api.ts:22 | a failed response whose body has no truthy `error` reports "Request failed" |

## Left out

- Network I/O, `res.json()` and `JSON.stringify` are not modelled. Responses are parameters: `Response` and `Reply` say whether the call was rejected, what the status flag was and whether the body parsed. Requests are returned as values.
- Time zones and locale formatting are not modelled. `new Date(text)`, date-fns `format`, `toLocaleTimeString` and `toISOString` are fields of the `Locale` parameter, so every property holds for any time zone and any parser. `new Date(null)` (the epoch) is not distinguished from `new Date(undefined)`.
- JSON bodies of the session endpoints that are neither an array nor an object (`null`, numbers, strings) are not modelled. An array read as a record has none of the session keys (`Types.AsRecord`).
- Durations are integers. `NaN` and fractional minutes are not modelled.
- `Lower` maps only the ASCII letters. This is exact for the three labels compared against: no other character lower-cases to one of their letters.
- Toasts, navigation (`navigate`, `Navigate`, `Routes`), React rendering and effects are not modelled. Only the state changes and the values passed on are kept.
- Send-notification (`SessionTable.tsx:36-38`) and add-reminder (`SessionModal.tsx:36-38`) are not modelled as operations. Each only shows a toast: it sends no request, touches no state and calls no callback, so there is nothing for the model to hold.
- Async interleaving is not modelled. Each handler is one atomic step, so out-of-order refetches (last write wins) and the unhandled rejection of a mutation whose `fetch` fails are not represented. For that last case the model keeps the state unchanged, as the code does.
- The dashboard's table cells and the admin table's date/time cells are left out: they are display formatting only.
- `src/components/AdminLogin.tsx` (the credential POST), `AdminSidebar.tsx`, `Navbar.tsx`, `Hero.tsx`, `Footer.tsx`, `src/hooks/usersessions.ts` and `src/lib/auth.ts` are not part of this model. `App.tsx` does not use `auth.ts`'s storage key.
- Modal.TopicColor: its own contract states only the grey case. The full equality with the calendar's map is `Modal.TopicColorMatchesCalendar`.
