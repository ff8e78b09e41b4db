/** The JavaScript value semantics the front-end leans on: values that may be
    `undefined`, the defaulting operators `||` and `??`, template strings,
    exceptions, and the locale-dependent parts of the `Date` API, which the
    model takes as a parameter instead of implementing. */
module Js {

  /** A value that may be `undefined` (a missing key of a JSON object). */
  datatype Option<+T> = None | Some(value: T)

  /** The errors the modelled expressions can throw. */
  datatype Error =
    | RangeError  // formatting or serialising an Invalid Date
    | TypeError   // reading a property of `undefined` or `null`

  /** The result of evaluating an expression that may throw. */
  datatype Outcome<+T> = Value(value: T) | Throws(error: Error)

  /** A string-valued property is falsy exactly when it is missing or empty. */
  predicate Truthy(s: Option<string>) {
    s.Some? && s.value != ""
  }

  /** `s || fallback` on an optional string. */
  function OrElse(s: Option<string>, fallback: string): string {
    if Truthy(s) then s.value else fallback
  }

  /** `n || fallback` on an optional number: `0` is falsy and is replaced too. */
  function NumberOr(n: Option<int>, fallback: int): int {
    if n.Some? && n.value != 0 then n.value else fallback
  }

  /** `n ?? fallback`: only a missing value is replaced; `0` is kept. */
  function NullishOr(n: Option<int>, fallback: int): int {
    if n.Some? then n.value else fallback
  }

  /** `${s}` in a template literal: `undefined` prints as the word itself. */
  function Template(s: Option<string>): string {
    if s.Some? then s.value else "undefined"
  }

  /** The viewer's locale and time zone. Instants are integer milliseconds
      since the epoch, as `Date.prototype.getTime` returns them. */
  datatype Locale = Locale(
    parse: string -> Option<int>,  // `new Date(text)`; None is an Invalid Date
    dayKey: int -> string,         // date-fns `format(d, "yyyy-MM-dd")`, local time
    clock12: int -> string,        // date-fns `format(d, "hh:mm a")`, local time
    timeText: int -> string,       // `toLocaleTimeString([], {hour, minute: "2-digit"})`:
                                   // the locale's hour and minute, 12-hour with AM/PM in some
    iso: int -> string             // `toISOString()`
  )

  /** The largest time value a `Date` holds: 100,000,000 days in
      milliseconds on either side of the epoch. */
  const MaxTime := 8_640_000_000_000_000

  /** `new Date(t)` for a time value `t`: beyond the range it is an Invalid
      Date (the TimeClip operation of the ECMAScript specification). */
  function TimeClip(t: int): (r: Option<int>)
    ensures r.Some? <==> -MaxTime <= t <= MaxTime
    ensures r.Some? ==> r.value == t
  {
    if -MaxTime <= t <= MaxTime then Some(t) else None
  }

  /** `new Date(value)` for a property that may be missing: `new Date(undefined)`
      is an Invalid Date. */
  function DateOf(loc: Locale, value: Option<string>): Option<int> {
    if value.Some? then loc.parse(value.value) else None
  }

  function LowerChar(c: char): char {
    if 'A' <= c <= 'Z' then (c as int + 32) as char else c
  }

  /** `String.prototype.toLowerCase`, on the ASCII letters. */
  function Lower(s: string): (r: string)
  {
    seq(|s|, i requires 0 <= i < |s| => LowerChar(s[i]))
  }
}
