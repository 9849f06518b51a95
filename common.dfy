/** Values and library behaviour that every part of the resume wizard shares:
    optional values, JavaScript truthiness of optional strings, dates, the
    date and format checks of the libraries the forms call, and `Array.map`. */
module Common {

  datatype Option<+T> = None | Some(value: T)

  /** JavaScript truthiness of an optional string field: `undefined` and `''`
      are falsy, every other string is truthy. */
  predicate Truthy(s: Option<string>)
  {
    s.Some? && s.value != ""
  }

  /** A JavaScript `Date`: an instant, in milliseconds since the epoch. */
  datatype Date = Date(millis: int)

  /** The date conversions the forms use. They are library behaviour (time
      zones, locales), so the model takes them as parameters:
      `parse` is `new Date(s)`, `isoDay` is `d.toISOString().split('T')[0]`,
      `isoString` is `d.toISOString()`. */
  datatype DateLib = DateLib(parse: string -> Date, isoDay: Date -> string, isoString: Date -> string)

  /** A stored date survives being shown in a date input and read back. */
  predicate DayRoundTrips(lib: DateLib, d: Date)
  {
    lib.isoDay(d) != "" && lib.parse(lib.isoDay(d)) == d
  }

  /** A stored date survives being rendered as a full ISO string and read back. */
  predicate IsoRoundTrips(lib: DateLib, d: Date)
  {
    lib.parse(lib.isoString(d)) == d
  }

  /** The format checks of the schema library (`z.string().email()` and
      `z.string().url()`), taken as parameters. */
  datatype FormatChecks = FormatChecks(isEmail: string -> bool, isUrl: string -> bool)

  /** `xs.map(f)`: one result per element, in order. */
  function Map<A, B>(f: A -> B, xs: seq<A>): (r: seq<B>)
    ensures |r| == |xs|
    ensures forall i :: 0 <= i < |xs| ==> r[i] == f(xs[i])
  {
    if xs == [] then [] else [f(xs[0])] + Map(f, xs[1..])
  }

  /** `c.toLowerCase()` for the characters that occur in the level names. */
  function LowerChar(c: char): char
  {
    if 'A' <= c <= 'Z' then (c as int + 32) as char else c
  }

  /** `s.toLowerCase()` over ASCII: upper-case letters become lower case,
      every other character is kept, and the length does not change. */
  function ToLower(s: string): (r: string)
    ensures |r| == |s|
    ensures forall i :: 0 <= i < |s| ==> r[i] == LowerChar(s[i])
    ensures forall i :: 0 <= i < |r| ==> !('A' <= r[i] <= 'Z')
  {
    if s == [] then [] else [LowerChar(s[0])] + ToLower(s[1..])
  }
}
