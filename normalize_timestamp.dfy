/**
 * `normalizeTimestamp`: turn a log entry's timestamp, whichever of its three
 * shapes it has, into ISO text. ISO formatting is not modelled: `IsoOf(ms)`
 * stands for `new Date(ms).toISOString()`.
 */
module Timestamps {
  import opened Common

  /** A log timestamp: a string, a `Date` (its milliseconds), or `{seconds, nanos}` with optional fields. */
  datatype Timestamp =
    | TsString(text: string)
    | TsDate(millis: int)
    | TsProto(seconds: Option<int>, nanos: Option<int>)

  /** The text `normalizeTimestamp` returns: a given string, or the ISO rendering of an instant. */
  datatype IsoText = Text(text: string) | IsoOf(millis: int)

  /** A numeric field used in a JavaScript truthiness test: present and non-zero. */
  predicate TruthyNum(x: Option<int>)
  {
    x.Some? && x.value != 0
  }

  function NormalizeTimestamp(ts: Timestamp): (r: IsoText)
    // a string is returned unchanged
    ensures ts.TsString? ==> r == Text(ts.text)
    // a Date keeps its instant
    ensures ts.TsDate? ==> r == IsoOf(ts.millis)
    // {seconds, nanos} with both non-zero: the instant, truncated to the millisecond
    ensures ts.TsProto? && TruthyNum(ts.seconds) && TruthyNum(ts.nanos) ==>
              && r.IsoOf?
              && r.millis * 1000000 <= ts.seconds.value * 1000000000 + ts.nanos.value
              && ts.seconds.value * 1000000000 + ts.nanos.value < (r.millis + 1) * 1000000
    // a zero or missing field gives the empty string
    ensures ts.TsProto? && !(TruthyNum(ts.seconds) && TruthyNum(ts.nanos)) ==> r == Text("")
  {
    match ts
    case TsString(text) => Text(text)
    case TsDate(millis) => IsoOf(millis)
    case TsProto(seconds, nanos) =>
      if TruthyNum(seconds) && TruthyNum(nanos) then
        // `nanos ?? 0` cannot fall back here: nanos is known to be present
        IsoOf(seconds.value * 1000 + Floor(nanos.value, 1000000))
      else Text("")
  }

  /** `Math.floor(n / d)` for a positive divisor. */
  function Floor(n: int, d: int): (q: int)
    requires d > 0
    ensures q * d <= n < q * d + d
  {
    n / d
  }
}
