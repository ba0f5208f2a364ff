/** Value types shared by every part of the worker model. */
module Common {

  /** A value that may be absent (`undefined` or `null` in the worker). */
  datatype Option<+T> = None | Some(value: T)
  {
    function GetOr(default: T): T
    {
      match this
      case Some(v) => v
      case None => default
    }
  }

  /** An awaited call that either yields a value or throws an Error with `message`. */
  datatype Result<+T> = Ok(value: T) | Err(message: string)

  /** An awaited call without a value: it returns, or throws an Error with `message`. */
  datatype Outcome = Done | Threw(message: string)

  /** A string is truthy in JavaScript exactly when it is not empty. */
  predicate Truthy(s: string)
  {
    s != ""
  }

  /** An optional string used in a JavaScript truthiness test (`if (!x)`, `x || ""`). */
  predicate TruthyOpt(s: Option<string>)
  {
    s.Some? && s.value != ""
  }

  function Digit(d: nat): char
    requires d < 10
  {
    "0123456789"[d]
  }

  /** The decimal text of a natural number, as a template literal renders it. */
  function NatToString(n: nat): string
  {
    if n < 10 then [Digit(n)] else NatToString(n / 10) + [Digit(n % 10)]
  }
}
