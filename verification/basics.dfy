/** Small value types shared by every module: optional values, thrown JavaScript values,
    and the `||` defaulting idiom the gateway uses for options and reply fields. */
module Basics {

  /** An optional value; `None` stands for JavaScript's `undefined`. */
  datatype Option<+T> = None | Some(value: T) {

    /** The value, or `default` when absent (`x ?? default` on a non-null value). */
    function GetOr(default: T): T {
      match this
      case Some(v) => v
      case None => default
    }
  }

  /** A value thrown by JavaScript code: an `Error` carries its message, anything else is opaque. */
  datatype Thrown = ErrorValue(message: string) | OtherValue

  /** The outcome of calling code that may throw. */
  datatype Call<+T> = Returned(value: T) | Threw(thrown: Thrown)

  const UnknownError := "Unknown error"

  /** `error instanceof Error ? error.message : "Unknown error"` */
  function MessageOf(e: Thrown): (m: string)
    ensures e.ErrorValue? ==> m == e.message
    ensures e.OtherValue? ==> m == UnknownError
  {
    match e
    case ErrorValue(msg) => msg
    case OtherValue => UnknownError
  }

  /** `v || d` for a string-valued option: `undefined` and `""` both fall back to `d`. */
  function StringOr(v: Option<string>, d: string): (r: string)
    ensures v.Some? && v.value != "" ==> r == v.value
    ensures v.None? || v.value == "" ==> r == d
    ensures d != "" ==> r != ""
  {
    if v.Some? && v.value != "" then v.value else d
  }

  /** `v || d` for a number-valued option: `undefined` and `0` both fall back to `d`. */
  function NumberOr(v: Option<int>, d: int): (r: int)
    ensures v.Some? && v.value != 0 ==> r == v.value
    ensures v.None? || v.value == 0 ==> r == d
    ensures d != 0 ==> r != 0
  {
    if v.Some? && v.value != 0 then v.value else d
  }
}
