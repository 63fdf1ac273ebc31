/**
 * The three checks of Apache Commons Lang's `Validate` called by the
 * `CgMinerResponse` and `YmlConfiguration` constructors.
 */
module Validate {
  import opened Wrappers
  import opened JavaLang

  /** `Validate.notNull(object, message)`: throws `NullPointerException` on null. */
  function NotNull<T>(value: Option<T>, message: string): (r: Outcome<Exception>)
    ensures r.Pass? <==> value.Some?
    ensures r.Fail? ==> r.error == NullPointer(message)
  {
    if value.None? then Fail(NullPointer(message)) else Pass
  }

  /**
   * `Validate.notEmpty(chars, message)`: throws `NullPointerException` on null
   * and `IllegalArgumentException` on the empty string.
   */
  function NotEmpty(chars: Option<string>, message: string): (r: Outcome<Exception>)
    ensures r.Pass? <==> chars.Some? && chars.value != []
    ensures r.Fail? ==> r.error == (if chars.None? then NullPointer(message) else IllegalArgument(message))
  {
    match chars
    case None => Fail(NullPointer(message))
    case Some(s) => if |s| == 0 then Fail(IllegalArgument(message)) else Pass
  }

  /**
   * `Validate.inclusiveBetween(start, end, value, message)` on `long`s: throws
   * `IllegalArgumentException` unless `start <= value <= end`.
   */
  function InclusiveBetween(start: Long, end: Long, value: Long, message: string): (r: Outcome<Exception>)
    ensures r.Pass? <==> start <= value <= end
    ensures r.Fail? ==> r.error == IllegalArgument(message)
  {
    if value < start || value > end then Fail(IllegalArgument(message)) else Pass
  }
}
