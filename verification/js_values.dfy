/** JavaScript values that may be missing, and the truthiness rules the pages
    rely on when they write `value || fallback`. */
module JsValues {

  /** A value that may be `undefined` or `null` (both are `None` here). */
  datatype Option<+T> = None | Some(value: T) {
    function GetOr(default: T): T {
      match this
      case Some(v) => v
      case None => default
    }
  }

  /** A string is falsy when it is missing or empty. */
  predicate IsFalsyString(v: Option<string>) {
    v.None? || v.value == ""
  }

  /** `v || fallback` for a string-valued field. */
  function StringOr(v: Option<string>, fallback: string): (r: string)
    ensures IsFalsyString(v) ==> r == fallback
    ensures !IsFalsyString(v) ==> r == v.value && r != ""
  {
    if v.Some? && v.value != "" then v.value else fallback
  }

  /** `v || fallback` for a number-valued field (NaN is not modelled). */
  function NumberOr(v: Option<int>, fallback: int): (r: int)
    ensures v.None? ==> r == fallback
    ensures v.Some? && v.value != 0 ==> r == v.value
    ensures v.Some? && v.value == 0 ==> r == fallback
  {
    if v.Some? && v.value != 0 then v.value else fallback
  }

  /** With fallback 0, a falsy number and a missing one both read as 0, so
      `v || 0` is the value itself when present. */
  lemma NumberOrZero(v: Option<int>)
    ensures NumberOr(v, 0) == v.GetOr(0)
  {
  }
}
