/** Nullable values as the client sees them, and JavaScript's `||` on them. */
module Nullable {

  datatype Option<+T> = None | Some(value: T)

  /** `x || fallback` for a string that may be null: null and the empty
      string are both falsy, so both give way to the fallback. */
  function OrElse(x: Option<string>, fallback: string): (r: string)
    ensures x.Some? && x.value != "" ==> r == x.value
    ensures x.None? || x.value == "" ==> r == fallback
  {
    if x.Some? && x.value != "" then x.value else fallback
  }
}
