/** JavaScript truthiness for the field values the model handles: a missing
    field, `null`, `""` and `0` are falsy. */
module JsValues {
  import opened Wrappers

  /** `s` is truthy: present and not the empty string. */
  predicate Truthy(s: Option<string>) {
    s.Some? && s.value != ""
  }

  /** `s || fallback` for a string-valued field: a non-empty fallback makes
      the result non-empty, whatever the field holds. */
  function OrElse(s: Option<string>, fallback: string): (r: string)
    ensures Truthy(s) ==> r == s.value
    ensures !Truthy(s) ==> r == fallback
    ensures fallback != "" ==> r != ""
  {
    if Truthy(s) then s.value else fallback
  }

  /** `n || 0` for a number-valued field (`0 || 0` is `0` as well). */
  function OrZero(n: Option<int>): (r: int)
    ensures n.Some? ==> r == n.value
    ensures n.None? ==> r == 0
  {
    n.GetOr(0)
  }
}
