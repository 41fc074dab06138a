/**
 * JavaScript truthiness for the string-valued JSON fields the system passes
 * around. A field is either missing (`undefined` or `null`) or a string, and
 * only the non-empty string is truthy.
 */
module JsValues {
  import opened Wrappers

  /** A string-valued field of a JSON object that may be missing. */
  type Field = Option<string>

  /** `!!f` for a field: false for a missing field and for "". */
  predicate Truthy(f: Field) {
    f.Some? && f.value != ""
  }

  /**
   * `a || b` for two fields: `a` when it is truthy, otherwise `b`; the
   * result is truthy exactly when one of the two is.
   */
  function Or(a: Field, b: Field): (r: Field)
    ensures Truthy(a) ==> r == a
    ensures !Truthy(a) ==> r == b
    ensures Truthy(r) <==> Truthy(a) || Truthy(b)
  {
    if Truthy(a) then a else b
  }

  /** `a || d` where the default `d` is a string literal. */
  function OrElse(a: Field, d: string): (r: string)
    ensures Truthy(a) ==> r == a.value
    ensures !Truthy(a) ==> r == d
    ensures d != "" ==> r != ""
  {
    if Truthy(a) then a.value else d
  }
}
