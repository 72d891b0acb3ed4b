/** The parts of PHP's value semantics that the email class depends on. */
module Php {
  import opened Wrappers

  /**
   * PHP's truthiness of a string, as used by `if ($s)`, `!$s` and `empty($s)`:
   * the empty string and "0" are falsy, every other string is truthy.
   */
  predicate Truthy(s: string) {
    s != "" && s != "0"
  }

  /** Truthiness of a nullable string: `null` is falsy, a string is as `Truthy` says. */
  predicate Present(o: Option<string>) {
    o.Some? && Truthy(o.value)
  }

  /** PHP's `$a ?: $b` on nullable strings: `a` when it is truthy, otherwise `b`. */
  function Either(a: Option<string>, b: Option<string>): (r: Option<string>)
    ensures Present(a) ==> r == a
    ensures !Present(a) ==> r == b
    ensures Present(r) <==> Present(a) || Present(b)
  {
    if Present(a) then a else b
  }

  /** A value stored in a template context: PHP's scalars, null, and objects by identity. */
  datatype Value = Null | Bool(b: bool) | Int(i: int) | Str(s: string) | Object(id: nat)
}
