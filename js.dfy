/** JavaScript values as the page script sees them, reduced to what the
    script tests: optional text, optional numbers, and truthiness. */
module Js {

  /** A value that may be absent: `None` stands for `null` or `undefined`. */
  datatype Option<+T> = None | Some(value: T)

  /** JavaScript truthiness of an optional string: present and non-empty. */
  predicate TruthyText(o: Option<string>) {
    o.Some? && o.value != ""
  }

  /** JavaScript truthiness of an optional number read from JSON: present and
      non-zero (JSON has no NaN, and a real has no negative zero). */
  predicate TruthyNumber(o: Option<real>) {
    o.Some? && o.value != 0.0
  }

  /** The value of `a || b` on optional strings: `a` when it is truthy,
      otherwise `b`, whatever `b` is. */
  function Or(a: Option<string>, b: Option<string>): (r: Option<string>)
    ensures TruthyText(r) <==> TruthyText(a) || TruthyText(b)
    ensures TruthyText(a) ==> r == a
    ensures !TruthyText(a) ==> r == b
  {
    if TruthyText(a) then a else b
  }
}
