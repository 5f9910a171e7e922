/**
 * The JavaScript semantics the components rely on when they test a value with `!x`,
 * compare a form value with a number, or compare two `Date` objects.
 */
module Js {
  import opened Wrappers
  import Text

  /** `!!id` for a record id: an absent id and the number 0 are both falsy. */
  predicate HasId(id: Option<int>) {
    id.Some? && id.value != 0
  }

  /** A form value that is either text the user typed or a number loaded from the API. */
  datatype Value = Str(s: string) | Num(n: real)

  /** `!!v`: the empty string and the number 0 are falsy. */
  predicate Truthy(v: Value) {
    match v
    case Str(s) => s != ""
    case Num(n) => n != 0.0
  }

  /** `Number(v)`, the conversion `v < 0` and `v > 100` apply; None stands for NaN. */
  function ToNumber(v: Value): Option<real> {
    match v
    case Num(n) => Some(n)
    case Str(s) => Text.DecimalValue(s)
  }

  /** A `Date` object: an invalid date, or a time value on an abstract time line. */
  datatype Instant = Invalid | At(t: int)

  /** `a < b` on dates; false when either is invalid, as every comparison with NaN is. */
  predicate Before(a: Instant, b: Instant) {
    a.At? && b.At? && a.t < b.t
  }

  /** `a <= b` on dates; false when either is invalid. */
  predicate NotAfter(a: Instant, b: Instant) {
    a.At? && b.At? && a.t <= b.t
  }
}
