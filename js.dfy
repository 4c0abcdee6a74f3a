/**
 * The few JavaScript value semantics the core depends on: numbers that may be
 * NaN (an undefined field used in arithmetic becomes NaN), and the truthiness
 * test that `if (!x)` and `x || y` apply to request fields.
 */
module Js {

  import opened Wrappers

  /** A JavaScript number: NaN, or a finite value (kept exact as a `real`). */
  datatype Number = NaN | Num(v: real)

  /** `a + b`; `undefined + x` and `NaN + x` are NaN. */
  function Add(a: Number, b: Number): (r: Number)
    ensures r.Num? <==> a.Num? && b.Num?
    ensures r.Num? ==> r.v == a.v + b.v
  {
    if a.Num? && b.Num? then Num(a.v + b.v) else NaN
  }

  /** `a - b`. */
  function Sub(a: Number, b: Number): (r: Number)
    ensures r.Num? <==> a.Num? && b.Num?
    ensures r.Num? ==> r.v == a.v - b.v
  {
    if a.Num? && b.Num? then Num(a.v - b.v) else NaN
  }

  /** `a / n` for a positive count `n`. */
  function DivCount(a: Number, n: nat): (r: Number)
    requires n > 0
    ensures r.Num? <==> a.Num?
    ensures r.Num? ==> r.v * (n as real) == a.v
  {
    if a.Num? then Num(a.v / n as real) else NaN
  }

  /** `Math.abs(a)`. */
  function Abs(a: Number): (r: Number)
    ensures r.Num? <==> a.Num?
    ensures r.Num? ==> r.v >= 0.0 && (r.v == a.v || r.v == -a.v)
  {
    if a.Num? then Num(if a.v < 0.0 then -a.v else a.v) else NaN
  }

  /** A value read from a JSON request body (`undefined` when the field is absent). */
  datatype Value =
    | Undefined
    | Null
    | Boolean(b: bool)
    | Numeric(n: Number)
    | Text(s: string)
    | Composite  // an object or an array

  /** JavaScript truthiness: `false`, `0`, `NaN`, `""`, `null` and `undefined` are falsy. */
  predicate Truthy(x: Value) {
    match x
    case Undefined => false
    case Null => false
    case Boolean(b) => b
    case Numeric(n) => n.Num? && n.v != 0.0
    case Text(s) => s != ""
    case Composite => true
  }

  /** Truthiness of an optional numeric field such as `timeframe?.from`. */
  predicate TruthyInt(x: Option<int>) {
    x.Some? && x.value != 0
  }
}
