/** The few pieces of Python semantics the modelled code relies on. */
module Python {
  import opened Wrappers

  /** The exceptions the modelled code can raise on its own. */
  datatype Error =
    | ZeroDivisionError   // `x / 0` or `x % 0`
    | AttributeError      // reading an attribute that was never assigned, or a method of `None`

  /** Python's integer `%`: floored division, so the remainder takes the sign of the divisor. */
  function Mod(a: int, b: int): (r: int)
    requires b != 0
    ensures b > 0 ==> 0 <= r < b
    ensures b < 0 ==> b < r <= 0
    ensures r % b == a % b
  {
    var m := a % b;
    if b > 0 || m == 0 then m else m + b
  }

  /** Truthiness of an optional number: `None` and zero are falsy. */
  predicate Truthy<T(==)>(v: Option<T>, zero: T) {
    v.Some? && v.value != zero
  }

  /** Python's `v or default`: the value itself when truthy, otherwise the default. */
  function Or<T(==)>(v: Option<T>, zero: T, default: T): (r: T)
    ensures v == None ==> r == default
    ensures v == Some(zero) ==> r == default
    ensures v.Some? && v.value != zero ==> r == v.value
  {
    if Truthy(v, zero) then v.value else default
  }
}
