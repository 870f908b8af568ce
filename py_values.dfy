/** Python's dynamic values, as far as the shape factories look at them:
    `None`, a `bool`, or a number. Python's `bool` is a subclass of `int`,
    so `True` behaves as 1 and `False` as 0 in arithmetic, but the identity
    test `v is False` holds only of the boolean singleton. */
module PyValues {

  datatype PyVal = PyNone | PyBool(b: bool) | PyNum(n: real)

  /** Python truthiness: `None`, `False` and numeric zero are falsy. */
  predicate Truthy(v: PyVal)
    ensures Truthy(v) <==> v != PyNone && v != PyBool(false) && v != PyNum(0.0)
  {
    match v
    case PyNone => false
    case PyBool(b) => b
    case PyNum(n) => n != 0.0
  }

  /** The number Python arithmetic sees in `v` (`True` is 1, `False` is 0). */
  function NumericValue(v: PyVal): real
    requires !v.PyNone?
  {
    match v
    case PyBool(b) => if b then 1.0 else 0.0
    case PyNum(n) => n
  }
}
