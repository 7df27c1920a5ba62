/**
 * The parts of Python's built-ins and of its `math` module that the simulator's
 * arithmetic depends on, stated over exact reals and unbounded integers.
 */
module Builtins {

  /** The exceptions the modelled code can raise. */
  datatype Exception =
    | ZeroDivision      // ZeroDivisionError
    | IndexOutOfRange   // IndexError
    | EmptySequence     // ValueError raised by min() on an empty iterable

  /**
   * `math.exp` and `math.cos`, taken as given functions. Nothing is assumed of them
   * except what `Lawful` states.
   */
  datatype Transcendentals = Transcendentals(exp: real -> real, cos: real -> real) {
    ghost predicate Lawful() {
      && (forall x :: exp(x) > 0.0)
      && (forall x :: x <= 0.0 ==> exp(x) <= 1.0)
      && (forall x, y :: x <= y ==> exp(x) <= exp(y))
      && (forall x :: -1.0 <= cos(x) <= 1.0)
    }
  }

  /** `math.pi` as a double. */
  const Pi: real := 3.141592653589793

  /** `max(a, b)` on two numbers. */
  function Max(a: real, b: real): (r: real)
    ensures r >= a && r >= b && (r == a || r == b)
  {
    if b > a then b else a
  }

  /** `min(a, b)` on two numbers. */
  function Min(a: real, b: real): (r: real)
    ensures r <= a && r <= b && (r == a || r == b)
  {
    if b < a then b else a
  }

  /** The length of `range(n)`. */
  function RangeLength(n: int): (r: nat)
    ensures n >= 0 ==> r == n
    ensures n < 0 ==> r == 0
  {
    if n < 0 then 0 else n
  }

  /** `int(x)` on a float: truncation toward zero. */
  function Truncate(x: real): (n: int)
    ensures x >= 0.0 ==> 0 <= n && n as real <= x < n as real + 1.0
    ensures x < 0.0 ==> n <= 0 && n as real - 1.0 < x <= n as real
  {
    if x >= 0.0 then x.Floor else -((-x).Floor)
  }

  /** Python's `a % b`: the remainder takes the sign of the divisor. */
  function FloorMod(a: int, b: int): (r: int)
    requires b != 0
    ensures 0 < b ==> 0 <= r < b && r == a % b
    ensures b < 0 ==> b < r <= 0
  {
    if 0 < b || a % b == 0 then a % b else a % b + b
  }

  /** Whether `s[i]` is a valid Python subscript of a list of length `n`. */
  predicate IndexOk(i: int, n: int) {
    -n <= i < n
  }

  /** Python's `s[i]`, where a negative `i` counts from the end. */
  function Subscript<T>(s: seq<T>, i: int): (x: T)
    requires IndexOk(i, |s|)
    ensures 0 <= i ==> x == s[i]
    ensures i < 0 ==> x == s[|s| + i]
  {
    if 0 <= i then s[i] else s[|s| + i]
  }
}
