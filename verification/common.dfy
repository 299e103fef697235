/** The Option type used wherever the Go code returns a value together with an `ok` flag or a nil pointer. */
module Wrappers {
  datatype Option<+T> = None | Some(value: T)
}

/**
 * Integer semantics of Go that differ from Dafny's unbounded `int`.
 * Dafny's own `/` and `%` on `int` are Euclidean, so Go's truncating
 * operators are spelled out here and used wherever the source divides a
 * value that may be negative. A Go `int` that the source combines with
 * bitwise operators is modelled by its 64-bit two's-complement pattern,
 * a `bv64`, on which `|`, `&` and `-` wrap exactly as Go's do.
 */
module Arith {
  /** Go's `a / b` on integers: the quotient truncated toward zero. */
  function Quot(a: int, b: int): (q: int)
    requires b != 0
    ensures 0 <= a && 0 < b ==> q == a / b
  {
    if (a < 0) == (b < 0) then
      (if a < 0 then -a else a) / (if b < 0 then -b else b)
    else
      -((if a < 0 then -a else a) / (if b < 0 then -b else b))
  }

  /** Go's `a % b` on integers: the remainder takes the sign of `a`, so that `Quot(a, b) * b + Rem(a, b) == a`. */
  function Rem(a: int, b: int): (r: int)
    requires b != 0
    ensures Quot(a, b) * b + r == a
    ensures 0 <= a ==> 0 <= r < (if b < 0 then -b else b)
    ensures a < 0 ==> -(if b < 0 then -b else b) < r <= 0
  {
    a - Quot(a, b) * b
  }

  /** Go's `int(f)` on a floating-point value: truncation toward zero. */
  function TruncReal(f: real): (r: int)
    ensures 0.0 <= f ==> r as real <= f < r as real + 1.0
    ensures f < 0.0 ==> r as real - 1.0 < f <= r as real
  {
    if f >= 0.0 then f.Floor else -((-f).Floor)
  }
}
