/**
  Go's integer `/` and `%` truncate toward zero, while Dafny's are Euclidean.
  The two agree only for a non-negative dividend, so every use of Go division
  in the models goes through these functions. Every divisor the modelled code
  uses is positive (a constant, or a count it has just checked to be positive).
*/
module GoInt {

  /** Go's built-in `max` on two integers. */
  function Max(a: int, b: int): int {
    if a < b then b else a
  }

  /** Go's `a / b` for a positive divisor: the quotient rounded toward zero. */
  function Quot(a: int, b: int): (q: int)
    requires b > 0
    ensures a >= 0 ==> 0 <= a - b * q < b
    ensures a < 0 ==> -b < a - b * q <= 0
  {
    if a >= 0 then a / b
    else
      var m := (-a) / b;
      assert -a == b * m + (-a) % b;
      -m
  }

  /** Go's `a % b` for a positive divisor: the remainder takes the sign of the dividend. */
  function Rem(a: int, b: int): (r: int)
    requires b > 0
    ensures a >= 0 ==> 0 <= r < b
    ensures a < 0 ==> -b < r <= 0
    ensures a == b * Quot(a, b) + r
  {
    a - b * Quot(a, b)
  }

  /** On a non-negative dividend, Go and Dafny agree. */
  lemma AgreeOnNatural(a: int, b: int)
    requires a >= 0 && b > 0
    ensures Quot(a, b) == a / b && Rem(a, b) == a % b
  {
  }
}
