/**
 The two numeric conversions the grid arithmetic borrows from Python: the
 built-in `round` with no digit argument (round half to even, returning an
 integer) and `int` applied to a float (truncation toward zero). Both are
 modelled on exact reals; IEEE double precision is not modelled.
 */
module PyNumbers {

  function Abs(x: real): real {
    if x < 0.0 then -x else x
  }

  /** Python's `round(x)`: the nearest integer, ties going to the even neighbour. */
  function Round(x: real): (r: int)
    ensures Abs(r as real - x) <= 0.5
    ensures Abs(r as real - x) == 0.5 ==> r % 2 == 0
  {
    var f := x.Floor;
    var d := x - f as real;
    if d < 0.5 then f
    else if d > 0.5 then f + 1
    else if f % 2 == 0 then f
    else f + 1
  }

  /** No integer is closer to `x` than `Round(x)`. */
  lemma RoundIsNearest(x: real, k: int)
    ensures Abs(Round(x) as real - x) <= Abs(k as real - x)
  {
    var r := Round(x);
    if k < r {
      assert k as real <= r as real - 1.0;
    } else if k > r {
      assert k as real >= r as real + 1.0;
    }
  }

  /** Rounding leaves integers alone. */
  lemma RoundOfInteger(k: int)
    ensures Round(k as real) == k
  {
    RoundIsNearest(k as real, k);
  }

  /** Python's `int(x)` on a float: truncation toward zero. */
  function Trunc(x: real): (n: int)
    ensures 0.0 <= x ==> 0 <= n && n as real <= x < n as real + 1.0
    ensures x < 0.0 ==> n <= 0 && n as real - 1.0 < x <= n as real
  {
    if 0.0 <= x then x.Floor else -((-x).Floor)
  }
}
