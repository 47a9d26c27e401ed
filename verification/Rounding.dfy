/** Decimal quantisation on exact rationals.

    An amount is first an exact `real`; quantising it counts whole units of the target
    precision, so the result is an `int`. `HalfEven` is roundTiesToEven of IEEE 754-2008,
    section 4.3.1, the default of Python's decimal context; `HalfUp` breaks ties away from zero.
*/
module Rounding {

  function HalfEven(x: real): (n: int)
    ensures -0.5 <= n as real - x <= 0.5
    ensures (n as real - x == 0.5 || n as real - x == -0.5) ==> n % 2 == 0
  {
    var below := x.Floor;
    var rest := x - below as real;
    if rest < 0.5 then below
    else if rest > 0.5 then below + 1
    else if below % 2 == 0 then below
    else below + 1
  }

  function HalfUp(x: real): (n: int)
    ensures -0.5 <= n as real - x <= 0.5
    ensures n as real - x == -0.5 ==> x < 0.0
    ensures n as real - x == 0.5 ==> x > 0.0
  {
    if x >= 0.0 then (x + 0.5).Floor else -(0.5 - x).Floor
  }

  /** The two half-unit bounds and the tie rule leave no freedom: they define `HalfEven`. */
  lemma HalfEvenIsUnique(x: real, n: int)
    requires -0.5 <= n as real - x <= 0.5
    requires (n as real - x == 0.5 || n as real - x == -0.5) ==> n % 2 == 0
    ensures n == HalfEven(x)
  {
    var m := HalfEven(x);
    assert -1.0 <= (n - m) as real <= 1.0;
    assert -1 <= n - m <= 1;
  }

  lemma HalfEvenMonotone(x: real, y: real)
    requires x <= y
    ensures HalfEven(x) <= HalfEven(y)
  {
    var m, n := HalfEven(x), HalfEven(y);
    if m == n + 1 && x == y {
      HalfEvenIsUnique(x, n);
    }
  }
}
