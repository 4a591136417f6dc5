/**
 * Closed-form geometric measures of the detector: the circularity metric
 * (`ParticleDetector.calculate_circularity`) and Python's `int()` on a real.
 */
module Geometry {

  /** The value of pi the detector uses; the proofs rely only on it being positive. */
  const Pi: real := 3.141592653589793

  /** The small constant added to a divisor to keep it away from zero. */
  const Epsilon: real := 0.00001

  /**
   * 4 * pi * area / perimeter^2, capped at 1, and 0 for a zero perimeter.
   * The result is 1 exactly when the area is at least that of a circle with
   * the same perimeter; below the cap it is that ratio.
   */
  function Circularity(area: real, perimeter: real): (c: real)
    ensures perimeter == 0.0 ==> c == 0.0
    ensures c <= 1.0
    ensures 0.0 <= area ==> 0.0 <= c
    ensures perimeter != 0.0 ==> (c == 1.0 <==> perimeter * perimeter <= 4.0 * Pi * area)
    ensures perimeter != 0.0 && c < 1.0 ==> c * (perimeter * perimeter) == 4.0 * Pi * area
  {
    if perimeter == 0.0 then 0.0
    else
      RatioBounds(4.0 * Pi * area, perimeter);
      if 1.0 < 4.0 * Pi * area / (perimeter * perimeter) then 1.0
      else 4.0 * Pi * area / (perimeter * perimeter)
  }

  /** The square of a non-zero real is positive. */
  lemma SquarePositive(x: real)
    ensures x != 0.0 ==> 0.0 < x * x
  {
    if x < 0.0 {
      calc {
        x * x;
        == (-x) * (-x);
        > 0.0 * (-x);
        == 0.0;
      }
    } else if x > 0.0 {
      calc {
        x * x;
        > 0.0 * x;
        == 0.0;
      }
    }
  }

  /** How a quotient by the square of a non-zero real compares with 0 and with 1. */
  lemma RatioBounds(numerator: real, x: real)
    requires x != 0.0
    ensures 0.0 < x * x
    ensures (numerator / (x * x)) * (x * x) == numerator
    ensures 0.0 <= numerator ==> 0.0 <= numerator / (x * x)
    ensures numerator / (x * x) < 1.0 <==> numerator < x * x
  {
    SquarePositive(x);
    assert (numerator / (x * x)) * (x * x) == numerator;
    if numerator / (x * x) < 0.0 {
      calc {
        numerator;
        == (numerator / (x * x)) * (x * x);
        < 0.0 * (x * x);
        == 0.0;
      }
    }
    if numerator / (x * x) < 1.0 {
      calc {
        numerator;
        == (numerator / (x * x)) * (x * x);
        < 1.0 * (x * x);
        == x * x;
      }
    } else {
      calc {
        numerator;
        == (numerator / (x * x)) * (x * x);
        >= 1.0 * (x * x);
        == x * x;
      }
    }
  }

  /** Python's `int()` on a real: truncation toward zero. */
  function Truncate(x: real): (n: int)
    ensures 0.0 <= x ==> n as real <= x < n as real + 1.0
    ensures x < 0.0 ==> n as real - 1.0 < x <= n as real
  {
    if 0.0 <= x then x.Floor else -((-x).Floor)
  }
}
