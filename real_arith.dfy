/**
 * Small facts about products of reals. The solver handles products poorly when
 * other facts are in view, so each fact is proved here on its own and called by name.
 */
module RealArith {

  /** Multiplying both sides of `x <= y` by a non-negative factor keeps the order. */
  lemma MulLeft(x: real, y: real, z: real)
    requires x <= y && z >= 0.0
    ensures z * x <= z * y
  {
  }

  /** Multiplying both sides of `x < y` by a positive factor keeps the strict order. */
  lemma MulLeftStrict(x: real, y: real, z: real)
    requires x < y && z > 0.0
    ensures z * x < z * y
  {
  }

  /** A product of two non-negative numbers is non-negative. */
  lemma MulNonNegative(x: real, y: real)
    requires x >= 0.0 && y >= 0.0
    ensures x * y >= 0.0
  {
  }

  /** A product of two positive numbers is positive. */
  lemma MulPositive(x: real, y: real)
    requires x > 0.0 && y > 0.0
    ensures x * y > 0.0
  {
  }

  /** Scaling by a factor in [0, 1] moves a number toward zero without crossing it. */
  lemma ScaleByUnit(x: real, c: real)
    requires 0.0 <= c <= 1.0
    ensures x >= 0.0 ==> 0.0 <= x * c <= x
    ensures x <= 0.0 ==> x <= x * c <= 0.0
  {
    if x >= 0.0 {
      calc {
        0.0;
      == x * 0.0;
      <= { MulLeft(0.0, c, x); }
        x * c;
      <= { MulLeft(c, 1.0, x); }
        x * 1.0;
      == x;
      }
    } else {
      calc {
        -(x * c);
      == (-x) * c;
      <= { MulLeft(c, 1.0, -x); }
        (-x) * 1.0;
      == -x;
      }
      calc {
        0.0;
      == (-x) * 0.0;
      <= { MulLeft(0.0, c, -x); }
        (-x) * c;
      == -(x * c);
      }
    }
  }

  /** Squares of non-negative numbers are ordered as the numbers are. */
  lemma SquareMonotone(d: real, m: real)
    requires 0.0 <= d < m
    ensures d * d < m * m
  {
    calc {
      d * d;
    <= { MulLeft(d, m, d); }
      d * m;
    == m * d;
    < { MulLeftStrict(d, m, m); }
      m * m;
    }
  }
}
