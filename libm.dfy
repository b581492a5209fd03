/** The C math library functions the atmosphere code calls (`expf`, `sqrtf`,
    `sinf`, `cosf`, `acosf`, `asinf`, `powf`), taken as uninterpreted
    parameters. Each property states, through the predicates below, the few
    laws of these functions it relies on; nothing else about them is assumed.
    A few facts of real arithmetic that the solver does not find unaided are
    collected here too. */
module MathLib {

  datatype Libm = Libm(
    expf: real -> real,
    sqrtf: real -> real,
    sinf: real -> real,
    cosf: real -> real,
    acosf: real -> real,
    asinf: real -> real,
    powf: (real, real) -> real)

  /** exp(0) = 1, exp is positive and strictly increasing. */
  ghost predicate ExpLaws(m: Libm) {
    && m.expf(0.0) == 1.0
    && (forall x :: m.expf(x) > 0.0)
    && (forall x, y :: x < y ==> m.expf(x) < m.expf(y))
  }

  /** sqrt(x) is the non-negative square root of every x >= 0; in
      particular sqrt(0) = 0. */
  ghost predicate SqrtLaws(m: Libm) {
    && m.sqrtf(0.0) == 0.0
    && (forall x :: x >= 0.0 ==> m.sqrtf(x) >= 0.0 && m.sqrtf(x) * m.sqrtf(x) == x)
  }

  /** sin^2 + cos^2 = 1, and acos is a right inverse of cos on [-1, 1]. */
  ghost predicate TrigLaws(m: Libm) {
    && (forall x :: m.sinf(x) * m.sinf(x) + m.cosf(x) * m.cosf(x) == 1.0)
    && (forall c :: -1.0 <= c <= 1.0 ==> m.cosf(m.acosf(c)) == c)
  }

  /** asin is a right inverse of sin on [-1, 1], with its values in
      [-pi/2, pi/2], where the cosine is non-negative. */
  ghost predicate AsinLaws(m: Libm) {
    forall s :: -1.0 <= s <= 1.0 ==> m.sinf(m.asinf(s)) == s && m.cosf(m.asinf(s)) >= 0.0
  }

  /** A positive base raised to any power is positive. */
  ghost predicate PowPositive(m: Libm) {
    forall x, y :: x > 0.0 ==> m.powf(x, y) > 0.0
  }

  /** powf(x, 3) is the cube of x. */
  ghost predicate PowCube(m: Libm) {
    forall x :: m.powf(x, 3.0) == x * x * x
  }

  lemma SqrtOfPositive(m: Libm, x: real)
    requires SqrtLaws(m) && x > 0.0
    ensures m.sqrtf(x) > 0.0
  {
    var s := m.sqrtf(x);
    assert s >= 0.0 && s * s == x;
  }

  /** Under the laws of exp, exp of a non-positive number lies in (0, 1]. */
  lemma ExpOfNonPositive(m: Libm, x: real)
    requires ExpLaws(m) && x <= 0.0
    ensures 0.0 < m.expf(x) <= 1.0
  {
    if x < 0.0 {
      assert m.expf(x) < m.expf(0.0);
    }
  }

  lemma MulPositive(a: real, b: real)
    ensures a > 0.0 && b > 0.0 ==> a * b > 0.0
  {
  }

  lemma MulNonNegative(a: real, b: real)
    ensures a >= 0.0 && b >= 0.0 ==> a * b >= 0.0
  {
  }

  lemma SquareNonNegative(a: real)
    ensures a * a >= 0.0
  {
    if a > 0.0 {
      MulPositive(a, a);
    } else if a < 0.0 {
      MulPositive(-a, -a);
    }
  }

  lemma SquarePositive(a: real)
    requires a != 0.0
    ensures a * a > 0.0
  {
    if a > 0.0 {
      MulPositive(a, a);
    } else {
      MulPositive(-a, -a);
    }
  }

  /** A sum of three squares is positive unless all three are zero. */
  lemma SumOfSquaresPositive(x: real, y: real, z: real)
    requires x != 0.0 || y != 0.0 || z != 0.0
    ensures x * x + y * y + z * z > 0.0
  {
    SquareNonNegative(x);
    SquareNonNegative(y);
    SquareNonNegative(z);
    if x != 0.0 {
      SquarePositive(x);
    } else if y != 0.0 {
      SquarePositive(y);
    } else {
      SquarePositive(z);
    }
  }

  /** A proper fraction of a positive number is positive and smaller. */
  lemma ProperFraction(h: real, f: real)
    requires h > 0.0 && 0.0 < f < 1.0
    ensures 0.0 < h * f < h
  {
    MulPositive(h, f);
    MulStrictMono(f, 1.0, h);
  }

  /** A fraction t in [0, 1] of a non-negative c lies in [0, c]. */
  lemma FractionOf(c: real, t: real)
    ensures c >= 0.0 && 0.0 <= t <= 1.0 ==> 0.0 <= c * t <= c
  {
    MulMonoLeft(t, 1.0, c);
    MulNonNegative(c, t);
  }

  /** The cube is monotone on the non-negative numbers. */
  lemma CubeMono(a: real, b: real)
    requires 0.0 <= a <= b
    ensures a * a * a <= b * b * b
  {
    MulNonNegative(a, a);
    MulNonNegative(a, b);
    calc {
      a * a * a;
    <= { MulMonoLeft(a, b, a * a); }
      a * a * b;
    <= { MulMonoLeft(a, b, a * b); }
      a * b * b;
    <= { MulMonoLeft(a, b, b * b); }
      b * b * b;
    }
  }

  lemma CubeInUnitInterval(a: real)
    requires 0.0 <= a <= 1.0
    ensures 0.0 <= a * a * a <= 1.0
  {
    CubeMono(0.0, a);
    CubeMono(a, 1.0);
  }

  /** If x^2 <= y^2 and y >= 0, then -y <= x <= y. */
  lemma AbsBoundFromSquares(x: real, y: real)
    requires y >= 0.0 && x * x <= y * y
    ensures -y <= x <= y
  {
    if x > y {
      SquareStrictMono(y, x);
      assert false;
    } else if x < -y {
      SquareStrictMono(y, -x);
      assert false;
    }
  }

  lemma SquareStrictMono(a: real, b: real)
    ensures 0.0 <= a < b ==> a * a < b * b
  {
    if 0.0 <= a < b {
      calc {
        a * a;
      <= { MulMonoLeft(a, b, a); }
        a * b;
      <  { MulStrictMono(a, b, b); }
        b * b;
      }
    }
  }

  lemma MulMonoLeft(a: real, b: real, c: real)
    ensures a <= b && c >= 0.0 ==> c * a <= c * b
  {
  }

  lemma MulStrictMono(a: real, b: real, c: real)
    ensures a < b && c > 0.0 ==> a * c < b * c
  {
  }
}
