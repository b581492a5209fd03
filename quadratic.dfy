/** The root selection shared by both `RayCircleIntersection` overloads
    (Scattering/Vector3.hpp:130-160 and Scattering/Vector2.hpp:63-93): given
    the coefficients of a t^2 + b t + c = 0, take the smaller root when it is
    non-negative, otherwise the larger root when it is non-negative, otherwise
    report no root. */
module Quadratic {
  import opened MathLib
  import opened Wrappers

  /** a t^2 + b t + c */
  function Quad(a: real, b: real, c: real, t: real): real {
    a * t * t + b * t + c
  }

  function Discriminant(a: real, b: real, c: real): real {
    b * b - 4.0 * a * c
  }

  /** The smaller root, computed as the source does: (-b - sqrt(d)) / 2 / a. */
  function SmallerRoot(m: Libm, a: real, b: real, c: real): real
    requires a != 0.0
  {
    (-b - m.sqrtf(Discriminant(a, b, c))) / 2.0 / a
  }

  /** The larger root: (-b + sqrt(d)) / 2 / a. */
  function LargerRoot(m: Libm, a: real, b: real, c: real): real
    requires a != 0.0
  {
    (-b + m.sqrtf(Discriminant(a, b, c))) / 2.0 / a
  }

  /** The root selection of RayCircleIntersection. */
  function NearestRoot(m: Libm, a: real, b: real, c: real): Option<real>
    requires a != 0.0
  {
    if Discriminant(a, b, c) >= 0.0 then
      var t1 := SmallerRoot(m, a, b, c);
      if t1 >= 0.0 then Some(t1)
      else
        var t2 := LargerRoot(m, a, b, c);
        if t2 >= 0.0 then Some(t2) else None
    else
      None
  }

  /** 4a * Quad(t) == (2at + b)^2 - d: completing the square. */
  lemma CompletedSquare(a: real, b: real, c: real, t: real)
    ensures 4.0 * a * Quad(a, b, c, t) == (2.0 * a * t + b) * (2.0 * a * t + b) - Discriminant(a, b, c)
  {
  }

  lemma HalfOverCancels(x: real, a: real)
    requires a != 0.0
    ensures 2.0 * a * (x / 2.0 / a) == x
  {
  }

  /** With s the square root of the discriminant, Quad factors through the two roots. */
  lemma Factorisation(m: Libm, a: real, b: real, c: real, t: real)
    requires SqrtLaws(m) && a != 0.0 && Discriminant(a, b, c) >= 0.0
    ensures Quad(a, b, c, t) == a * (t - SmallerRoot(m, a, b, c)) * (t - LargerRoot(m, a, b, c))
  {
    var s := m.sqrtf(Discriminant(a, b, c));
    HalfOverCancels(-b - s, a);
    HalfOverCancels(-b + s, a);
    FactorsThroughRoots(a, b, c, t, s, SmallerRoot(m, a, b, c), LargerRoot(m, a, b, c));
  }

  /** The factorisation over plain numbers: with s^2 the discriminant and
      2a t1 = -b - s, 2a t2 = -b + s, Quad(t) = a (t - t1) (t - t2). */
  lemma FactorsThroughRoots(a: real, b: real, c: real, t: real, s: real, t1: real, t2: real)
    requires a != 0.0 && s * s == Discriminant(a, b, c)
    requires 2.0 * a * t1 == -b - s && 2.0 * a * t2 == -b + s
    ensures Quad(a, b, c, t) == a * (t - t1) * (t - t2)
  {
    var u := 2.0 * a * t + b;
    calc {
      4.0 * a * (a * (t - t1) * (t - t2));
    ==
      (2.0 * a * t - 2.0 * a * t1) * (2.0 * a * t - 2.0 * a * t2);
    ==
      (u + s) * (u - s);
    ==
      u * u - s * s;
    == { CompletedSquare(a, b, c, t); }
      4.0 * a * Quad(a, b, c, t);
    }
  }

  lemma ProductZero(p: real, q: real)
    requires p * q == 0.0
    ensures p == 0.0 || q == 0.0
  {
    if p != 0.0 && q != 0.0 {
      var pq := p * q;
      if p > 0.0 && q > 0.0 {
        MulPositive(p, q);
      } else if p < 0.0 && q < 0.0 {
        MulPositive(-p, -q);
      } else if p > 0.0 {
        MulPositive(p, -q);
      } else {
        MulPositive(-p, q);
      }
      assert false;
    }
  }

  lemma RootsOrdered(m: Libm, a: real, b: real, c: real)
    requires SqrtLaws(m) && a > 0.0 && Discriminant(a, b, c) >= 0.0
    ensures SmallerRoot(m, a, b, c) <= LargerRoot(m, a, b, c)
  {
    var s := m.sqrtf(Discriminant(a, b, c));
    assert s >= 0.0;
    assert (-b - s) / 2.0 <= (-b + s) / 2.0;
  }

  /** The zeros of Quad are exactly the two computed roots. */
  lemma ZerosAreRoots(m: Libm, a: real, b: real, c: real, t: real)
    requires SqrtLaws(m) && a != 0.0 && Discriminant(a, b, c) >= 0.0
    ensures Quad(a, b, c, t) == 0.0 <==> t == SmallerRoot(m, a, b, c) || t == LargerRoot(m, a, b, c)
  {
    var t1, t2 := SmallerRoot(m, a, b, c), LargerRoot(m, a, b, c);
    Factorisation(m, a, b, c, t);
    if Quad(a, b, c, t) == 0.0 {
      assert a * ((t - t1) * (t - t2)) == 0.0;
      ProductZero(a, (t - t1) * (t - t2));
      ProductZero(t - t1, t - t2);
    }
  }

  /** With a > 0 and a negative discriminant, Quad is positive everywhere. */
  lemma NoZeroWhenDiscriminantNegative(a: real, b: real, c: real, t: real)
    requires a > 0.0 && Discriminant(a, b, c) < 0.0
    ensures Quad(a, b, c, t) > 0.0
  {
    var u := 2.0 * a * t + b;
    CompletedSquare(a, b, c, t);
    SquareNonNegative(u);
    assert 4.0 * a * Quad(a, b, c, t) > 0.0;
    if Quad(a, b, c, t) <= 0.0 {
      MulMonoLeft(Quad(a, b, c, t), 0.0, 4.0 * a);
      assert false;
    }
  }

  /** NearestRoot returns a root exactly when Quad has a non-negative zero,
      and then the least non-negative zero. */
  lemma NearestRootIsLeastNonNegativeZero(m: Libm, a: real, b: real, c: real)
    requires SqrtLaws(m) && a > 0.0
    ensures NearestRoot(m, a, b, c).Some? ==>
      var t := NearestRoot(m, a, b, c).value;
      && t >= 0.0
      && Quad(a, b, c, t) == 0.0
      && forall s :: s >= 0.0 && Quad(a, b, c, s) == 0.0 ==> t <= s
    ensures NearestRoot(m, a, b, c).None? ==>
      forall s :: s >= 0.0 ==> Quad(a, b, c, s) != 0.0
  {
    if Discriminant(a, b, c) < 0.0 {
      forall s | s >= 0.0
        ensures Quad(a, b, c, s) != 0.0
      {
        NoZeroWhenDiscriminantNegative(a, b, c, s);
      }
    } else {
      var t1, t2 := SmallerRoot(m, a, b, c), LargerRoot(m, a, b, c);
      RootsOrdered(m, a, b, c);
      ZerosAreRoots(m, a, b, c, t1);
      ZerosAreRoots(m, a, b, c, t2);
      forall s | s >= 0.0 && Quad(a, b, c, s) == 0.0
        ensures s == t1 || s == t2
      {
        ZerosAreRoots(m, a, b, c, s);
      }
    }
  }

  /** From inside the circle (c < 0) or on it (c == 0) there is always a
      non-negative root; strictly inside, it is the larger root and positive. */
  lemma NearestRootFromInside(m: Libm, a: real, b: real, c: real)
    requires SqrtLaws(m) && a > 0.0 && c <= 0.0
    ensures NearestRoot(m, a, b, c).Some?
    ensures NearestRoot(m, a, b, c).value >= 0.0
    ensures c < 0.0 ==> NearestRoot(m, a, b, c).value > 0.0
    ensures c < 0.0 ==> NearestRoot(m, a, b, c).value == LargerRoot(m, a, b, c)
  {
    MulNonNegative(a, -c);
    SquareNonNegative(b);
    assert Discriminant(a, b, c) >= 0.0;
    var t1, t2 := SmallerRoot(m, a, b, c), LargerRoot(m, a, b, c);
    RootsOrdered(m, a, b, c);
    Factorisation(m, a, b, c, 0.0);
    assert c == a * (0.0 - t1) * (0.0 - t2);
    if t2 < 0.0 {
      MulPositive(a, -t1);
      MulPositive(a * -t1, -t2);
      assert false;
    }
    if c < 0.0 {
      if t1 >= 0.0 {
        MulNonNegative(a, t1);
        MulNonNegative(a * t1, t2);
        assert false;
      }
      if t2 <= 0.0 {
        MulNonNegative(a, -t1);
        MulNonNegative(a * -t1, -t2);
        assert false;
      }
    }
  }
}
