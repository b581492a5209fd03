/** Three-component vectors (Scattering/Vector3.hpp): component-wise
    arithmetic, interpolation, the component-wise exponent, the dot product,
    the cosine of the angle between two vectors and the intersection of a ray
    with a circle centred at the origin. */
module Vec3 {
  import opened MathLib
  import opened Wrappers
  import opened Quadratic

  datatype Vector3 = Vector3(x: real, y: real, z: real)

  /** The value of a default-constructed Vector3. */
  const Zero: Vector3 := Vector3(0.0, 0.0, 0.0)

  function Length(m: Libm, v: Vector3): real {
    m.sqrtf(v.x * v.x + v.y * v.y + v.z * v.z)
  }

  /** `a + b` */
  function Add(a: Vector3, b: Vector3): Vector3 {
    Vector3(a.x + b.x, a.y + b.y, a.z + b.z)
  }

  /** `a - b` */
  function Sub(a: Vector3, b: Vector3): Vector3 {
    Vector3(a.x - b.x, a.y - b.y, a.z - b.z)
  }

  /** unary `-v` */
  function Neg(v: Vector3): Vector3 {
    Vector3(-v.x, -v.y, -v.z)
  }

  /** `v * c`, and also `c * v`, which the source defines as `v * c`. */
  function Scale(v: Vector3, c: real): Vector3 {
    Vector3(v.x * c, v.y * c, v.z * c)
  }

  /** `a * b`, component by component. */
  function Mul(a: Vector3, b: Vector3): Vector3 {
    Vector3(a.x * b.x, a.y * b.y, a.z * b.z)
  }

  /** `v / c` */
  function Div(v: Vector3, c: real): Vector3
    requires c != 0.0
  {
    Vector3(v.x / c, v.y / c, v.z / c)
  }

  /** `a / b`, component by component. */
  function DivComponents(a: Vector3, b: Vector3): Vector3
    requires b.x != 0.0 && b.y != 0.0 && b.z != 0.0
  {
    Vector3(a.x / b.x, a.y / b.y, a.z / b.z)
  }

  /** `v += w`: the three fields are updated in place, one after the other. */
  method AddAssign(v: Vector3, w: Vector3) returns (r: Vector3)
    ensures r == Add(v, w)
    ensures Sub(r, w) == v
  {
    r := v;
    r := r.(x := r.x + w.x);
    r := r.(y := r.y + w.y);
    r := r.(z := r.z + w.z);
  }

  /** `v *= c`: the three fields are scaled in place, one after the other. */
  method ScaleAssign(v: Vector3, c: real) returns (r: Vector3)
    ensures r == Scale(v, c)
  {
    r := v;
    r := r.(x := r.x * c);
    r := r.(y := r.y * c);
    r := r.(z := r.z * c);
  }

  /** r lies between a and b, whichever of the two is smaller. */
  predicate Between(r: real, a: real, b: real) {
    (a <= r <= b) || (b <= r <= a)
  }

  /** Each component of r lies between the matching components of a and b. */
  predicate BetweenVectors(r: Vector3, a: Vector3, b: Vector3) {
    Between(r.x, a.x, b.x) && Between(r.y, a.y, b.y) && Between(r.z, a.z, b.z)
  }

  /** Scalar linear interpolation `a * (1 - t) + b * t`. */
  function Lerp(a: real, b: real, t: real): (r: real)
    ensures t == 0.0 ==> r == a
    ensures t == 1.0 ==> r == b
  {
    a * (1.0 - t) + b * t
  }

  /** A weighted mean with weights 1 - t and t, t in [0, 1], lies between
      the two values. */
  lemma WeightedMeanBetween(a: real, b: real, t: real)
    ensures 0.0 <= t <= 1.0 ==> Between(a * (1.0 - t) + b * t, a, b)
  {
  }

  /** With t in [0, 1] the interpolation stays between its end points. */
  lemma LerpBetween(a: real, b: real, t: real)
    ensures 0.0 <= t <= 1.0 ==> Between(Lerp(a, b, t), a, b)
  {
    WeightedMeanBetween(a, b, t);
  }

  /** Component-wise linear interpolation between two vectors. */
  function LerpVector(a: Vector3, b: Vector3, t: real): (r: Vector3)
    ensures t == 0.0 ==> r == a
    ensures t == 1.0 ==> r == b
    ensures 0.0 <= t <= 1.0 ==> BetweenVectors(r, a, b)
  {
    LerpBetween(a.x, b.x, t);
    LerpBetween(a.y, b.y, t);
    LerpBetween(a.z, b.z, t);
    Vector3(Lerp(a.x, b.x, t), Lerp(a.y, b.y, t), Lerp(a.z, b.z, t))
  }

  /** `Exp(v)`: expf applied to each component. */
  function Exp(m: Libm, v: Vector3): Vector3 {
    Vector3(m.expf(v.x), m.expf(v.y), m.expf(v.z))
  }

  function Dot(a: Vector3, b: Vector3): real {
    a.x * b.x + a.y * b.y + a.z * b.z
  }

  lemma DotSymmetric(a: Vector3, b: Vector3)
    ensures Dot(a, b) == Dot(b, a)
  {
  }

  lemma SumThenDifference(a: Vector3, b: Vector3)
    ensures Sub(Add(a, b), b) == a
  {
  }

  lemma ScaleDistributes(a: Vector3, b: Vector3, c: real)
    ensures Scale(Add(a, b), c) == Add(Scale(a, c), Scale(b, c))
  {
  }

  lemma DotSelfNonNegative(v: Vector3)
    ensures Dot(v, v) >= 0.0
  {
    SquareNonNegative(v.x);
    SquareNonNegative(v.y);
    SquareNonNegative(v.z);
  }

  /** Only the zero vector has zero squared length. */
  lemma DotSelfPositive(v: Vector3)
    requires v != Zero
    ensures Dot(v, v) > 0.0
  {
    calc {
      Dot(v, v);
    ==
      v.x * v.x + v.y * v.y + v.z * v.z;
    > { SumOfSquaresPositive(v.x, v.y, v.z); }
      0.0;
    }
  }

  /** A vector of positive squared length has a positive length. */
  lemma LengthPositive(m: Libm, v: Vector3)
    requires SqrtLaws(m) && Dot(v, v) > 0.0
    ensures Length(m, v) > 0.0
  {
    SqrtOfPositive(m, Dot(v, v));
  }

  /** |a|^2 |b|^2 - (a.b)^2 is a sum of three squares (Lagrange's identity). */
  lemma Lagrange(a: Vector3, b: Vector3)
    ensures Dot(a, a) * Dot(b, b) - Dot(a, b) * Dot(a, b) ==
      (a.y * b.z - a.z * b.y) * (a.y * b.z - a.z * b.y) +
      (a.z * b.x - a.x * b.z) * (a.z * b.x - a.x * b.z) +
      (a.x * b.y - a.y * b.x) * (a.x * b.y - a.y * b.x)
  {
  }

  /** Cauchy-Schwarz: |a.b| <= |a| |b|. */
  lemma CauchySchwarz(m: Libm, a: Vector3, b: Vector3)
    requires SqrtLaws(m)
    ensures -(Length(m, a) * Length(m, b)) <= Dot(a, b) <= Length(m, a) * Length(m, b)
  {
    var aa, bb, ab := Dot(a, a), Dot(b, b), Dot(a, b);
    DotSelfNonNegative(a);
    DotSelfNonNegative(b);
    var la, lb := Length(m, a), Length(m, b);
    assert la >= 0.0 && la * la == aa;
    assert lb >= 0.0 && lb * lb == bb;
    Lagrange(a, b);
    SquareNonNegative(a.y * b.z - a.z * b.y);
    SquareNonNegative(a.z * b.x - a.x * b.z);
    SquareNonNegative(a.x * b.y - a.y * b.x);
    assert ab * ab <= aa * bb;
    calc {
      aa * bb;
    ==
      (la * la) * (lb * lb);
    ==
      (la * lb) * (la * lb);
    }
    MulNonNegative(la, lb);
    AbsBoundFromSquares(ab, la * lb);
  }

  /** `AngleCos(a, b)`: a.b / |a| / |b|, lowered to 1 when it exceeds 1 (to
      absorb rounding); it is never clamped from below. */
  function AngleCos(m: Libm, a: Vector3, b: Vector3): (r: real)
    requires Length(m, a) != 0.0 && Length(m, b) != 0.0
    ensures r <= 1.0
    ensures r < 1.0 ==> r == Dot(a, b) / Length(m, a) / Length(m, b)
  {
    var cos := Dot(a, b) / Length(m, a) / Length(m, b);
    if cos > 1.0 then 1.0 else cos
  }

  /** Over exact reals, for vectors of non-zero length, the clamp never
      fires: AngleCos is the cosine a.b / (|a| |b|), which lies in [-1, 1]. */
  lemma AngleCosIsCosine(m: Libm, a: Vector3, b: Vector3)
    requires SqrtLaws(m) && Dot(a, a) > 0.0 && Dot(b, b) > 0.0
    ensures Length(m, a) > 0.0 && Length(m, b) > 0.0
    ensures -1.0 <= AngleCos(m, a, b) <= 1.0
    ensures AngleCos(m, a, b) * (Length(m, a) * Length(m, b)) == Dot(a, b)
  {
    AngleCosInRange(m, a, b);
  }

  lemma AngleCosInRange(m: Libm, a: Vector3, b: Vector3)
    requires SqrtLaws(m) && Dot(a, a) > 0.0 && Dot(b, b) > 0.0
    ensures Length(m, a) > 0.0 && Length(m, b) > 0.0
    ensures -1.0 <= Dot(a, b) / Length(m, a) / Length(m, b) <= 1.0
    ensures Dot(a, b) / Length(m, a) / Length(m, b) * (Length(m, a) * Length(m, b)) == Dot(a, b)
  {
    LengthPositive(m, a);
    LengthPositive(m, b);
    CauchySchwarz(m, a, b);
    QuotientInUnitRange(Dot(a, b), Length(m, a), Length(m, b));
  }

  /** A number d bounded in absolute value by la * lb, divided by la and
      then by lb, lands in [-1, 1], and multiplying back gives d. */
  lemma QuotientInUnitRange(d: real, la: real, lb: real)
    requires la > 0.0 && lb > 0.0 && -(la * lb) <= d <= la * lb
    ensures -1.0 <= d / la / lb <= 1.0
    ensures d / la / lb * (la * lb) == d
  {
    var p := la * lb;
    MulPositive(la, lb);
    var q := d / la / lb;
    assert q == d / p;
    assert q * p == d;
    if q > 1.0 {
      MulStrictMono(1.0, q, p);
      assert false;
    }
    if q < -1.0 {
      MulStrictMono(q, -1.0, p);
      assert false;
    }
  }

  /** The point `o + d * t` of the ray from o along d. */
  function RayPoint(o: Vector3, d: Vector3, t: real): Vector3 {
    Add(o, Scale(d, t))
  }

  /** p lies on the circle (sphere) of the given radius centred at the origin. */
  predicate OnCircle(p: Vector3, radius: real) {
    Dot(p, p) == radius * radius
  }

  /** `RayCircleIntersection`: solves |o + d t|^2 = radius^2 for t and returns
      the point at the smaller root if that root is non-negative, otherwise at
      the larger root if that one is, otherwise nothing. For d = 0 both roots
      are 0 / 0, which no float comparison accepts, so nothing is returned. */
  function RayCircleIntersection(m: Libm, o: Vector3, d: Vector3, radius: real): (r: Option<Vector3>)
    ensures Dot(d, d) == 0.0 ==> r.None?
  {
    var r2 := radius * radius;
    var a := Dot(d, d);
    var b := 2.0 * Dot(o, d);
    var c := Dot(o, o) - r2;
    if a == 0.0 then None
    else
      match NearestRoot(m, a, b, c)
      case Some(t) => Some(RayPoint(o, d, t))
      case None => None
  }

  /** |o + d t|^2 - radius^2 is the quadratic the intersection solves. */
  lemma RayQuadratic(o: Vector3, d: Vector3, radius: real, t: real)
    ensures Dot(RayPoint(o, d, t), RayPoint(o, d, t)) - radius * radius ==
      Quad(Dot(d, d), 2.0 * Dot(o, d), Dot(o, o) - radius * radius, t)
  {
  }

  /** No point is returned when the discriminant is negative or both roots
      are negative; otherwise the smaller root is used whenever it is
      non-negative. */
  lemma RayCircleIntersectionRootChoice(m: Libm, o: Vector3, d: Vector3, radius: real)
    requires Dot(d, d) != 0.0
    ensures var a, b, c := Dot(d, d), 2.0 * Dot(o, d), Dot(o, o) - radius * radius;
      Discriminant(a, b, c) < 0.0 ==> RayCircleIntersection(m, o, d, radius).None?
    ensures var a, b, c := Dot(d, d), 2.0 * Dot(o, d), Dot(o, o) - radius * radius;
      Discriminant(a, b, c) >= 0.0 && SmallerRoot(m, a, b, c) < 0.0 && LargerRoot(m, a, b, c) < 0.0 ==>
        RayCircleIntersection(m, o, d, radius).None?
    ensures var a, b, c := Dot(d, d), 2.0 * Dot(o, d), Dot(o, o) - radius * radius;
      Discriminant(a, b, c) >= 0.0 && SmallerRoot(m, a, b, c) >= 0.0 ==>
        RayCircleIntersection(m, o, d, radius) == Some(RayPoint(o, d, SmallerRoot(m, a, b, c)))
  {
  }

  /** A returned point is where the ray first meets the circle at t >= 0; if
      nothing is returned, the ray never meets the circle at t >= 0. */
  lemma RayCircleIntersectionIsNearestHit(m: Libm, o: Vector3, d: Vector3, radius: real)
    requires SqrtLaws(m) && Dot(d, d) > 0.0
    ensures RayCircleIntersection(m, o, d, radius).Some? ==>
      exists t :: t >= 0.0 && RayCircleIntersection(m, o, d, radius).value == RayPoint(o, d, t)
        && OnCircle(RayPoint(o, d, t), radius)
        && forall s :: 0.0 <= s < t ==> !OnCircle(RayPoint(o, d, s), radius)
    ensures RayCircleIntersection(m, o, d, radius).None? ==>
      forall t :: t >= 0.0 ==> !OnCircle(RayPoint(o, d, t), radius)
  {
    var a, b, c := Dot(d, d), 2.0 * Dot(o, d), Dot(o, o) - radius * radius;
    NearestRootIsLeastNonNegativeZero(m, a, b, c);
    var nr := NearestRoot(m, a, b, c);
    if nr.Some? {
      var t := nr.value;
      RayQuadratic(o, d, radius, t);
      forall s | 0.0 <= s < t
        ensures !OnCircle(RayPoint(o, d, s), radius)
      {
        RayQuadratic(o, d, radius, s);
      }
    } else {
      forall t | t >= 0.0
        ensures !OnCircle(RayPoint(o, d, t), radius)
      {
        RayQuadratic(o, d, radius, t);
      }
    }
  }

  /** Whatever point is returned lies on the circle. */
  lemma RayCircleIntersectionOnCircle(m: Libm, o: Vector3, d: Vector3, radius: real)
    requires SqrtLaws(m) && Dot(d, d) > 0.0 && RayCircleIntersection(m, o, d, radius).Some?
    ensures OnCircle(RayCircleIntersection(m, o, d, radius).value, radius)
  {
    RayCircleIntersectionIsNearestHit(m, o, d, radius);
  }

  /** From a point strictly inside the circle, every non-zero direction leaves
      it at some t > 0; from a point on the circle, at some t >= 0. */
  lemma RayCircleIntersectionFromInside(m: Libm, o: Vector3, d: Vector3, radius: real)
    requires SqrtLaws(m) && Dot(d, d) > 0.0 && Dot(o, o) <= radius * radius
    ensures RayCircleIntersection(m, o, d, radius).Some?
    ensures OnCircle(RayCircleIntersection(m, o, d, radius).value, radius)
    ensures exists t :: t >= 0.0 && RayCircleIntersection(m, o, d, radius).value == RayPoint(o, d, t)
    ensures Dot(o, o) < radius * radius ==>
      exists t :: t > 0.0 && RayCircleIntersection(m, o, d, radius).value == RayPoint(o, d, t)
  {
    var a, b, c := Dot(d, d), 2.0 * Dot(o, d), Dot(o, o) - radius * radius;
    NearestRootFromInside(m, a, b, c);
    NearestRootIsLeastNonNegativeZero(m, a, b, c);
    var t := NearestRoot(m, a, b, c).value;
    RayQuadratic(o, d, radius, t);
    assert RayCircleIntersection(m, o, d, radius).value == RayPoint(o, d, t);
  }

  /** The ball |p| < radius is convex: every point of a segment that starts
      strictly inside it and ends inside or on its boundary, other than the end
      point itself, is strictly inside. */
  lemma SegmentStaysInside(a: Vector3, b: Vector3, s: real, radius: real)
    requires Dot(a, a) < radius * radius && Dot(b, b) <= radius * radius
    requires 0.0 <= s < 1.0
    ensures Dot(RayPoint(a, Sub(b, a), s), RayPoint(a, Sub(b, a), s)) < radius * radius
  {
    var e := Sub(a, b);
    ConvexCombinationSquare(a, b, s);
    DotSelfNonNegative(e);
    MixBelow(Dot(a, a), Dot(b, b), Dot(e, e), s, radius * radius);
  }

  /** (1 - s) A + s B - s (1 - s) E: for squared lengths A and B of two
      points and E of their difference, the squared length of the point at
      s between them. */
  function Mix(A: real, B: real, E: real, s: real): real {
    (1.0 - s) * A + s * B - s * (1.0 - s) * E
  }

  /** Below a bound that A is strictly under and B at most reaches, the mix
      stays strictly under for s in [0, 1). */
  lemma MixBelow(A: real, B: real, E: real, s: real, r2: real)
    ensures E >= 0.0 && A < r2 && B <= r2 && 0.0 <= s < 1.0 ==> Mix(A, B, E, s) < r2
  {
    if E >= 0.0 && A < r2 && B <= r2 && 0.0 <= s < 1.0 {
      var t := 1.0 - s;
      assert t > 0.0;
      assert t * A < t * r2;
      assert s * B <= s * r2;
      assert s * t >= 0.0;
      assert s * t * E >= 0.0;
      assert t * r2 + s * r2 == r2;
    }
  }

  /** The identity coordinate by coordinate: with p = a + (b - a) s and
      e = a - b, |p|^2 is the mix of |a|^2, |b|^2 and |e|^2. */
  lemma CoordinatesMix(a: Vector3, b: Vector3, s: real, p: Vector3, e: Vector3)
    requires p.x == a.x + (b.x - a.x) * s && p.y == a.y + (b.y - a.y) * s && p.z == a.z + (b.z - a.z) * s
    requires e.x == a.x - b.x && e.y == a.y - b.y && e.z == a.z - b.z
    ensures Dot(p, p) == Mix(Dot(a, a), Dot(b, b), Dot(e, e), s)
  {
    ScalarMix(a.x, a.y, a.z, b.x, b.y, b.z, s, p.x, p.y, p.z, e.x, e.y, e.z,
              Dot(a, a), Dot(b, b), Dot(e, e), Dot(p, p));
  }

  /** The same identity over plain numbers: the squared length P of
      p = a + (b - a) s is the mix of the squared lengths A, B and E of a,
      b and e = a - b. */
  lemma ScalarMix(a1: real, a2: real, a3: real, b1: real, b2: real, b3: real, s: real,
                  p1: real, p2: real, p3: real, e1: real, e2: real, e3: real,
                  A: real, B: real, E: real, P: real)
    requires p1 == a1 + (b1 - a1) * s && p2 == a2 + (b2 - a2) * s && p3 == a3 + (b3 - a3) * s
    requires e1 == a1 - b1 && e2 == a2 - b2 && e3 == a3 - b3
    requires A == a1 * a1 + a2 * a2 + a3 * a3 && B == b1 * b1 + b2 * b2 + b3 * b3
    requires E == e1 * e1 + e2 * e2 + e3 * e3 && P == p1 * p1 + p2 * p2 + p3 * p3
    ensures P == Mix(A, B, E, s)
  {
  }

  /** The squared length of the point at s between a and b is their mix. */
  lemma ConvexCombinationSquare(a: Vector3, b: Vector3, s: real)
    ensures Dot(RayPoint(a, Sub(b, a), s), RayPoint(a, Sub(b, a), s))
      == Mix(Dot(a, a), Dot(b, b), Dot(Sub(a, b), Sub(a, b)), s)
  {
    CoordinatesMix(a, b, s, RayPoint(a, Sub(b, a), s), Sub(a, b));
  }
}
