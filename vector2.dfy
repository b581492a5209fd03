/** Two-component vectors (Scattering/Vector2.hpp) and the constant PI that
    the phase functions and the irradiance builder use. */
module Vec2 {
  import opened MathLib
  import opened Wrappers
  import opened Quadratic

  /** PI as the source writes it (before rounding to float). */
  const Pi: real := 3.14159265358979323846

  datatype Vector2 = Vector2(x: real, y: real)

  function Length(m: Libm, v: Vector2): real {
    m.sqrtf(v.x * v.x + v.y * v.y)
  }

  /** `a + b` */
  function Add(a: Vector2, b: Vector2): Vector2 {
    Vector2(a.x + b.x, a.y + b.y)
  }

  /** `a - b` */
  function Sub(a: Vector2, b: Vector2): Vector2 {
    Vector2(a.x - b.x, a.y - b.y)
  }

  /** `a * b` for a float b. */
  function Scale(a: Vector2, b: real): Vector2 {
    Vector2(a.x * b, a.y * b)
  }

  /** `a / b` for a float b. */
  function Div(a: Vector2, b: real): Vector2
    requires b != 0.0
  {
    Vector2(a.x / b, a.y / b)
  }

  function Dot(a: Vector2, b: Vector2): real {
    a.x * b.x + a.y * b.y
  }

  /** `v += w`: both fields are updated in place, one after the other. */
  method AddAssign(v: Vector2, w: Vector2) returns (r: Vector2)
    ensures r == Add(v, w)
    ensures Sub(r, w) == v
  {
    r := v;
    r := r.(x := r.x + w.x);
    r := r.(y := r.y + w.y);
  }

  lemma DotSymmetric(a: Vector2, b: Vector2)
    ensures Dot(a, b) == Dot(b, a)
  {
  }

  lemma SumThenDifference(a: Vector2, b: Vector2)
    ensures Sub(Add(a, b), b) == a
  {
  }

  /** Dividing by c undoes scaling by c. */
  lemma DivUndoesScale(a: Vector2, c: real)
    requires c != 0.0
    ensures Div(Scale(a, c), c) == a
  {
  }

  /** The point `o + d * t` of the ray from o along d. */
  function RayPoint(o: Vector2, d: Vector2, t: real): Vector2 {
    Add(o, Scale(d, t))
  }

  predicate OnCircle(p: Vector2, radius: real) {
    Dot(p, p) == radius * radius
  }

  /** The 2D `RayCircleIntersection`, with the same root selection as the 3D
      one; a zero direction gives 0 / 0 for both roots, which no float
      comparison accepts, so nothing is returned. */
  function RayCircleIntersection(m: Libm, o: Vector2, d: Vector2, radius: real): (r: Option<Vector2>)
    ensures Dot(d, d) == 0.0 ==> r.None?
  {
    var r2 := radius * radius;
    var a := Dot(d, d);
    var b := 2.0 * Dot(o, d);
    var c := Dot(o, o) - r2;
    if a == 0.0 then None
    else
      match NearestRoot(m, a, b, c)
      case Some(t) => Some(RayPoint(o, d, t))
      case None => None
  }

  /** |o + d t|^2 - radius^2 is the quadratic the intersection solves. */
  lemma RayQuadratic(o: Vector2, d: Vector2, radius: real, t: real)
    ensures Dot(RayPoint(o, d, t), RayPoint(o, d, t)) - radius * radius ==
      Quad(Dot(d, d), 2.0 * Dot(o, d), Dot(o, o) - radius * radius, t)
  {
  }

  /** No point is returned when the discriminant is negative or both roots
      are negative; otherwise the smaller root is used whenever it is
      non-negative. */
  lemma RayCircleIntersectionRootChoice(m: Libm, o: Vector2, d: Vector2, radius: real)
    requires Dot(d, d) != 0.0
    ensures var a, b, c := Dot(d, d), 2.0 * Dot(o, d), Dot(o, o) - radius * radius;
      Discriminant(a, b, c) < 0.0 ==> RayCircleIntersection(m, o, d, radius).None?
    ensures var a, b, c := Dot(d, d), 2.0 * Dot(o, d), Dot(o, o) - radius * radius;
      Discriminant(a, b, c) >= 0.0 && SmallerRoot(m, a, b, c) < 0.0 && LargerRoot(m, a, b, c) < 0.0 ==>
        RayCircleIntersection(m, o, d, radius).None?
    ensures var a, b, c := Dot(d, d), 2.0 * Dot(o, d), Dot(o, o) - radius * radius;
      Discriminant(a, b, c) >= 0.0 && SmallerRoot(m, a, b, c) >= 0.0 ==>
        RayCircleIntersection(m, o, d, radius) == Some(RayPoint(o, d, SmallerRoot(m, a, b, c)))
  {
  }

  /** A returned point is where the ray first meets the circle at t >= 0; if
      nothing is returned, the ray never meets the circle at t >= 0. */
  lemma RayCircleIntersectionIsNearestHit(m: Libm, o: Vector2, d: Vector2, radius: real)
    requires SqrtLaws(m) && Dot(d, d) > 0.0
    ensures RayCircleIntersection(m, o, d, radius).Some? ==>
      exists t :: t >= 0.0 && RayCircleIntersection(m, o, d, radius).value == RayPoint(o, d, t)
        && OnCircle(RayPoint(o, d, t), radius)
        && forall s :: 0.0 <= s < t ==> !OnCircle(RayPoint(o, d, s), radius)
    ensures RayCircleIntersection(m, o, d, radius).None? ==>
      forall t :: t >= 0.0 ==> !OnCircle(RayPoint(o, d, t), radius)
  {
    var a, b, c := Dot(d, d), 2.0 * Dot(o, d), Dot(o, o) - radius * radius;
    NearestRootIsLeastNonNegativeZero(m, a, b, c);
    var nr := NearestRoot(m, a, b, c);
    if nr.Some? {
      var t := nr.value;
      RayQuadratic(o, d, radius, t);
      forall s | 0.0 <= s < t
        ensures !OnCircle(RayPoint(o, d, s), radius)
      {
        RayQuadratic(o, d, radius, s);
      }
    } else {
      forall t | t >= 0.0
        ensures !OnCircle(RayPoint(o, d, t), radius)
      {
        RayQuadratic(o, d, radius, t);
      }
    }
  }
}
