/** The transmittance line integrator of Scattering/Transmittance.hpp: the
    optical depth along the segment from a to b is estimated by the midpoint
    rule with `sampleCount` samples, and the transmittance is its negative
    exponent, channel by channel. */
module Transmittance {
  import opened MathLib
  import opened Vec3
  import opened Planet

  datatype IntegrationParameters = IntegrationParameters(sampleCount: int)

  /** The default of `IntegrationParameters`. */
  const DefaultParameters: IntegrationParameters := IntegrationParameters(512)

  /** The i-th sample point `firstPoint + pathDelta * i`, where
      `firstPoint = a + pathDelta / 2`. */
  function SamplePoint(a: Vector3, pathDelta: Vector3, i: nat): Vector3 {
    Add(Add(a, Div(pathDelta, 2.0)), Scale(pathDelta, i as real))
  }

  /** With pathDelta = (b - a) / n, the i-th sample point is the midpoint of
      the i-th of n equal pieces of the segment from a to b. */
  lemma SamplePointIsMidpoint(a: Vector3, b: Vector3, n: nat, i: nat)
    requires n >= 1
    ensures SamplePoint(a, Div(Sub(b, a), n as real), i)
         == RayPoint(a, Sub(b, a), (i as real + 0.5) / n as real)
  {
    var p := Sub(b, a);
    var t := (i as real + 0.5) / n as real;
    assert p.x / n as real / 2.0 + p.x / n as real * i as real == p.x * t;
    assert p.y / n as real / 2.0 + p.y / n as real * i as real == p.y * t;
    assert p.z / n as real / 2.0 + p.z / n as real * i as real == p.z * t;
  }

  /** The parameter of the i-th of n midpoints lies strictly inside (0, 1). */
  lemma MidpointParameterInside(n: nat, i: nat)
    requires i < n
    ensures 0.0 < (i as real + 0.5) / n as real < 1.0
  {
    var t := (i as real + 0.5) / n as real;
    assert t * n as real == i as real + 0.5;
    if t >= 1.0 {
      MulMonoLeft(1.0, t, n as real);
      assert false;
    }
  }

  /** The sum of the Rayleigh densities at the first k sample points. */
  function RayleighPathDensity(m: Libm, pp: PlanetProperties, a: Vector3, pathDelta: Vector3, k: nat): real
    reads pp
    requires pp.rayleighScaleHeight != 0.0
  {
    if k == 0 then 0.0
    else
      RayleighPathDensity(m, pp, a, pathDelta, k - 1)
        + pp.RayleighDensityRadius(m, Length(m, SamplePoint(a, pathDelta, k - 1)))
  }

  /** The sum of the Mie densities at the first k sample points. */
  function MiePathDensity(m: Libm, pp: PlanetProperties, a: Vector3, pathDelta: Vector3, k: nat): real
    reads pp
    requires pp.mieScaleHeight != 0.0
  {
    if k == 0 then 0.0
    else
      MiePathDensity(m, pp, a, pathDelta, k - 1)
        + pp.MieDensityRadius(m, Length(m, SamplePoint(a, pathDelta, k - 1)))
  }

  /** `sampleCount` is used as a divisor, and the densities divide by the
      scale heights. */
  predicate CanIntegrate(pp: PlanetProperties, params: IntegrationParameters)
    reads pp
  {
    params.sampleCount >= 1 && pp.rayleighScaleHeight != 0.0 && pp.mieScaleHeight != 0.0
  }

  /** The optical depth of the path: the density sums weighted by the
      extinction coefficients. */
  function OpticalDepth(pp: PlanetProperties, rayleighSum: real, mieSum: real): Vector3
    reads pp
  {
    Add(Scale(pp.GetRayleighExtinctionCoef(), rayleighSum), Scale(pp.GetMieExtinctionCoef(), mieSum))
  }

  /** The transmittance from a to b as a function of the endpoints: the
      negative exponent of the optical depth times the step length. */
  function PathTransmittance(m: Libm, pp: PlanetProperties, a: Vector3, b: Vector3,
                             params: IntegrationParameters): Vector3
    reads pp
    requires CanIntegrate(pp, params)
  {
    var n := params.sampleCount;
    var pathDelta := Div(Sub(b, a), n as real);
    var depth := OpticalDepth(pp, RayleighPathDensity(m, pp, a, pathDelta, n),
                                  MiePathDensity(m, pp, a, pathDelta, n));
    Exp(m, Scale(Neg(depth), Length(m, pathDelta)))
  }

  /** `GetPathTransmittance`: the accumulation loop over the sample points. */
  method GetPathTransmittance(m: Libm, a: Vector3, b: Vector3, pp: PlanetProperties,
                              params: IntegrationParameters) returns (r: Vector3)
    requires CanIntegrate(pp, params)
    ensures r == PathTransmittance(m, pp, a, b, params)
  {
    var path := Sub(b, a);
    var pathDelta := Div(path, params.sampleCount as real);
    var pathDeltaLength := Length(m, pathDelta);

    var rayleighPathDensity := 0.0;
    var miePathDensity := 0.0;

    var firstPoint := Add(a, Div(pathDelta, 2.0));
    for i := 0 to params.sampleCount
      invariant rayleighPathDensity == RayleighPathDensity(m, pp, a, pathDelta, i)
      invariant miePathDensity == MiePathDensity(m, pp, a, pathDelta, i)
    {
      var pathPoint := Add(firstPoint, Scale(pathDelta, i as real));
      var pathPointRadius := Length(m, pathPoint);
      rayleighPathDensity := rayleighPathDensity + pp.RayleighDensityRadius(m, pathPointRadius);
      miePathDensity := miePathDensity + pp.MieDensityRadius(m, pathPointRadius);
    }

    var pathOpticalDepth := Add(Scale(pp.GetRayleighExtinctionCoef(), rayleighPathDensity),
                                Scale(pp.GetMieExtinctionCoef(), miePathDensity));
    r := Exp(m, Scale(Neg(pathOpticalDepth), pathDeltaLength));
  }

  /** A path of length zero lets all light through. */
  lemma EmptyPathTransmittance(m: Libm, pp: PlanetProperties, a: Vector3, params: IntegrationParameters)
    requires ExpLaws(m) && SqrtLaws(m) && CanIntegrate(pp, params)
    ensures PathTransmittance(m, pp, a, a, params) == Vector3(1.0, 1.0, 1.0)
  {
    var pathDelta := Div(Sub(a, a), params.sampleCount as real);
    assert pathDelta == Zero;
    assert Length(m, pathDelta) == 0.0;
  }

  /** Under positive exponentials the density sums are non-negative. */
  lemma {:induction false} PathDensitiesNonNegative(m: Libm, pp: PlanetProperties, a: Vector3,
                                                    pathDelta: Vector3, k: nat)
    requires ExpLaws(m) && pp.rayleighScaleHeight != 0.0 && pp.mieScaleHeight != 0.0
    ensures RayleighPathDensity(m, pp, a, pathDelta, k) >= 0.0
    ensures MiePathDensity(m, pp, a, pathDelta, k) >= 0.0
  {
    if k > 0 {
      PathDensitiesNonNegative(m, pp, a, pathDelta, k - 1);
    }
  }

  /** Attenuating by a non-negative optical depth over a non-negative
      length leaves every channel in (0, 1]. */
  lemma AttenuationInUnitInterval(m: Libm, depth: Vector3, l: real)
    requires ExpLaws(m) && NonNegative(depth) && l >= 0.0
    ensures var t := Exp(m, Scale(Neg(depth), l));
      0.0 < t.x <= 1.0 && 0.0 < t.y <= 1.0 && 0.0 < t.z <= 1.0
  {
    var e := Scale(Neg(depth), l);
    MulNonNegative(depth.x, l);
    MulNonNegative(depth.y, l);
    MulNonNegative(depth.z, l);
    ExpOfNonPositive(m, e.x);
    ExpOfNonPositive(m, e.y);
    ExpOfNonPositive(m, e.z);
  }

  /** With non-negative extinction coefficients every channel of the
      transmittance lies in (0, 1]. */
  lemma TransmittanceInUnitInterval(m: Libm, pp: PlanetProperties, a: Vector3, b: Vector3,
                                    params: IntegrationParameters)
    requires ExpLaws(m) && SqrtLaws(m) && CanIntegrate(pp, params)
    requires NonNegative(pp.rayleighExtinctionCoef) && NonNegative(pp.mieExtinctionCoef)
    ensures var t := PathTransmittance(m, pp, a, b, params);
      0.0 < t.x <= 1.0 && 0.0 < t.y <= 1.0 && 0.0 < t.z <= 1.0
  {
    var n := params.sampleCount;
    var pathDelta := Div(Sub(b, a), n as real);
    var rs, ms := RayleighPathDensity(m, pp, a, pathDelta, n), MiePathDensity(m, pp, a, pathDelta, n);
    PathDensitiesNonNegative(m, pp, a, pathDelta, n);
    var depth := OpticalDepth(pp, rs, ms);
    WeightedSumNonNegative(pp.rayleighExtinctionCoef, rs, pp.mieExtinctionCoef, ms);
    var l := Length(m, pathDelta);
    DotSelfNonNegative(pathDelta);
    assert l >= 0.0;
    AttenuationInUnitInterval(m, depth, l);
  }

  predicate NonNegative(v: Vector3) {
    v.x >= 0.0 && v.y >= 0.0 && v.z >= 0.0
  }

  lemma WeightedSumNonNegative(u: Vector3, s: real, v: Vector3, t: real)
    requires NonNegative(u) && NonNegative(v) && s >= 0.0 && t >= 0.0
    ensures NonNegative(Add(Scale(u, s), Scale(v, t)))
  {
    MulNonNegative(u.x, s);
    MulNonNegative(u.y, s);
    MulNonNegative(u.z, s);
    MulNonNegative(v.x, t);
    MulNonNegative(v.y, t);
    MulNonNegative(v.z, t);
  }
}
