/** The single-scattering line integrator of Scattering/Scattering.hpp. Along
    the view segment from a to b, each midpoint sample whose sun ray does not
    hit the planet adds the light that reaches it from the sun and travels on
    to a, weighted by the Rayleigh and the Mie density there; the two sums
    are then weighted by the phase functions of the view-sun angle and the
    scattering coefficients, and scaled by the step length. */
module Scattering {
  import opened MathLib
  import opened Wrappers
  import opened Vec3
  import opened Planet
  import opened Transmittance

  datatype IntegrationParams = IntegrationParams(sampleCount: int)

  /** The default of `IntegrationParams`. */
  const DefaultParams: IntegrationParams := IntegrationParams(512)

  /** The sun ray from p hits the planet, so p is in the planet's shadow. */
  predicate SunBlocked(m: Libm, pp: PlanetProperties, p: Vector3, sunDir: Vector3)
    reads pp
  {
    RayCircleIntersection(m, p, sunDir, pp.GetPlanetRadius()).Some?
  }

  /** The sun ray from p leaves the atmosphere somewhere. */
  predicate SunRayLeaves(m: Libm, pp: PlanetProperties, p: Vector3, sunDir: Vector3)
    reads pp
  {
    RayCircleIntersection(m, p, sunDir, pp.GetAtmosphereRadius()).Some?
  }

  /** The unchecked `.value()` on the atmosphere exit of the sun ray succeeds
      at each of the first k sample points that is not in shadow. */
  predicate SunRaysLeave(m: Libm, pp: PlanetProperties, a: Vector3, pathDelta: Vector3,
                         sunDir: Vector3, k: nat)
    reads pp
  {
    forall i {:trigger SunRayLeaves(m, pp, SamplePoint(a, pathDelta, i), sunDir)} ::
      0 <= i < k && !SunBlocked(m, pp, SamplePoint(a, pathDelta, i), sunDir) ==>
      SunRayLeaves(m, pp, SamplePoint(a, pathDelta, i), sunDir)
  }

  /** The light arriving at an unshadowed sample point p from the sun and
      carried on to the path start a: the product of the transmittance from p
      to where the sun ray enters the atmosphere and the transmittance from p
      to a. */
  function SunLight(m: Libm, pp: PlanetProperties, a: Vector3, p: Vector3, sunDir: Vector3,
                    tParams: IntegrationParameters): Vector3
    reads pp
    requires CanIntegrate(pp, tParams) && SunRayLeaves(m, pp, p, sunDir)
  {
    var sunPathEnterPoint := RayCircleIntersection(m, p, sunDir, pp.GetAtmosphereRadius()).value;
    Mul(PathTransmittance(m, pp, p, sunPathEnterPoint, tParams), PathTransmittance(m, pp, p, a, tParams))
  }

  /** The Rayleigh accumulator after the first k samples: shadowed samples
      are skipped, every other one adds its sun light times the Rayleigh
      density at its radius. */
  function RayleighScatteringSum(m: Libm, pp: PlanetProperties, a: Vector3, pathDelta: Vector3,
                                 sunDir: Vector3, tParams: IntegrationParameters, k: nat): Vector3
    reads pp
    requires CanIntegrate(pp, tParams) && SunRaysLeave(m, pp, a, pathDelta, sunDir, k)
  {
    if k == 0 then Zero
    else
      var previous := RayleighScatteringSum(m, pp, a, pathDelta, sunDir, tParams, k - 1);
      var p := SamplePoint(a, pathDelta, k - 1);
      if SunBlocked(m, pp, p, sunDir) then previous
      else Add(previous, Scale(SunLight(m, pp, a, p, sunDir, tParams), pp.RayleighDensityRadius(m, Length(m, p))))
  }

  /** The Mie accumulator after the first k samples. */
  function MieScatteringSum(m: Libm, pp: PlanetProperties, a: Vector3, pathDelta: Vector3,
                            sunDir: Vector3, tParams: IntegrationParameters, k: nat): Vector3
    reads pp
    requires CanIntegrate(pp, tParams) && SunRaysLeave(m, pp, a, pathDelta, sunDir, k)
  {
    if k == 0 then Zero
    else
      var previous := MieScatteringSum(m, pp, a, pathDelta, sunDir, tParams, k - 1);
      var p := SamplePoint(a, pathDelta, k - 1);
      if SunBlocked(m, pp, p, sunDir) then previous
      else Add(previous, Scale(SunLight(m, pp, a, p, sunDir, tParams), pp.MieDensityRadius(m, Length(m, p))))
  }

  /** What `GetPathScattering` needs of its inputs: a sample count to divide
      by, a path and a sun direction of non-zero length (`AngleCos` divides
      by both lengths), a
      Mie phase denominator that is not zero, and a sun exit for every
      unshadowed sample. */
  predicate CanScatter(m: Libm, pp: PlanetProperties, a: Vector3, b: Vector3, sunDir: Vector3,
                       tParams: IntegrationParameters, params: IntegrationParams)
    reads pp
  {
    && CanIntegrate(pp, tParams)
    && params.sampleCount >= 1
    && Length(m, Sub(b, a)) != 0.0
    && Length(m, sunDir) != 0.0
    && m.powf(pp.MieBase(AngleCos(m, Sub(b, a), sunDir)), 1.5) != 0.0
    && SunRaysLeave(m, pp, a, Div(Sub(b, a), params.sampleCount as real), sunDir, params.sampleCount)
  }

  /** The final weighting of the two sums: each by its phase function at
      the view-sun cosine and its scattering coefficient, the total by the
      step length. */
  function WeightedScattering(m: Libm, pp: PlanetProperties, rayleighSum: Vector3, mieSum: Vector3,
                              viewSunCos: real, stepLength: real): Vector3
    reads pp
    requires m.powf(pp.MieBase(viewSunCos), 1.5) != 0.0
  {
    Scale(Add(Mul(Scale(rayleighSum, pp.RayleighPhaseCos(viewSunCos)), pp.GetRayleighScatteringCoef()),
              Mul(Scale(mieSum, pp.MiePhaseCos(m, viewSunCos)), pp.GetMieScatteringCoef())),
          stepLength)
  }

  /** Sums that are both zero scatter nothing, whatever the phase functions. */
  lemma ZeroSumsScatterNothing(m: Libm, pp: PlanetProperties, viewSunCos: real, stepLength: real)
    requires m.powf(pp.MieBase(viewSunCos), 1.5) != 0.0
    ensures WeightedScattering(m, pp, Zero, Zero, viewSunCos, stepLength) == Zero
  {
  }

  /** The in-scattered light along the path from a to b as a function of the
      inputs. The phase functions are evaluated once, at the cosine of the
      angle between the path and the sun direction. */
  function PathScattering(m: Libm, pp: PlanetProperties, a: Vector3, b: Vector3, sunDir: Vector3,
                          tParams: IntegrationParameters, params: IntegrationParams): Vector3
    reads pp
    requires CanScatter(m, pp, a, b, sunDir, tParams, params)
  {
    var n := params.sampleCount;
    var pathDeltaVector := Div(Sub(b, a), n as real);
    WeightedScattering(m, pp,
                       RayleighScatteringSum(m, pp, a, pathDeltaVector, sunDir, tParams, n),
                       MieScatteringSum(m, pp, a, pathDeltaVector, sunDir, tParams, n),
                       AngleCos(m, Sub(b, a), sunDir), Length(m, pathDeltaVector))
  }

  /** `GetPathScattering`: the shadow-skipping accumulation loop. */
  method GetPathScattering(m: Libm, a: Vector3, b: Vector3, sunDir: Vector3, pp: PlanetProperties,
                           tParams: IntegrationParameters, params: IntegrationParams)
    returns (scattering: Vector3)
    requires CanScatter(m, pp, a, b, sunDir, tParams, params)
    ensures scattering == PathScattering(m, pp, a, b, sunDir, tParams, params)
  {
    var path := Sub(b, a);
    var pathDeltaVector := Div(path, params.sampleCount as real);
    var pathDelta := Length(m, pathDeltaVector);
    var firstViewPathPoint := Add(a, Div(pathDeltaVector, 2.0));

    var viewSunCos := AngleCos(m, path, sunDir);

    var rayleighScattering := Zero;
    var mieScattering := Zero;
    for i := 0 to params.sampleCount
      invariant rayleighScattering == RayleighScatteringSum(m, pp, a, pathDeltaVector, sunDir, tParams, i)
      invariant mieScattering == MieScatteringSum(m, pp, a, pathDeltaVector, sunDir, tParams, i)
    {
      var viewPathPoint := Add(firstViewPathPoint, Scale(pathDeltaVector, i as real));
      assert viewPathPoint == SamplePoint(a, pathDeltaVector, i);
      assert SunRaysLeave(m, pp, a, pathDeltaVector, sunDir, i + 1);
      var transmittanceToViewEnterPoint := GetPathTransmittance(m, viewPathPoint, a, pp, tParams);

      var sunBlockedByPlanet := RayCircleIntersection(m, viewPathPoint, sunDir, pp.GetPlanetRadius());
      if sunBlockedByPlanet.Some? {
        continue;
      }
      assert SunRayLeaves(m, pp, SamplePoint(a, pathDeltaVector, i), sunDir);

      var sunPathEnterPoint := RayCircleIntersection(m, viewPathPoint, sunDir, pp.GetAtmosphereRadius()).value;
      var transmittanceToSunEnterPoint := GetPathTransmittance(m, viewPathPoint, sunPathEnterPoint, pp, tParams);

      var lightPathTransmittance := Mul(transmittanceToSunEnterPoint, transmittanceToViewEnterPoint);
      var pointRadius := Length(m, viewPathPoint);

      rayleighScattering := AddAssign(rayleighScattering,
        Scale(lightPathTransmittance, pp.RayleighDensityRadius(m, pointRadius)));
      mieScattering := AddAssign(mieScattering,
        Scale(lightPathTransmittance, pp.MieDensityRadius(m, pointRadius)));
    }

    scattering := Add(Mul(Scale(rayleighScattering, pp.RayleighPhaseCos(viewSunCos)), pp.GetRayleighScatteringCoef()),
                      Mul(Scale(mieScattering, pp.MiePhaseCos(m, viewSunCos)), pp.GetMieScatteringCoef()));
    scattering := ScaleAssign(scattering, pathDelta);
  }

  /** Every sample among the first k is in the planet's shadow. */
  predicate AllShadowed(m: Libm, pp: PlanetProperties, a: Vector3, pathDelta: Vector3, sunDir: Vector3, k: nat)
    reads pp
  {
    forall i {:trigger SunBlocked(m, pp, SamplePoint(a, pathDelta, i), sunDir)} ::
      0 <= i < k ==> SunBlocked(m, pp, SamplePoint(a, pathDelta, i), sunDir)
  }

  lemma {:induction false} ShadowedSumsVanish(m: Libm, pp: PlanetProperties, a: Vector3, pathDelta: Vector3,
                                              sunDir: Vector3, tParams: IntegrationParameters, k: nat)
    requires CanIntegrate(pp, tParams) && AllShadowed(m, pp, a, pathDelta, sunDir, k)
    ensures SunRaysLeave(m, pp, a, pathDelta, sunDir, k)
    ensures RayleighScatteringSum(m, pp, a, pathDelta, sunDir, tParams, k) == Zero
    ensures MieScatteringSum(m, pp, a, pathDelta, sunDir, tParams, k) == Zero
  {
    if k > 0 {
      ShadowedSumsVanish(m, pp, a, pathDelta, sunDir, tParams, k - 1);
    }
  }

  /** If the planet shadows every sample, no light is scattered. */
  lemma AllShadowedGivesZero(m: Libm, pp: PlanetProperties, a: Vector3, b: Vector3, sunDir: Vector3,
                             tParams: IntegrationParameters, params: IntegrationParams)
    requires CanScatter(m, pp, a, b, sunDir, tParams, params)
    requires AllShadowed(m, pp, a, Div(Sub(b, a), params.sampleCount as real), sunDir, params.sampleCount)
    ensures PathScattering(m, pp, a, b, sunDir, tParams, params) == Zero
  {
    var n := params.sampleCount;
    var pathDelta := Div(Sub(b, a), n as real);
    ShadowedSumsVanish(m, pp, a, pathDelta, sunDir, tParams, n);
    ZeroSumsScatterNothing(m, pp, AngleCos(m, Sub(b, a), sunDir), Length(m, pathDelta));
  }

  /** A sample point of a path that starts strictly inside the atmosphere
      and ends inside or on its boundary lies strictly inside, so its sun ray
      leaves the atmosphere. */
  lemma SampleSunRayLeaves(m: Libm, pp: PlanetProperties, a: Vector3, b: Vector3, sunDir: Vector3,
                           n: nat, i: nat)
    requires SqrtLaws(m) && i < n && Dot(sunDir, sunDir) > 0.0
    requires Dot(a, a) < pp.GetAtmosphereRadius() * pp.GetAtmosphereRadius()
    requires Dot(b, b) <= pp.GetAtmosphereRadius() * pp.GetAtmosphereRadius()
    ensures SunRayLeaves(m, pp, SamplePoint(a, Div(Sub(b, a), n as real), i), sunDir)
  {
    var ra := pp.GetAtmosphereRadius();
    var s := (i as real + 0.5) / n as real;
    SamplePointIsMidpoint(a, b, n, i);
    MidpointParameterInside(n, i);
    SegmentStaysInside(a, b, s, ra);
    RayCircleIntersectionFromInside(m, SamplePoint(a, Div(Sub(b, a), n as real), i), sunDir, ra);
  }

  /** When the path starts strictly inside the atmosphere and ends inside or
      on its boundary, every sun ray leaves the atmosphere: the unchecked
      `.value()` never fails. */
  lemma SunRaysLeaveFromInside(m: Libm, pp: PlanetProperties, a: Vector3, b: Vector3, sunDir: Vector3, n: nat)
    requires SqrtLaws(m) && n >= 1 && Dot(sunDir, sunDir) > 0.0
    requires Dot(a, a) < pp.GetAtmosphereRadius() * pp.GetAtmosphereRadius()
    requires Dot(b, b) <= pp.GetAtmosphereRadius() * pp.GetAtmosphereRadius()
    ensures SunRaysLeave(m, pp, a, Div(Sub(b, a), n as real), sunDir, n)
  {
    var pathDelta := Div(Sub(b, a), n as real);
    forall i: nat | i < n
      ensures SunRayLeaves(m, pp, SamplePoint(a, pathDelta, i), sunDir)
    {
      SampleSunRayLeaves(m, pp, a, b, sunDir, n, i);
    }
  }

  /** For a physical planet, a path of non-zero length that starts strictly
      inside the atmosphere and ends inside or on its top, and a non-zero sun
      direction, `GetPathScattering` is well defined: every requirement of
      `CanScatter` holds. */
  lemma CanScatterInsideAtmosphere(m: Libm, pp: PlanetProperties, a: Vector3, b: Vector3, sunDir: Vector3,
                                   tParams: IntegrationParameters, params: IntegrationParams)
    requires SqrtLaws(m) && PowPositive(m) && pp.Physical()
    requires tParams.sampleCount >= 1 && params.sampleCount >= 1
    requires Dot(sunDir, sunDir) > 0.0 && a != b
    requires Dot(a, a) < pp.GetAtmosphereRadius() * pp.GetAtmosphereRadius()
    requires Dot(b, b) <= pp.GetAtmosphereRadius() * pp.GetAtmosphereRadius()
    ensures CanScatter(m, pp, a, b, sunDir, tParams, params)
  {
    SunRaysLeaveFromInside(m, pp, a, b, sunDir, params.sampleCount);
    var path := Sub(b, a);
    assert path != Zero;
    DotSelfPositive(path);
    AngleCosIsCosine(m, path, sunDir);
    pp.MiePhaseCosPositive(m, AngleCos(m, path, sunDir));
  }
}
