/** The transmittance table builder of Scattering/TransmittanceMap.hpp: cell
    i of a 1D texture holds the transmittance along the path that starts 1%
    of the atmosphere height above the ground and runs in the direction
    whose zenith cosine is the cell centre u, up to the ground or the top of
    the atmosphere. */
module TransmittanceMaps {
  import opened MathLib
  import opened Wrappers
  import opened Vec3
  import opened Planet
  import opened Transmittance
  import opened Textures
  import opened ViewPaths

  /** The path start, as a fraction of the atmosphere height. */
  const StartFraction: real := 0.01

  /** `UToZenithCos`: the identity. */
  function UToZenithCos(u: real): real {
    u
  }

  /** `ZenithCosToU`: the identity. */
  function ZenithCosToU(zenithCos: real): real {
    zenithCos
  }

  /** The two mappings are mutual inverses. */
  lemma ZenithCosMappingRoundTrip(u: real, zenithCos: real)
    ensures ZenithCosToU(UToZenithCos(u)) == u
    ensures UToZenithCos(ZenithCosToU(zenithCos)) == zenithCos
  {
  }

  /** `CalculateUsingDirection` as a function of its inputs: the
      transmittance from the path start to the path end, or `None` for the
      `throw;` when the path has no end. */
  function TransmittanceTowards(m: Libm, pp: PlanetProperties, params: IntegrationParameters,
                                dir: Vector3): Option<Vector3>
    reads pp
    requires CanIntegrate(pp, params)
  {
    var start := PathStart(pp, StartFraction);
    match PathEnd(m, pp, start, dir)
    case None => None
    case Some(end) => Some(PathTransmittance(m, pp, start, end, params))
  }

  /** For a physical planet every unit direction yields a transmittance,
      and with non-negative extinction coefficients each of its channels
      lies in (0, 1]. */
  lemma TransmittanceTowardsDefined(m: Libm, pp: PlanetProperties, params: IntegrationParameters,
                                    dir: Vector3)
    requires ExpLaws(m) && SqrtLaws(m) && pp.Physical() && params.sampleCount >= 1
    requires Dot(dir, dir) > 0.0
    ensures TransmittanceTowards(m, pp, params, dir).Some?
    ensures NonNegative(pp.rayleighExtinctionCoef) && NonNegative(pp.mieExtinctionCoef) ==>
      var t := TransmittanceTowards(m, pp, params, dir).value;
      0.0 < t.x <= 1.0 && 0.0 < t.y <= 1.0 && 0.0 < t.z <= 1.0
  {
    var start := PathStart(pp, StartFraction);
    PathStartInsideShell(pp, StartFraction);
    PathEndFromShell(m, pp, start, dir);
    var end := PathEnd(m, pp, start, dir).value;
    if NonNegative(pp.rayleighExtinctionCoef) && NonNegative(pp.mieExtinctionCoef) {
      TransmittanceInUnitInterval(m, pp, start, end, params);
    }
  }

  class TransmittanceMap {
    /** The builder's own copy of the planet properties. */
    const pp: PlanetProperties
    const tex: Texture1D
    const params: IntegrationParameters

    /** `TransmittanceMap(resolution, planetProperties, params)`: copies
        the properties and creates a zero texture of `resolution` cells. */
    constructor (resolution: nat, planetProperties: PlanetProperties, params: IntegrationParameters)
      ensures fresh(pp) && pp.Current() == planetProperties.Current()
      ensures fresh(tex) && fresh(tex.data) && tex.Valid() && tex.uResolution == resolution
      ensures forall i :: 0 <= i < tex.data.Length ==> tex.data[i] == Zero
      ensures this.params == params
    {
      pp := new PlanetProperties.Copy(planetProperties);
      tex := new Texture1D(resolution);
      this.params := params;
    }

    /** `CalculateUsingDirection`: the ground hit if there is one, otherwise
        the atmosphere exit, otherwise the fatal `throw;` (`None`). */
    method CalculateUsingDirection(m: Libm, dir: Vector3) returns (r: Option<Vector3>)
      requires CanIntegrate(pp, params)
      ensures r == TransmittanceTowards(m, pp, params, dir)
    {
      var pathEnterPoint := Vector3(0.0, pp.GetPlanetRadius() + pp.GetAtmosphereHeight() * StartFraction, 0.0);
      var pathExitPoint: Vector3;
      var planetTest := RayCircleIntersection(m, pathEnterPoint, dir, pp.GetPlanetRadius());
      if planetTest.Some? {
        pathExitPoint := planetTest.value;
      } else {
        var atmoTest := RayCircleIntersection(m, pathEnterPoint, dir, pp.GetAtmosphereRadius());
        if atmoTest.Some? {
          pathExitPoint := atmoTest.value;
        } else {
          return None;
        }
      }
      assert pathEnterPoint == PathStart(pp, StartFraction);
      assert PathEnd(m, pp, pathEnterPoint, dir) == Some(pathExitPoint);
      var transmittance := GetPathTransmittance(m, pathEnterPoint, pathExitPoint, pp, params);
      return Some(transmittance);
    }

    /** `CalculateUsingZenithCos`: the direction of the zenith cosine. */
    method CalculateUsingZenithCos(m: Libm, zenithCos: real) returns (r: Option<Vector3>)
      requires CanIntegrate(pp, params)
      ensures r == TransmittanceTowards(m, pp, params, ZenithDirection(m, zenithCos))
    {
      var zenithSin := m.sinf(m.acosf(zenithCos));
      var dir := Vector3(zenithSin, zenithCos, 0.0);
      r := CalculateUsingDirection(m, dir);
    }

    /** What cell i receives: the value for the zenith cosine of its centre. */
    function Cell(m: Libm, i: nat): Option<Vector3>
      reads pp
      requires CanIntegrate(pp, params) && i < tex.uResolution
    {
      TransmittanceTowards(m, pp, params, ZenithDirection(m, UToZenithCos(tex.IndexToU(i))))
    }

    /** No cell reaches the `throw;`. */
    predicate CellsDefined(m: Libm)
      reads pp
    {
      CanIntegrate(pp, params) && forall i :: 0 <= i < tex.uResolution ==> Cell(m, i).Some?
    }

    /** Every cell centre stands for a zenith cosine strictly inside (0, 1). */
    lemma CellZenithCosInside(i: nat)
      requires i < tex.uResolution
      ensures 0.0 < UToZenithCos(tex.IndexToU(i)) < 1.0
    {
    }

    /** For a physical planet no cell reaches the `throw;`, and with
        non-negative extinction coefficients every cell lies in (0, 1]. */
    lemma CellsDefinedForPhysicalPlanet(m: Libm)
      requires ExpLaws(m) && SqrtLaws(m) && TrigLaws(m) && pp.Physical() && params.sampleCount >= 1
      ensures CellsDefined(m)
      ensures NonNegative(pp.rayleighExtinctionCoef) && NonNegative(pp.mieExtinctionCoef) ==>
        forall i :: 0 <= i < tex.uResolution ==>
          var t := Cell(m, i).value;
          0.0 < t.x <= 1.0 && 0.0 < t.y <= 1.0 && 0.0 < t.z <= 1.0
    {
      forall i | 0 <= i < tex.uResolution
        ensures Cell(m, i).Some?
        ensures NonNegative(pp.rayleighExtinctionCoef) && NonNegative(pp.mieExtinctionCoef) ==>
          var t := Cell(m, i).value;
          0.0 < t.x <= 1.0 && 0.0 < t.y <= 1.0 && 0.0 < t.z <= 1.0
      {
        var zenithCos := UToZenithCos(tex.IndexToU(i));
        ZenithDirectionIsUnit(m, zenithCos);
        TransmittanceTowardsDefined(m, pp, params, ZenithDirection(m, zenithCos));
      }
    }

    /** `Compute`: every cell is overwritten with the value for its own
        centre; the resolution stays as it was. */
    method Compute(m: Libm)
      requires tex.Valid() && CellsDefined(m)
      modifies tex.data
      ensures tex.Valid()
      ensures forall i :: 0 <= i < tex.uResolution ==> tex.data[i] == Cell(m, i).value
    {
      for i := 0 to tex.uResolution
        invariant forall k :: 0 <= k < i ==> tex.data[k] == Cell(m, k).value
      {
        var u := tex.IndexToU(i);
        var zenithCos := UToZenithCos(u);
        var value := CalculateUsingZenithCos(m, zenithCos);
        assert value == Cell(m, i);
        tex.Set(i, value.value);
      }
    }
  }
}
