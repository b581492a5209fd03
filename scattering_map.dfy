/** The single-scattering table builder of Scattering/ScatteringMap.hpp: cell
    (i, j) of a 2D texture holds the light scattered towards a viewer 95% of
    the atmosphere height above the ground who looks in the direction of the
    view zenith cosine of column j, with the sun in the direction of the sun
    zenith cosine of row i. The texture coordinates are turned into cosines
    by a linear or a cubic mapping. */
module ScatteringMaps {
  import opened MathLib
  import opened Wrappers
  import opened Vec3
  import opened Planet
  import opened Transmittance
  import opened Scattering
  import opened Textures
  import opened ViewPaths

  /** The viewer's height, as a fraction of the atmosphere height. */
  const ViewStartFraction: real := 0.95

  datatype Mapping = Linear | Cubic

  /** `UToViewZenithCos`: u in [0, 1] to a view zenith cosine in [-1, 0]
      (the viewer looks downwards), as -u or -u^3. */
  function UToViewZenithCos(m: Libm, mapping: Mapping, u: real): real {
    match mapping
    case Linear => -u
    case Cubic => -m.powf(u, 3.0)
  }

  /** `ViewZenithCosToU`: -cos, or -cos^(1/3) for the cubic mapping. */
  function ViewZenithCosToU(m: Libm, mapping: Mapping, viewZenithCos: real): real {
    match mapping
    case Linear => -viewZenithCos
    case Cubic => -m.powf(viewZenithCos, 1.0 / 3.0)
  }

  /** `VToSunZenithCos`: v in [0, 1] to a sun zenith cosine from 1 down to
      -1; only the linear mapping has a case, any other falls through to 0. */
  function VToSunZenithCos(mapping: Mapping, v: real): real {
    match mapping
    case Linear => 1.0 - 2.0 * v
    case Cubic => 0.0
  }

  /** `SunZenithCosToV`: the inverse of the linear sun mapping; any other
      mapping falls through to 0. */
  function SunZenithCosToV(mapping: Mapping, sunZenithCos: real): real {
    match mapping
    case Linear => (1.0 - sunZenithCos) / 2.0
    case Cubic => 0.0
  }

  /** `WToSunAzimuthCos`: w in [0, 1] to an azimuth cosine from 1 to -1. */
  function WToSunAzimuthCos(w: real): real {
    1.0 - 2.0 * w
  }

  /** `SunAzimuthCosToW` */
  function SunAzimuthCosToW(sunAzimuthCos: real): real {
    (1.0 - sunAzimuthCos) / 2.0
  }

  /** The linear view mapping and its inverse undo each other, and the
      mapping takes [0, 1] exactly onto [-1, 0]. */
  lemma LinearViewMapping(m: Libm, u: real, viewZenithCos: real)
    ensures ViewZenithCosToU(m, Linear, UToViewZenithCos(m, Linear, u)) == u
    ensures UToViewZenithCos(m, Linear, ViewZenithCosToU(m, Linear, viewZenithCos)) == viewZenithCos
    ensures 0.0 <= u <= 1.0 <==> -1.0 <= UToViewZenithCos(m, Linear, u) <= 0.0
  {
  }

  /** The cubic view mapping takes [0, 1] into [-1, 0] and never increases. */
  lemma CubicViewMapping(m: Libm, u1: real, u2: real)
    requires PowCube(m)
    ensures 0.0 <= u1 <= 1.0 ==> -1.0 <= UToViewZenithCos(m, Cubic, u1) <= 0.0
    ensures 0.0 <= u1 <= u2 ==> UToViewZenithCos(m, Cubic, u2) <= UToViewZenithCos(m, Cubic, u1)
  {
    if 0.0 <= u1 <= 1.0 {
      CubeInUnitInterval(u1);
    }
    if 0.0 <= u1 <= u2 {
      CubeMono(u1, u2);
    }
  }

  /** The linear sun mapping and its inverse undo each other, and the
      mapping takes [0, 1] exactly onto [-1, 1], from 1 down to -1. */
  lemma LinearSunMapping(v: real, sunZenithCos: real)
    ensures SunZenithCosToV(Linear, VToSunZenithCos(Linear, v)) == v
    ensures VToSunZenithCos(Linear, SunZenithCosToV(Linear, sunZenithCos)) == sunZenithCos
    ensures 0.0 <= v <= 1.0 <==> -1.0 <= VToSunZenithCos(Linear, v) <= 1.0
    ensures VToSunZenithCos(Linear, 0.0) == 1.0 && VToSunZenithCos(Linear, 1.0) == -1.0
  {
  }

  /** The cubic sun mappings have no case and fall through to 0. */
  lemma CubicSunMappingFallsThrough(v: real, sunZenithCos: real)
    ensures VToSunZenithCos(Cubic, v) == 0.0 && SunZenithCosToV(Cubic, sunZenithCos) == 0.0
  {
  }

  /** The azimuth mapping and its inverse undo each other. */
  lemma SunAzimuthMapping(w: real, sunAzimuthCos: real)
    ensures SunAzimuthCosToW(WToSunAzimuthCos(w)) == w
    ensures WToSunAzimuthCos(SunAzimuthCosToW(sunAzimuthCos)) == sunAzimuthCos
    ensures 0.0 <= w <= 1.0 <==> -1.0 <= WToSunAzimuthCos(w) <= 1.0
  {
  }

  /** The view path has an end that `GetPathScattering` accepts, or none. */
  predicate ViewPathScatters(m: Libm, pp: PlanetProperties, tParams: IntegrationParameters,
                             sParams: IntegrationParams, viewDir: Vector3, sunDir: Vector3)
    reads pp
  {
    var start := PathStart(pp, ViewStartFraction);
    match PathEnd(m, pp, start, viewDir)
    case None => true
    case Some(end) => CanScatter(m, pp, start, end, sunDir, tParams, sParams)
  }

  /** `Calculate` as a function of its directions: the light scattered
      along the view path, or `None` for the `throw;` when it has no end. */
  function ScatteringTowards(m: Libm, pp: PlanetProperties, tParams: IntegrationParameters,
                             sParams: IntegrationParams, viewDir: Vector3, sunDir: Vector3): Option<Vector3>
    reads pp
    requires ViewPathScatters(m, pp, tParams, sParams, viewDir, sunDir)
  {
    var start := PathStart(pp, ViewStartFraction);
    match PathEnd(m, pp, start, viewDir)
    case None => None
    case Some(end) => Some(PathScattering(m, pp, start, end, sunDir, tParams, sParams))
  }

  /** For a physical planet and non-zero directions the view path always
      has an end, and `GetPathScattering` accepts it. */
  lemma ScatteringTowardsDefined(m: Libm, pp: PlanetProperties, tParams: IntegrationParameters,
                                 sParams: IntegrationParams, viewDir: Vector3, sunDir: Vector3)
    requires SqrtLaws(m) && PowPositive(m) && pp.Physical()
    requires tParams.sampleCount >= 1 && sParams.sampleCount >= 1
    requires Dot(viewDir, viewDir) > 0.0 && Dot(sunDir, sunDir) > 0.0
    ensures ViewPathScatters(m, pp, tParams, sParams, viewDir, sunDir)
    ensures ScatteringTowards(m, pp, tParams, sParams, viewDir, sunDir).Some?
  {
    var start := PathStart(pp, ViewStartFraction);
    PathStartInsideShell(pp, ViewStartFraction);
    PathEndFromShell(m, pp, start, viewDir);
    var end := PathEnd(m, pp, start, viewDir).value;
    CanScatterInsideAtmosphere(m, pp, start, end, sunDir, tParams, sParams);
  }

  class ScatteringMap {
    /** The builder's own copy of the planet properties. */
    const pp: PlanetProperties
    const tex: Texture2D
    const tParams: IntegrationParameters
    const sParams: IntegrationParams

    /** `ScatteringMap(viewZenithCosResolution, sunZenithCosResolution, ...)`:
        one row per sun zenith cosine, one column per view zenith cosine. */
    constructor (viewZenithCosResolution: nat, sunZenithCosResolution: nat, planetProperties: PlanetProperties,
                 tParams: IntegrationParameters, sParams: IntegrationParams)
      ensures fresh(pp) && pp.Current() == planetProperties.Current()
      ensures tex.Valid() && tex.columns == viewZenithCosResolution && tex.vResolution == sunZenithCosResolution
      ensures forall i :: 0 <= i < tex.vResolution ==> fresh(tex.rows[i].data)
      ensures forall i, j :: 0 <= i < tex.vResolution && 0 <= j < tex.columns ==> tex.rows[i].data[j] == Zero
      ensures this.tParams == tParams && this.sParams == sParams
    {
      tex := new Texture2D(viewZenithCosResolution, sunZenithCosResolution);
      pp := new PlanetProperties.Copy(planetProperties);
      this.tParams := tParams;
      this.sParams := sParams;
    }

    /** `Calculate`: the view path ends at the ground if it meets it,
        otherwise at the top of the atmosphere, otherwise at the fatal
        `throw;` (`None`). */
    method Calculate(m: Libm, viewZenithCos: real, sunZenithCos: real) returns (r: Option<Vector3>)
      requires ViewPathScatters(m, pp, tParams, sParams, ZenithDirection(m, viewZenithCos),
                                ZenithDirection(m, sunZenithCos))
      ensures r == ScatteringTowards(m, pp, tParams, sParams, ZenithDirection(m, viewZenithCos),
                                     ZenithDirection(m, sunZenithCos))
    {
      var viewZenithSin := m.sinf(m.acosf(viewZenithCos));
      var sunZenithSin := m.sinf(m.acosf(sunZenithCos));

      var viewDir := Vector3(viewZenithSin, viewZenithCos, 0.0);
      var sunDir := Vector3(sunZenithSin, sunZenithCos, 0.0);

      var viewPathEnterPoint := Vector3(0.0, pp.GetPlanetRadius() + pp.GetAtmosphereHeight() * ViewStartFraction, 0.0);
      var viewPathExitPoint: Vector3;

      var planetTest := RayCircleIntersection(m, viewPathEnterPoint, viewDir, pp.GetPlanetRadius());
      if planetTest.Some? {
        viewPathExitPoint := planetTest.value;
      } else {
        var atmoTest := RayCircleIntersection(m, viewPathEnterPoint, viewDir, pp.GetAtmosphereRadius());
        if atmoTest.Some? {
          viewPathExitPoint := atmoTest.value;
        } else {
          return None;
        }
      }

      var scattering := GetPathScattering(m, viewPathEnterPoint, viewPathExitPoint, sunDir, pp, tParams, sParams);
      return Some(scattering);
    }

    /** The view zenith cosine of column j. */
    function ViewZenithCosOf(m: Libm, viewZenithMapping: Mapping, j: nat): real
      requires tex.Valid() && tex.vResolution > 0 && j < tex.columns
    {
      UToViewZenithCos(m, viewZenithMapping, tex.IndexToU(j))
    }

    /** The sun zenith cosine of row i. */
    function SunZenithCosOf(sunZenithMapping: Mapping, i: nat): real
      requires i < tex.vResolution
    {
      VToSunZenithCos(sunZenithMapping, tex.IndexToV(i))
    }

    /** Cell (i, j) is computed without reaching a `throw;` or an unmet
        requirement of `GetPathScattering`. */
    predicate CellDefined(m: Libm, viewZenithMapping: Mapping, sunZenithMapping: Mapping, i: nat, j: nat)
      reads pp
      requires tex.Valid() && i < tex.vResolution && j < tex.columns
    {
      var viewDir := ZenithDirection(m, ViewZenithCosOf(m, viewZenithMapping, j));
      var sunDir := ZenithDirection(m, SunZenithCosOf(sunZenithMapping, i));
      ViewPathScatters(m, pp, tParams, sParams, viewDir, sunDir)
        && ScatteringTowards(m, pp, tParams, sParams, viewDir, sunDir).Some?
    }

    /** What cell (i, j) receives. */
    function Cell(m: Libm, viewZenithMapping: Mapping, sunZenithMapping: Mapping, i: nat, j: nat): Vector3
      reads pp
      requires tex.Valid() && i < tex.vResolution && j < tex.columns
      requires CellDefined(m, viewZenithMapping, sunZenithMapping, i, j)
    {
      ScatteringTowards(m, pp, tParams, sParams,
                        ZenithDirection(m, ViewZenithCosOf(m, viewZenithMapping, j)),
                        ZenithDirection(m, SunZenithCosOf(sunZenithMapping, i))).value
    }

    ghost predicate CellsDefined(m: Libm, viewZenithMapping: Mapping, sunZenithMapping: Mapping)
      reads pp
      requires tex.Valid()
    {
      forall i, j :: 0 <= i < tex.vResolution && 0 <= j < tex.columns ==>
        CellDefined(m, viewZenithMapping, sunZenithMapping, i, j)
    }

    /** Every row and column stands for a cosine in [-1, 1], so for a
        physical planet every cell is defined. */
    lemma CellsDefinedForPhysicalPlanet(m: Libm, viewZenithMapping: Mapping, sunZenithMapping: Mapping)
      requires SqrtLaws(m) && TrigLaws(m) && PowPositive(m) && PowCube(m)
      requires pp.Physical() && tParams.sampleCount >= 1 && sParams.sampleCount >= 1
      requires tex.Valid()
      ensures CellsDefined(m, viewZenithMapping, sunZenithMapping)
    {
      forall i, j | 0 <= i < tex.vResolution && 0 <= j < tex.columns
        ensures CellDefined(m, viewZenithMapping, sunZenithMapping, i, j)
      {
        var viewZenithCos := ViewZenithCosOf(m, viewZenithMapping, j);
        var sunZenithCos := SunZenithCosOf(sunZenithMapping, i);
        LinearViewMapping(m, tex.IndexToU(j), viewZenithCos);
        CubicViewMapping(m, tex.IndexToU(j), tex.IndexToU(j));
        LinearSunMapping(tex.IndexToV(i), sunZenithCos);
        ZenithDirectionIsUnit(m, viewZenithCos);
        ZenithDirectionIsUnit(m, sunZenithCos);
        ScatteringTowardsDefined(m, pp, tParams, sParams,
                                 ZenithDirection(m, viewZenithCos), ZenithDirection(m, sunZenithCos));
      }
    }

    /** `Compute`: every cell (i, j) is overwritten with the value for the
        sun zenith cosine of row i and the view zenith cosine of column j. */
    method Compute(m: Libm, viewZenithMapping: Mapping, sunZenithMapping: Mapping)
      requires tex.Valid() && CellsDefined(m, viewZenithMapping, sunZenithMapping)
      modifies RowArrays(tex.rows)
      ensures forall i, j :: 0 <= i < tex.vResolution && 0 <= j < tex.columns ==>
        tex.rows[i].data[j] == Cell(m, viewZenithMapping, sunZenithMapping, i, j)
    {
      for i := 0 to tex.vResolution
        invariant forall k, j :: 0 <= k < i && 0 <= j < tex.columns ==>
          tex.rows[k].data[j] == Cell(m, viewZenithMapping, sunZenithMapping, k, j)
      {
        ComputeRow(m, viewZenithMapping, sunZenithMapping, i);
      }
    }

    /** The body of the row loop of `Compute`: the sun zenith cosine of row
        i, then every cell of the row. The frame leaves every other row
        unchanged, as no two rows share an array. */
    method ComputeRow(m: Libm, viewZenithMapping: Mapping, sunZenithMapping: Mapping, i: nat)
      requires tex.Valid() && i < tex.vResolution && CellsDefined(m, viewZenithMapping, sunZenithMapping)
      modifies tex.rows[i].data
      ensures forall j :: 0 <= j < tex.columns ==>
        tex.rows[i].data[j] == Cell(m, viewZenithMapping, sunZenithMapping, i, j)
    {
      var v := tex.IndexToV(i);
      var sunZenithCos := VToSunZenithCos(sunZenithMapping, v);

      for j := 0 to tex.GetUResolution()
        invariant forall l :: 0 <= l < j ==>
          tex.rows[i].data[l] == Cell(m, viewZenithMapping, sunZenithMapping, i, l)
      {
        assert CellDefined(m, viewZenithMapping, sunZenithMapping, i, j);
        ComputeCell(m, viewZenithMapping, sunZenithMapping, sunZenithCos, i, j);
      }
    }

    /** The body of the column loop of `Compute`: the view zenith cosine of
        column j, then `tex[i][j] = Calculate(...)`; only that cell changes. */
    method ComputeCell(m: Libm, viewZenithMapping: Mapping, sunZenithMapping: Mapping,
                       sunZenithCos: real, i: nat, j: nat)
      requires tex.Valid() && i < tex.vResolution && j < tex.columns
      requires CellDefined(m, viewZenithMapping, sunZenithMapping, i, j)
      requires sunZenithCos == SunZenithCosOf(sunZenithMapping, i)
      modifies tex.rows[i].data
      ensures tex.rows[i].data[..] == old(tex.rows[i].data[..])[j := Cell(m, viewZenithMapping, sunZenithMapping, i, j)]
    {
      var u := tex.IndexToU(j);
      var viewZenithCos := UToViewZenithCos(m, viewZenithMapping, u);
      var value := Calculate(m, viewZenithCos, sunZenithCos);
      tex.Set(i, j, value.value);
    }
  }
}
