/** The ground irradiance table builder of Scattering/IrradianceMap.hpp: cell
    i of a 1D texture accumulates, over a set of random directions of the
    upper hemisphere, the light scattered along the path from a point 1% of
    the atmosphere height above the ground to the top of the atmosphere, each
    weighted by the solid angle 2 pi / samples, with the sun in the direction
    whose zenith cosine is 1 - 2u for the cell centre u. The random engine is
    replaced by the sequence of uniform draws it would have produced. */
module IrradianceMaps {
  import opened MathLib
  import opened Wrappers
  import opened Vec3
  import opened Planet
  import opened Transmittance
  import opened Scattering
  import opened Textures
  import opened ViewPaths
  import Vec2

  /** The default number of hemisphere samples. */
  const DefaultSemisphereSamples: int := 512

  /** The path start, as a fraction of the atmosphere height. */
  const StartFraction: real := 0.01

  /** `UToZenithCos`: u in [0, 1] to a zenith cosine from 1 down to -1. */
  function UToZenithCos(u: real): real {
    1.0 - 2.0 * u
  }

  /** `ZenithCosToU` */
  function ZenithCosToU(zenithCos: real): real {
    (1.0 - zenithCos) / 2.0
  }

  /** The two mappings are mutual inverses, and the first takes [0, 1]
      exactly onto [-1, 1], the noon sun at u = 0. */
  lemma ZenithCosMapping(u: real, zenithCos: real)
    ensures ZenithCosToU(UToZenithCos(u)) == u
    ensures UToZenithCos(ZenithCosToU(zenithCos)) == zenithCos
    ensures 0.0 <= u <= 1.0 <==> -1.0 <= UToZenithCos(u) <= 1.0
    ensures UToZenithCos(0.0) == 1.0 && UToZenithCos(1.0) == -1.0
  {
  }

  /** The two uniform draws in [0, 1) that `UniformSemispherePoint` takes
      from the engine, in the order it takes them. */
  datatype SemisphereDraw = SemisphereDraw(azimuthDraw: real, zenithDraw: real)

  /** `UniformSemispherePoint`: azimuth 2 pi d1, zenith asin(sqrt(d2)). */
  function UniformSemispherePoint(m: Libm, draw: SemisphereDraw): Vector3 {
    var azimuth := 2.0 * Vec2.Pi * draw.azimuthDraw;
    var zenith := m.asinf(m.sqrtf(draw.zenithDraw));
    Vector3(m.sinf(zenith) * m.cosf(azimuth), m.cosf(zenith), m.sinf(zenith) * m.sinf(azimuth))
  }

  /** Every generated point is a unit vector, whatever the draws. */
  lemma SemispherePointIsUnit(m: Libm, draw: SemisphereDraw)
    requires TrigLaws(m)
    ensures Dot(UniformSemispherePoint(m, draw), UniformSemispherePoint(m, draw)) == 1.0
  {
    var azimuth := 2.0 * Vec2.Pi * draw.azimuthDraw;
    var zenith := m.asinf(m.sqrtf(draw.zenithDraw));
    var s, c := m.sinf(zenith), m.cosf(zenith);
    var sa, ca := m.sinf(azimuth), m.cosf(azimuth);
    calc {
      Dot(UniformSemispherePoint(m, draw), UniformSemispherePoint(m, draw));
    ==
      s * ca * (s * ca) + c * c + s * sa * (s * sa);
    ==
      s * s * (sa * sa + ca * ca) + c * c;
    ==
      s * s + c * c;
    ==
      1.0;
    }
  }

  /** For a zenith draw d in [0, 1] the point lies in the upper hemisphere
      and the square of its zenith cosine is 1 - d. So the zenith cosine is
      not uniform in [0, 1] (as it is for directions uniform over the
      hemisphere): its square is, which makes the directions
      cosine-weighted. */
  lemma SemispherePointIsUpward(m: Libm, draw: SemisphereDraw)
    requires TrigLaws(m) && AsinLaws(m) && SqrtLaws(m)
    requires 0.0 <= draw.zenithDraw <= 1.0
    ensures UniformSemispherePoint(m, draw).y >= 0.0
    ensures UniformSemispherePoint(m, draw).y * UniformSemispherePoint(m, draw).y == 1.0 - draw.zenithDraw
  {
    var root := m.sqrtf(draw.zenithDraw);
    assert root >= 0.0 && root * root == draw.zenithDraw;
    if root > 1.0 {
      SquareStrictMono(1.0, root);
      assert false;
    }
    var zenith := m.asinf(root);
    assert m.sinf(zenith) == root && m.cosf(zenith) >= 0.0;
    calc {
      m.cosf(zenith) * m.cosf(zenith);
    ==
      1.0 - m.sinf(zenith) * m.sinf(zenith);
    ==
      1.0 - draw.zenithDraw;
    }
  }

  /** The directions generated from the draws, one per draw. */
  function Directions(m: Libm, draws: seq<SemisphereDraw>): (r: seq<Vector3>)
    ensures |r| == |draws|
    ensures forall i :: 0 <= i < |draws| ==> r[i] == UniformSemispherePoint(m, draws[i])
  {
    if |draws| == 0 then [] else Directions(m, draws[..|draws| - 1]) + [UniformSemispherePoint(m, draws[|draws| - 1])]
  }

  /** `GenerateSemisphereDirections(number)`: `number` points, one from
      each successive pair of draws. */
  method GenerateSemisphereDirections(m: Libm, number: int, draws: seq<SemisphereDraw>)
    returns (result: seq<Vector3>)
    requires |draws| == number
    ensures result == Directions(m, draws)
  {
    result := [];
    for i := 0 to number
      invariant result == Directions(m, draws[..i])
    {
      assert draws[..i + 1][..i] == draws[..i];
      result := result + [UniformSemispherePoint(m, draws[i])];
    }
    assert draws[..number] == draws;
  }

  /** What `Calculate` needs: the path from the start point along `dir`
      leaves the atmosphere (`.value()` is defined), and `GetPathScattering`
      accepts the path. */
  predicate CanGather(m: Libm, pp: PlanetProperties, tParams: IntegrationParameters,
                      sParams: IntegrationParams, dir: Vector3, sunDir: Vector3)
    reads pp
  {
    var start := PathStart(pp, StartFraction);
    var exit := RayCircleIntersection(m, start, dir, pp.GetAtmosphereRadius());
    exit.Some? && CanScatter(m, pp, start, exit.value, sunDir, tParams, sParams)
  }

  /** `Calculate` as a function of its directions: the light scattered
      along the path from the start point to the top of the atmosphere. */
  function Gathered(m: Libm, pp: PlanetProperties, tParams: IntegrationParameters,
                    sParams: IntegrationParams, dir: Vector3, sunDir: Vector3): Vector3
    reads pp
    requires CanGather(m, pp, tParams, sParams, dir, sunDir)
  {
    var start := PathStart(pp, StartFraction);
    PathScattering(m, pp, start, RayCircleIntersection(m, start, dir, pp.GetAtmosphereRadius()).value,
                   sunDir, tParams, sParams)
  }

  /** For a physical planet, every non-zero direction leaves the
      atmosphere at a point other than the start, and the path scatters. */
  lemma CanGatherInsideAtmosphere(m: Libm, pp: PlanetProperties, tParams: IntegrationParameters,
                                  sParams: IntegrationParams, dir: Vector3, sunDir: Vector3)
    requires SqrtLaws(m) && PowPositive(m) && pp.Physical()
    requires tParams.sampleCount >= 1 && sParams.sampleCount >= 1
    requires Dot(dir, dir) > 0.0 && Dot(sunDir, sunDir) > 0.0
    ensures CanGather(m, pp, tParams, sParams, dir, sunDir)
  {
    var start := PathStart(pp, StartFraction);
    var ra := pp.GetAtmosphereRadius();
    PathStartInsideShell(pp, StartFraction);
    RayCircleIntersectionFromInside(m, start, dir, ra);
    var exit := RayCircleIntersection(m, start, dir, ra).value;
    assert Dot(exit, exit) == ra * ra;
    assert Dot(start, start) < ra * ra;
    assert exit != start;
    CanScatterInsideAtmosphere(m, pp, start, exit, sunDir, tParams, sParams);
  }

  /** Every direction can be gathered under the given sun. */
  predicate AllGather(m: Libm, pp: PlanetProperties, tParams: IntegrationParameters,
                      sParams: IntegrationParams, dirs: seq<Vector3>, sunDir: Vector3)
    reads pp
  {
    forall k {:trigger CanGather(m, pp, tParams, sParams, dirs[k], sunDir)} :: 0 <= k < |dirs| ==> CanGather(m, pp, tParams, sParams, dirs[k], sunDir)
  }

  /** The light gathered along each direction, in order. */
  function Lights(m: Libm, pp: PlanetProperties, tParams: IntegrationParameters,
                  sParams: IntegrationParams, dirs: seq<Vector3>, sunDir: Vector3): (r: seq<Vector3>)
    reads pp
    requires AllGather(m, pp, tParams, sParams, dirs, sunDir)
    ensures |r| == |dirs|
    ensures forall k {:trigger Gathered(m, pp, tParams, sParams, dirs[k], sunDir)} :: 0 <= k < |dirs| ==> r[k] == Gathered(m, pp, tParams, sParams, dirs[k], sunDir)
  {
    seq(|dirs|, k requires 0 <= k < |dirs| && CanGather(m, pp, tParams, sParams, dirs[k], sunDir) reads pp =>
          Gathered(m, pp, tParams, sParams, dirs[k], sunDir))
  }

  /** The cell value after `tex[i] += light * dw` for each light in turn,
      starting from `start`. */
  function Accumulated(start: Vector3, lights: seq<Vector3>, dw: real): Vector3
    decreases |lights|
  {
    if |lights| == 0 then start
    else Add(Accumulated(start, lights[..|lights| - 1], dw), Scale(lights[|lights| - 1], dw))
  }

  /** The plain sum of the lights. */
  function LightSum(lights: seq<Vector3>): Vector3
    decreases |lights|
  {
    if |lights| == 0 then Zero else Add(lights[0], LightSum(lights[1..]))
  }

  /** Summing a light added at the end adds that light. */
  lemma {:induction false} LightSumSnoc(lights: seq<Vector3>, light: Vector3)
    ensures LightSum(lights + [light]) == Add(LightSum(lights), light)
  {
    if |lights| > 0 {
      assert (lights + [light])[1..] == lights[1..] + [light];
      LightSumSnoc(lights[1..], light);
    }
  }

  /** The accumulation is the Monte Carlo estimate: the start value plus dw
      times the sum of the lights. */
  lemma {:induction false} AccumulatedIsWeightedSum(start: Vector3, lights: seq<Vector3>, dw: real)
    ensures Accumulated(start, lights, dw) == Add(start, Scale(LightSum(lights), dw))
  {
    if |lights| > 0 {
      var n := |lights| - 1;
      AccumulatedIsWeightedSum(start, lights[..n], dw);
      LightSumSnoc(lights[..n], lights[n]);
      assert lights[..n] + [lights[n]] == lights;
      ScaleDistributes(LightSum(lights[..n]), lights[n], dw);
    }
  }

  /** The estimate is linear in the start value: a cell that already held
      a value keeps it and gets its increment on top (the texture is never
      cleared). A second `Compute` draws new directions and so adds its own
      estimate; only when it sees the same lights does the cell double. */
  lemma AccumulatedOnTop(start: Vector3, lights: seq<Vector3>, dw: real)
    ensures Accumulated(start, lights, dw) == Add(start, Accumulated(Zero, lights, dw))
    ensures Accumulated(Accumulated(Zero, lights, dw), lights, dw) == Scale(Accumulated(Zero, lights, dw), 2.0)
  {
    AccumulatedIsWeightedSum(start, lights, dw);
    AccumulatedIsWeightedSum(Zero, lights, dw);
    AccumulatedIsWeightedSum(Accumulated(Zero, lights, dw), lights, dw);
  }

  /** The solid angle each of `samples` directions stands for, 2 pi /
      samples. With no samples there is no direction to weight. */
  function SolidAngle(samples: int): (dw: real)
    ensures samples != 0 ==> dw * samples as real == 2.0 * Vec2.Pi
  {
    if samples == 0 then 0.0 else 2.0 * Vec2.Pi / samples as real
  }

  class IrradianceMap {
    /** The builder's own copy of the planet properties. */
    const pp: PlanetProperties
    const tex: Texture1D
    const semisphereSamples: int
    const tParams: IntegrationParameters
    const sParams: IntegrationParams

    /** `IrradianceMap(resolution, samples, planetProperties, ...)`. */
    constructor (resolution: nat, samples: int, planetProperties: PlanetProperties,
                 tParams: IntegrationParameters, sParams: IntegrationParams)
      ensures fresh(pp) && pp.Current() == planetProperties.Current()
      ensures fresh(tex) && fresh(tex.data) && tex.Valid() && tex.uResolution == resolution
      ensures forall i :: 0 <= i < tex.data.Length ==> tex.data[i] == Zero
      ensures semisphereSamples == samples && this.tParams == tParams && this.sParams == sParams
    {
      tex := new Texture1D(resolution);
      semisphereSamples := samples;
      pp := new PlanetProperties.Copy(planetProperties);
      this.tParams := tParams;
      this.sParams := sParams;
    }

    /** `Calculate`: the path from the start point along `dir` to the top
        of the atmosphere. */
    method Calculate(m: Libm, dir: Vector3, sunDir: Vector3) returns (r: Vector3)
      requires CanGather(m, pp, tParams, sParams, dir, sunDir)
      ensures r == Gathered(m, pp, tParams, sParams, dir, sunDir)
    {
      var pathEnterPoint := Vector3(0.0, pp.GetPlanetRadius() + pp.GetAtmosphereHeight() * StartFraction, 0.0);
      var pathExitPoint := RayCircleIntersection(m, pathEnterPoint, dir, pp.GetAtmosphereRadius()).value;
      r := GetPathScattering(m, pathEnterPoint, pathExitPoint, sunDir, pp, tParams, sParams);
    }

    /** The sun direction of cell i. */
    function SunDirection(m: Libm, i: nat): Vector3
      requires i < tex.uResolution
    {
      ZenithDirection(m, UToZenithCos(tex.IndexToU(i)))
    }

    /** No cell reaches an undefined `.value()` or an unmet requirement of
        `GetPathScattering`. */
    ghost predicate CellsDefined(m: Libm, draws: seq<SemisphereDraw>)
      reads pp
    {
      forall i :: 0 <= i < tex.uResolution ==>
        AllGather(m, pp, tParams, sParams, Directions(m, draws), SunDirection(m, i))
    }

    /** The light gathered for cell i along each generated direction. */
    function CellLights(m: Libm, draws: seq<SemisphereDraw>, i: nat): (r: seq<Vector3>)
      reads pp
      requires i < tex.uResolution && AllGather(m, pp, tParams, sParams, Directions(m, draws), SunDirection(m, i))
      ensures |r| == |draws|
    {
      Lights(m, pp, tParams, sParams, Directions(m, draws), SunDirection(m, i))
    }

    /** Every cell centre stands for a sun zenith cosine strictly inside
        (-1, 1), so for a physical planet every cell is defined, whatever
        the draws. */
    lemma CellsDefinedForPhysicalPlanet(m: Libm, draws: seq<SemisphereDraw>)
      requires SqrtLaws(m) && TrigLaws(m) && PowPositive(m) && pp.Physical()
      requires tParams.sampleCount >= 1 && sParams.sampleCount >= 1
      ensures CellsDefined(m, draws)
    {
      var dirs := Directions(m, draws);
      forall i, k | 0 <= i < tex.uResolution && 0 <= k < |dirs|
        ensures CanGather(m, pp, tParams, sParams, dirs[k], SunDirection(m, i))
      {
        var zenithCos := UToZenithCos(tex.IndexToU(i));
        ZenithDirectionIsUnit(m, zenithCos);
        SemispherePointIsUnit(m, draws[k]);
        CanGatherInsideAtmosphere(m, pp, tParams, sParams, dirs[k], SunDirection(m, i));
      }
    }

    /** Cell j once the cell loop has handled it, starting from `before`:
        its old value plus dw times the light gathered for it. */
    ghost function CellAfter(m: Libm, draws: seq<SemisphereDraw>, before: seq<Vector3>, dw: real, j: nat): Vector3
      reads pp
      requires j < |before| == tex.uResolution && CellsDefined(m, draws)
    {
      Accumulated(before[j], CellLights(m, draws, j), dw)
    }

    /** The texture once the cell loop has handled cells 0 .. i - 1,
        starting from `before`: each handled cell holds its old value plus dw
        times the light gathered for it, every other cell its old value. */
    ghost function CellsAfter(m: Libm, draws: seq<SemisphereDraw>, before: seq<Vector3>, dw: real, i: nat)
      : (r: seq<Vector3>)
      reads pp
      requires i <= |before| == tex.uResolution && CellsDefined(m, draws)
      ensures |r| == |before|
      ensures forall j :: 0 <= j < i ==> r[j] == CellAfter(m, draws, before, dw, j)
      ensures forall j :: i <= j < |before| ==> r[j] == before[j]
      decreases i
    {
      if i == 0 then before
      else CellsAfter(m, draws, before, dw, i - 1)[i - 1 := CellAfter(m, draws, before, dw, i - 1)]
    }

    /** `Compute`: every cell gets dw times the light gathered over the
        directions generated from `draws` added to what it held. */
    method Compute(m: Libm, draws: seq<SemisphereDraw>)
      requires tex.Valid() && |draws| == semisphereSamples && CellsDefined(m, draws)
      modifies tex.data
      ensures tex.data[..] == CellsAfter(m, draws, old(tex.data[..]), SolidAngle(semisphereSamples), tex.uResolution)
    {
      var dw := SolidAngle(semisphereSamples);
      var directions := GenerateSemisphereDirections(m, semisphereSamples, draws);

      ghost var before := tex.data[..];
      for i := 0 to tex.uResolution
        invariant tex.data[..] == CellsAfter(m, draws, before, dw, i)
      {
        ComputeCell(m, i, directions, dw);
      }
    }

    /** The body of the cell loop of `Compute`: the sun direction of cell
        i, then `tex[i] += light * dw` for the light along each direction in
        turn; no other cell changes. */
    method ComputeCell(m: Libm, i: nat, directions: seq<Vector3>, dw: real)
      requires tex.Valid() && i < tex.uResolution
      requires AllGather(m, pp, tParams, sParams, directions, SunDirection(m, i))
      modifies tex.data
      ensures tex.data[..] == old(tex.data[..])[i := Accumulated(old(tex.data[i]),
                                                                Lights(m, pp, tParams, sParams, directions, SunDirection(m, i)), dw)]
    {
      var u := tex.IndexToU(i);
      var zenithCos := UToZenithCos(u);
      var zenithSin := m.sinf(m.acosf(zenithCos));
      var sunDir := Vector3(zenithSin, zenithCos, 0.0);
      assert sunDir == SunDirection(m, i);

      ghost var lights := Lights(m, pp, tParams, sParams, directions, sunDir);
      for k := 0 to |directions|
        invariant tex.data[..] == old(tex.data[..])[i := Accumulated(old(tex.data[i]), lights[..k], dw)]
      {
        assert lights[..k + 1][..k] == lights[..k];
        var light := Calculate(m, directions[k], sunDir);
        var cell := AddAssign(tex.data[i], Scale(light, dw));
        tex.Set(i, cell);
      }
      assert lights[..|directions|] == lights;
    }
  }
}
