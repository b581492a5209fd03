/** What the three table builders share: the direction a zenith cosine
    stands for, the start point of a path at some fraction of the atmosphere
    height, and the end point of the path (the planet hit if there is one,
    otherwise the top of the atmosphere, otherwise a fatal `throw;`). */
module ViewPaths {
  import opened MathLib
  import opened Wrappers
  import opened Vec3
  import opened Planet

  /** The direction in the x-y plane whose zenith cosine is `zenithCos`:
      `(sin(acos(zenithCos)), zenithCos, 0)`. */
  function ZenithDirection(m: Libm, zenithCos: real): Vector3 {
    Vector3(m.sinf(m.acosf(zenithCos)), zenithCos, 0.0)
  }

  /** A zenith cosine in [-1, 1] stands for a unit vector with that cosine
      to the vertical. */
  lemma ZenithDirectionIsUnit(m: Libm, zenithCos: real)
    requires TrigLaws(m) && -1.0 <= zenithCos <= 1.0
    ensures Dot(ZenithDirection(m, zenithCos), ZenithDirection(m, zenithCos)) == 1.0
    ensures Dot(ZenithDirection(m, zenithCos), Vector3(0.0, 1.0, 0.0)) == zenithCos
  {
    var angle := m.acosf(zenithCos);
    assert m.cosf(angle) == zenithCos;
    assert m.sinf(angle) * m.sinf(angle) + m.cosf(angle) * m.cosf(angle) == 1.0;
  }

  /** The point straight above the origin, `fraction` of the atmosphere
      height above the ground. */
  function PathStart(pp: PlanetProperties, fraction: real): Vector3
    reads pp
  {
    Vector3(0.0, pp.GetPlanetRadius() + pp.GetAtmosphereHeight() * fraction, 0.0)
  }

  /** For a physical planet, a start point strictly between the ground and
      the top of the atmosphere lies strictly inside the atmosphere shell. */
  lemma PathStartInsideShell(pp: PlanetProperties, fraction: real)
    requires pp.Physical() && 0.0 < fraction < 1.0
    ensures var r := pp.GetPlanetRadius();
      r * r < Dot(PathStart(pp, fraction), PathStart(pp, fraction))
    ensures var ra := pp.GetAtmosphereRadius();
      Dot(PathStart(pp, fraction), PathStart(pp, fraction)) < ra * ra
  {
    var r, h, ra := pp.GetPlanetRadius(), pp.GetAtmosphereHeight(), pp.GetAtmosphereRadius();
    var start := PathStart(pp, fraction);
    HeightBetween(r, h, fraction);
    calc {
      r * r;
    <
      (r + h * fraction) * (r + h * fraction);
    ==
      Dot(start, start);
    }
    calc {
      Dot(start, start);
    ==
      (r + h * fraction) * (r + h * fraction);
    <
      (r + h) * (r + h);
    ==
      ra * ra;
    }
  }

  lemma HeightBetween(r: real, h: real, fraction: real)
    requires r > 0.0 && h > 0.0 && 0.0 < fraction < 1.0
    ensures r * r < (r + h * fraction) * (r + h * fraction)
    ensures (r + h * fraction) * (r + h * fraction) < (r + h) * (r + h)
  {
    ProperFraction(h, fraction);
    calc {
      r * r;
    < { SquareStrictMono(r, r + h * fraction); }
      (r + h * fraction) * (r + h * fraction);
    < { SquareStrictMono(r + h * fraction, r + h); }
      (r + h) * (r + h);
    }
  }

  /** The end of the path from `start` along `dir`: where it first meets the
      ground if it does, otherwise where it leaves the atmosphere; `None`
      stands for the `throw;` that ends the program when neither exists. */
  function PathEnd(m: Libm, pp: PlanetProperties, start: Vector3, dir: Vector3): Option<Vector3>
    reads pp
  {
    match RayCircleIntersection(m, start, dir, pp.GetPlanetRadius())
    case Some(groundPoint) => Some(groundPoint)
    case None => RayCircleIntersection(m, start, dir, pp.GetAtmosphereRadius())
  }

  /** From a start point strictly inside the shell, every non-zero direction
      has an end point: the nearest ground hit when the path meets the
      ground, the atmosphere exit otherwise. The end point is on one of the
      two spheres, so it differs from the start and is inside or on the top
      of the atmosphere: the `throw;` is never reached. */
  lemma PathEndFromShell(m: Libm, pp: PlanetProperties, start: Vector3, dir: Vector3)
    requires SqrtLaws(m) && pp.Physical() && Dot(dir, dir) > 0.0
    requires pp.GetPlanetRadius() * pp.GetPlanetRadius() < Dot(start, start)
    requires Dot(start, start) < pp.GetAtmosphereRadius() * pp.GetAtmosphereRadius()
    ensures PathEnd(m, pp, start, dir).Some?
    ensures RayCircleIntersection(m, start, dir, pp.GetPlanetRadius()).Some? ==>
      PathEnd(m, pp, start, dir) == RayCircleIntersection(m, start, dir, pp.GetPlanetRadius())
    ensures RayCircleIntersection(m, start, dir, pp.GetPlanetRadius()).None? ==>
      PathEnd(m, pp, start, dir) == RayCircleIntersection(m, start, dir, pp.GetAtmosphereRadius())
    ensures PathEnd(m, pp, start, dir).value != start
    ensures var ra := pp.GetAtmosphereRadius();
      Dot(PathEnd(m, pp, start, dir).value, PathEnd(m, pp, start, dir).value) <= ra * ra
  {
    ShellEnd(m, start, dir, pp.GetPlanetRadius(), pp.GetAtmosphereRadius());
  }

  /** The geometry behind `PathEndFromShell`, over the two radii: the ground
      hit, when there is one, is on the ground sphere; otherwise the ray
      leaves the top sphere. Both spheres miss the start point. */
  lemma ShellEnd(m: Libm, start: Vector3, dir: Vector3, r: real, ra: real)
    requires SqrtLaws(m) && Dot(dir, dir) > 0.0 && 0.0 < r < ra
    requires r * r < Dot(start, start) < ra * ra
    ensures r * r < ra * ra
    ensures RayCircleIntersection(m, start, dir, r).Some? ==>
      Dot(RayCircleIntersection(m, start, dir, r).value, RayCircleIntersection(m, start, dir, r).value) == r * r
    ensures RayCircleIntersection(m, start, dir, r).None? ==>
      && RayCircleIntersection(m, start, dir, ra).Some?
      && Dot(RayCircleIntersection(m, start, dir, ra).value, RayCircleIntersection(m, start, dir, ra).value) == ra * ra
  {
    SquareStrictMono(r, ra);
    if RayCircleIntersection(m, start, dir, r).Some? {
      RayCircleIntersectionOnCircle(m, start, dir, r);
    } else {
      RayCircleIntersectionFromInside(m, start, dir, ra);
    }
  }
}
