/** The planet and atmosphere parameters of Scattering/PlanetProperties.hpp:
    a record of settable fields, the derived atmosphere radius, the
    exponential density profiles and the Rayleigh and Mie phase functions.
    The source spells Rayleigh "Rayleight"; the model uses the usual spelling. */
module Planet {
  import opened MathLib
  import opened Vec3
  import Vec2

  /** The values of all fields at one moment, used to say what a setter
      leaves unchanged. */
  datatype Settings = Settings(
    planetRadius: real,
    atmosphereHeight: real,
    rayleighScatteringCoef: Vector3,
    rayleighExtinctionCoef: Vector3,
    mieScatteringCoef: Vector3,
    mieExtinctionCoef: Vector3,
    rayleighScaleHeight: real,
    mieScaleHeight: real,
    miePhaseG: real)

  /** 3 / 16 / PI, the constant factor of the Rayleigh phase function. */
  const RayleighFactor: real := 3.0 / 16.0 / Vec2.Pi

  /** The Cornette-Shanks formula shared by `MiePhase` and `MiePhaseCos`,
      3 / 8 / PI * (1 - g^2) * (1 + cos^2) / (2 + g^2) / power, with power
      the value of pow(1 + g^2 - 2 g cos, 1.5). */
  function CornetteShanks(g: real, cos: real, power: real): real
    requires power != 0.0
  {
    var g2 := g * g;
    SquareNonNegative(g);
    3.0 / 8.0 / Vec2.Pi * (1.0 - g2) * (1.0 + cos * cos) / (2.0 + g2) / power
  }

  class PlanetProperties {
    var planetRadius: real
    var atmosphereHeight: real
    var rayleighScatteringCoef: Vector3
    var rayleighExtinctionCoef: Vector3
    var mieScatteringCoef: Vector3
    var mieExtinctionCoef: Vector3
    var rayleighScaleHeight: real
    var mieScaleHeight: real
    var miePhaseG: real

    function Current(): Settings
      reads this
    {
      Settings(planetRadius, atmosphereHeight, rayleighScatteringCoef, rayleighExtinctionCoef,
               mieScatteringCoef, mieExtinctionCoef, rayleighScaleHeight, mieScaleHeight, miePhaseG)
    }

    /** A planet with a positive radius, a positive atmosphere height,
        positive scale heights and a Mie asymmetry strictly between -1 and 1:
        the conditions under which the builders never fail. */
    ghost predicate Physical()
      reads this
    {
      && planetRadius > 0.0
      && atmosphereHeight > 0.0
      && rayleighScaleHeight > 0.0
      && mieScaleHeight > 0.0
      && -1.0 < miePhaseG < 1.0
    }

    /** The default Earth parameters. */
    constructor ()
      ensures planetRadius == 6360.0 && atmosphereHeight == 100.0
      ensures rayleighScatteringCoef == Vector3(0.0058, 0.0135, 0.0331)
      ensures rayleighExtinctionCoef == Vector3(0.0058, 0.0135, 0.0331)
      ensures mieScatteringCoef == Vector3(0.004, 0.004, 0.004)
      ensures mieExtinctionCoef == Div(mieScatteringCoef, 0.9)
      ensures rayleighScaleHeight == 8.0 && mieScaleHeight == 1.2
      ensures miePhaseG == 0.8
      ensures Physical()
    {
      planetRadius := 6360.0;
      atmosphereHeight := 100.0;
      rayleighScatteringCoef := Vector3(0.0058, 0.0135, 0.0331);
      rayleighExtinctionCoef := Vector3(0.0058, 0.0135, 0.0331);
      mieScatteringCoef := Vector3(0.004, 0.004, 0.004);
      mieExtinctionCoef := Div(Vector3(0.004, 0.004, 0.004), 0.9);
      rayleighScaleHeight := 8.0;
      mieScaleHeight := 1.2;
      miePhaseG := 0.8;
    }

    /** The copy a builder keeps of the properties it is given. */
    constructor Copy(other: PlanetProperties)
      ensures Current() == other.Current()
    {
      planetRadius := other.planetRadius;
      atmosphereHeight := other.atmosphereHeight;
      rayleighScatteringCoef := other.rayleighScatteringCoef;
      rayleighExtinctionCoef := other.rayleighExtinctionCoef;
      mieScatteringCoef := other.mieScatteringCoef;
      mieExtinctionCoef := other.mieExtinctionCoef;
      rayleighScaleHeight := other.rayleighScaleHeight;
      mieScaleHeight := other.mieScaleHeight;
      miePhaseG := other.miePhaseG;
    }

    method SetPlanetRadius(radius: real)
      modifies this
      ensures GetPlanetRadius() == radius
      ensures Current() == old(Current()).(planetRadius := radius)
    {
      planetRadius := radius;
    }

    function GetPlanetRadius(): real
      reads this
    {
      planetRadius
    }

    method SetAtmosphereHeight(height: real)
      modifies this
      ensures GetAtmosphereHeight() == height
      ensures Current() == old(Current()).(atmosphereHeight := height)
    {
      atmosphereHeight := height;
    }

    function GetAtmosphereHeight(): real
      reads this
    {
      atmosphereHeight
    }

    /** The radius of the top of the atmosphere. It exceeds the planet radius
        exactly when the atmosphere height is positive. */
    function GetAtmosphereRadius(): (r: real)
      reads this
      ensures r - GetAtmosphereHeight() == GetPlanetRadius()
      ensures r > GetPlanetRadius() <==> GetAtmosphereHeight() > 0.0
    {
      planetRadius + atmosphereHeight
    }

    method SetRayleighScatteringCoef(coef: Vector3)
      modifies this
      ensures GetRayleighScatteringCoef() == coef
      ensures Current() == old(Current()).(rayleighScatteringCoef := coef)
    {
      rayleighScatteringCoef := coef;
    }

    function GetRayleighScatteringCoef(): Vector3
      reads this
    {
      rayleighScatteringCoef
    }

    method SetRayleighExtinctionCoef(coef: Vector3)
      modifies this
      ensures GetRayleighExtinctionCoef() == coef
      ensures Current() == old(Current()).(rayleighExtinctionCoef := coef)
    {
      rayleighExtinctionCoef := coef;
    }

    function GetRayleighExtinctionCoef(): Vector3
      reads this
    {
      rayleighExtinctionCoef
    }

    method SetMieScatteringCoef(coef: Vector3)
      modifies this
      ensures GetMieScatteringCoef() == coef
      ensures Current() == old(Current()).(mieScatteringCoef := coef)
    {
      mieScatteringCoef := coef;
    }

    function GetMieScatteringCoef(): Vector3
      reads this
    {
      mieScatteringCoef
    }

    method SetMieExtinctionCoef(coef: Vector3)
      modifies this
      ensures GetMieExtinctionCoef() == coef
      ensures Current() == old(Current()).(mieExtinctionCoef := coef)
    {
      mieExtinctionCoef := coef;
    }

    function GetMieExtinctionCoef(): Vector3
      reads this
    {
      mieExtinctionCoef
    }

    method SetRayleighScaleHeight(value: real)
      modifies this
      ensures GetRayleighScaleHeight() == value
      ensures Current() == old(Current()).(rayleighScaleHeight := value)
    {
      rayleighScaleHeight := value;
    }

    function GetRayleighScaleHeight(): real
      reads this
    {
      rayleighScaleHeight
    }

    method SetMieScaleHeight(value: real)
      modifies this
      ensures GetMieScaleHeight() == value
      ensures Current() == old(Current()).(mieScaleHeight := value)
    {
      mieScaleHeight := value;
    }

    function GetMieScaleHeight(): real
      reads this
    {
      mieScaleHeight
    }

    method SetMieAsymmetryCoef(value: real)
      modifies this
      ensures GetMieAsymmetryCoef() == value
      ensures Current() == old(Current()).(miePhaseG := value)
    {
      miePhaseG := value;
    }

    function GetMieAsymmetryCoef(): real
      reads this
    {
      miePhaseG
    }

    /** exp(-altitude / H) for the Rayleigh scale height H. */
    function RayleighDensityAltitude(m: Libm, altitude: real): real
      reads this
      requires rayleighScaleHeight != 0.0
    {
      m.expf(-altitude / rayleighScaleHeight)
    }

    /** The Rayleigh density at a distance `radius` from the planet centre. */
    function RayleighDensityRadius(m: Libm, radius: real): real
      reads this
      requires rayleighScaleHeight != 0.0
    {
      RayleighDensityAltitude(m, radius - planetRadius)
    }

    /** exp(-altitude / H) for the Mie scale height H. */
    function MieDensityAltitude(m: Libm, altitude: real): real
      reads this
      requires mieScaleHeight != 0.0
    {
      m.expf(-altitude / mieScaleHeight)
    }

    /** The Mie density at a distance `radius` from the planet centre. */
    function MieDensityRadius(m: Libm, radius: real): real
      reads this
      requires mieScaleHeight != 0.0
    {
      MieDensityAltitude(m, radius - planetRadius)
    }

    /** Both densities are 1 on the ground (radius = planet radius), positive
        everywhere, and strictly decreasing with altitude when the scale
        heights are positive. */
    lemma DensityProfile(m: Libm, r1: real, r2: real)
      requires ExpLaws(m) && rayleighScaleHeight > 0.0 && mieScaleHeight > 0.0
      ensures RayleighDensityRadius(m, planetRadius) == 1.0 && MieDensityRadius(m, planetRadius) == 1.0
      ensures RayleighDensityRadius(m, r1) > 0.0 && MieDensityRadius(m, r1) > 0.0
      ensures r1 < r2 ==> RayleighDensityRadius(m, r2) < RayleighDensityRadius(m, r1)
      ensures r1 < r2 ==> MieDensityRadius(m, r2) < MieDensityRadius(m, r1)
    {
      assert -(planetRadius - planetRadius) / rayleighScaleHeight == 0.0;
      assert -(planetRadius - planetRadius) / mieScaleHeight == 0.0;
      if r1 < r2 {
        DivStrictMono(r1 - planetRadius, r2 - planetRadius, rayleighScaleHeight);
        DivStrictMono(r1 - planetRadius, r2 - planetRadius, mieScaleHeight);
      }
    }

    /** The Rayleigh phase function of the scattering angle's cosine,
        3 / 16 / PI * (1 + cos^2). */
    function RayleighPhaseCos(cos: real): (r: real)
    {
      RayleighFactor * (1.0 + cos * cos)
    }

    /** RayleighPhaseCos is even in the cosine; on [-1, 1] it takes its least
        value 3 / (16 PI) at 0 and its greatest value 6 / (16 PI) at -1 and 1. */
    lemma RayleighPhaseCosShape(cos: real)
      ensures RayleighPhaseCos(-cos) == RayleighPhaseCos(cos)
      ensures RayleighPhaseCos(0.0) == 3.0 / 16.0 / Vec2.Pi
      ensures RayleighPhaseCos(1.0) == RayleighPhaseCos(-1.0) == 6.0 / 16.0 / Vec2.Pi
      ensures -1.0 <= cos <= 1.0 ==> RayleighPhaseCos(0.0) <= RayleighPhaseCos(cos) <= RayleighPhaseCos(1.0)
    {
      assert RayleighFactor > 0.0;
      SquareNonNegative(cos);
      MulMonoLeft(1.0, 1.0 + cos * cos, RayleighFactor);
      if -1.0 <= cos <= 1.0 {
        AbsSquareAtMostOne(cos);
        MulMonoLeft(1.0 + cos * cos, 2.0, RayleighFactor);
      }
    }

    /** The Rayleigh phase function of the scattering angle itself. */
    function RayleighPhase(m: Libm, angle: real): real
    {
      var cos := m.cosf(angle);
      3.0 / 16.0 / Vec2.Pi * (1.0 + cos * cos)
    }

    lemma RayleighPhaseOfAngle(m: Libm, angle: real)
      ensures RayleighPhase(m, angle) == RayleighPhaseCos(m.cosf(angle))
    {
    }

    /** The base 1 + g^2 - 2 g cos that `MiePhaseCos` raises to the power 1.5. */
    function MieBase(cos: real): real
      reads this
    {
      1.0 + miePhaseG * miePhaseG - 2.0 * miePhaseG * cos
    }

    /** The Cornette-Shanks Mie phase function of the scattering angle's cosine,
        3 / 8 / PI * (1 - g^2) * (1 + cos^2) / (2 + g^2) / pow(1 + g^2 - 2 g cos, 1.5). */
    function MiePhaseCos(m: Libm, cos: real): real
      reads this
      requires m.powf(MieBase(cos), 1.5) != 0.0
    {
      CornetteShanks(miePhaseG, cos, m.powf(MieBase(cos), 1.5))
    }

    /** For |g| < 1 and a cosine in [-1, 1], the power's base is positive, so
        the phase function is defined and positive. */
    lemma MiePhaseCosPositive(m: Libm, cos: real)
      requires PowPositive(m) && -1.0 < miePhaseG < 1.0 && -1.0 <= cos <= 1.0
      ensures MieBase(cos) > 0.0
      ensures m.powf(MieBase(cos), 1.5) > 0.0
      ensures MiePhaseCos(m, cos) > 0.0
    {
      var g := miePhaseG;
      MieBasePositive(g, cos);
      var p := m.powf(MieBase(cos), 1.5);
      assert p > 0.0;
      var g2 := g * g;
      SquareNonNegative(g);
      SquareNonNegative(cos);
      AbsSquareAtMostOne(g);
      if g2 == 1.0 {
        ProductOneMeansUnit(g);
        assert false;
      }
      var f1 := 3.0 / 8.0 / Vec2.Pi * (1.0 - g2);
      MulPositive(3.0 / 8.0 / Vec2.Pi, 1.0 - g2);
      MulPositive(f1, 1.0 + cos * cos);
      var f2 := f1 * (1.0 + cos * cos);
      QuotientPositive(f2, 2.0 + g2);
      QuotientPositive(f2 / (2.0 + g2), p);
    }

    /** The Mie phase function of the scattering angle itself. */
    function MiePhase(m: Libm, angle: real): real
      reads this
      requires m.powf(MieBase(m.cosf(angle)), 1.5) != 0.0
    {
      var cos := m.cosf(angle);
      CornetteShanks(miePhaseG, cos, m.powf(MieBase(cos), 1.5))
    }

    lemma MiePhaseOfAngle(m: Libm, angle: real)
      requires m.powf(MieBase(m.cosf(angle)), 1.5) != 0.0
      ensures MiePhase(m, angle) == MiePhaseCos(m, m.cosf(angle))
    {
    }
  }

  /** A quotient of two positive numbers is positive. */
  lemma QuotientPositive(x: real, y: real)
    ensures x > 0.0 && y > 0.0 ==> x / y > 0.0
  {
  }

  /** x < y and h > 0 give -y / h < -x / h. */
  lemma DivStrictMono(x: real, y: real, h: real)
    requires x < y && h > 0.0
    ensures -y / h < -x / h
  {
    var p, q := -y / h, -x / h;
    assert p * h == -y;
    assert q * h == -x;
    if p >= q {
      MulMonoLeft(q, p, h);
      assert false;
    }
  }

  lemma AbsSquareAtMostOne(x: real)
    requires -1.0 <= x <= 1.0
    ensures x * x <= 1.0
  {
    if x >= 0.0 {
      MulMonoLeft(x, 1.0, x);
    } else {
      var y := -x;
      MulMonoLeft(y, 1.0, y);
      assert y * y <= 1.0;
      assert x * x == y * y;
    }
  }

  lemma ProductOneMeansUnit(x: real)
    ensures x * x == 1.0 ==> x == 1.0 || x == -1.0
  {
    assert (x - 1.0) * (x + 1.0) == x * x - 1.0;
    if x * x == 1.0 && x != 1.0 && x != -1.0 {
      if x > 1.0 {
        MulPositive(x - 1.0, x + 1.0);
      } else if x < -1.0 {
        MulPositive(1.0 - x, -1.0 - x);
      } else {
        MulPositive(1.0 - x, x + 1.0);
      }
      assert false;
    }
  }

  /** 1 + g^2 - 2 g c >= (1 - |g|)^2 > 0 for |g| < 1 and |c| <= 1. */
  lemma MieBasePositive(g: real, c: real)
    requires -1.0 < g < 1.0 && -1.0 <= c <= 1.0
    ensures 1.0 + g * g - 2.0 * g * c > 0.0
  {
    if g >= 0.0 {
      MieBasePositiveForNonNegative(g, c);
    } else {
      MieBasePositiveForNonNegative(-g, -c);
      assert 1.0 + g * g - 2.0 * g * c == 1.0 + (-g) * (-g) - 2.0 * (-g) * (-c);
    }
  }

  lemma MieBasePositiveForNonNegative(g: real, c: real)
    requires 0.0 <= g < 1.0 && -1.0 <= c <= 1.0
    ensures 1.0 + g * g - 2.0 * g * c > 0.0
  {
    var h := 1.0 - g;
    MulPositive(h, h);
    assert g * c <= g;
    calc {
      1.0 + g * g - 2.0 * g * c;
    >=
      1.0 + g * g - 2.0 * g;
    ==
      h * h;
    >
      0.0;
    }
  }
}
