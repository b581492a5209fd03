# Atmospheric scattering lookup tables, modelled in Dafny

This project models the core of an atmospheric-scattering precomputation
(the `Scattering/` headers of the C++ program). The program fills three
lookup tables for a planet wrapped in a spherical atmosphere:

- a **transmittance** table (1D). Each cell holds the light that survives a
  straight path starting 1% of the atmosphere height above the ground.
- a **single-scattering** table (2D). It is indexed by the view zenith
  cosine and the sun zenith cosine.
- a **ground irradiance** table (1D). Each cell adds up, over a set of
  hemisphere directions, the light scattered towards a point near the
  ground.

The model covers the grid textures and their interpolating `Sample`, the
2D and 3D vector arithmetic, and the ray–circle intersection with its root
selection. It also covers the planet record with its density and phase
functions, the two midpoint-rule line integrators (transmittance and
shadow-skipping in-scattering), and the three table builders with their
axis mappings.

Floats are modelled as exact `real`s. The C math functions (`expf`,
`sqrtf`, `sinf`, `cosf`, `acosf`, `asinf`, `powf`) are fields of a `Libm`
value passed to every operation that uses them. Properties that need their
laws say so through predicates: `ExpLaws`, `SqrtLaws`, `TrigLaws`,
`AsinLaws`, `PowPositive` and `PowCube`.

Imperative code stays imperative:

- the texture classes own arrays;
- the `+=` and `*=` operators are methods;
- the two integrators and the three `Compute` loops are `for` loops whose
  invariants tie them to specification functions (`PathTransmittance`,
  `PathScattering`, `TransmittanceTowards`, `ScatteringTowards`,
  `Accumulated`).

A fatal `throw;` and an unchecked `.value()` are modelled as `None` results
or as preconditions. For each, a lemma shows that it cannot be reached for
a physical planet: positive radius, atmosphere height and scale heights,
and a Mie asymmetry in (-1, 1).

Modules, one per file:

- `MathLib` (libm.dfy)
- `Wrappers` (wrappers.dfy)
- `Quadratic` (quadratic.dfy)
- `Vec2` (vector2.dfy)
- `Vec3` (vector3.dfy)
- `Textures` (texture.dfy)
- `Planet` (planet.dfy)
- `Transmittance` (transmittance.dfy)
- `Scattering` (scattering.dfy)
- `ViewPaths` (view_paths.dfy)
- `TransmittanceMaps` (transmittance_map.dfy)
- `ScatteringMaps` (scattering_map.dfy)
- `IrradianceMaps` (irradiance_map.dfy)

## Model

| member | source | states |
|---|---|---|
| Textures.Truncate | Scattering/Texture.hpp:22 | the `size_t` cast of a non-negative float is the integer part: i <= d < i + 1 |
| Textures.LowerCell | Scattering/Texture.hpp:21-22 | for n >= 1 and u in [0, 1], the first index `Sample` reads is a valid index, it is the integer part of u (n - 1), and it is the last index when u = 1 |
| Textures.UpperCell | Scattering/Texture.hpp:24-32 | the second index read is valid and equals the lower index or its successor |
| Textures.LowerCellAtGridPoint | Scattering/Texture.hpp:21-22 | at u = k / (n - 1) the lower index is exactly k |
| Textures.BlendWeight | Scattering/Texture.hpp:29 | the blend weight d - i0 lies in [0, 1) |
| Textures.CellCentre | Scattering/Texture.hpp:46-49 | the cell-centre coordinate r satisfies r n = index + 1/2, and lies strictly inside (0, 1) for every valid index |
| Textures.Texture1D.constructor | Scattering/Texture.hpp:15-17 | a new texture of resolution n owns exactly n fresh cells, all zero vectors |
| Textures.Texture1D.Set | Scattering/Texture.hpp:35-38 | writing through `operator[]` changes exactly one cell |
| Textures.Texture1D.Sample | Scattering/Texture.hpp:19-33 | `Sample(1)` is the last cell; a one-cell texture returns cell 0 for every u; every result lies component-wise between the two cells it blends |
| Textures.Texture1D.SampleAtGridPoint | Scattering/Texture.hpp:19-33 | sampling at the grid point k / (n - 1) returns cell k exactly |
| Textures.Texture1D.IndexToU | Scattering/Texture.hpp:45-49 | `IndexToU(i)` is (i + 1/2) / n and lies in (0, 1) for i < n |
| Textures.Texture2D.constructor | Scattering/Texture.hpp:70-77 | v rows, each a fresh Texture1D of resolution u with its own array, all cells zero |
| Textures.Texture2D.Set | Scattering/Texture.hpp:94-97 | writing `tex[i][j]` changes only cell j of row i; every other row is unchanged |
| Textures.Texture2D.Sample | Scattering/Texture.hpp:79-92 | v = 1 samples the last row; a one-row texture samples row 0; the result lies between the samples of the two blended rows |
| Textures.Texture2D.SampleAtGridPoint | Scattering/Texture.hpp:79-92 | at the row grid point k / (vRes - 1) the result is row k's own sample |
| Textures.Texture2D.IndexToV | Scattering/Texture.hpp:104-108 | (i + 1/2) / vRes, strictly inside (0, 1) for valid i |
| Textures.Texture2D.IndexToU | Scattering/Texture.hpp:110-113 | delegates to row 0, so it needs a row; (i + 1/2) / uRes, inside (0, 1) |
| Textures.Texture2D.GetUResolution | Scattering/Texture.hpp:116-120 | reads row 0, so it needs a row; every row has that resolution |
| Textures.NewSlabs | Scattering/Texture.hpp:144-147 | the slab-building loop: w valid u-by-v slabs of zero cells, every row array fresh and none shared between two slabs |
| Textures.Texture3D.constructor | Scattering/Texture.hpp:141-148 | w slabs, each a valid u-by-v Texture2D of zero cells, every row array fresh and no row array shared between slabs |
| Textures.Texture3D.Set | Scattering/Texture.hpp:165-168 | writing `tex[w][v][u]` through the writable `operator[]` changes only cell u of row v of slab w; every other row of every slab is unchanged |
| Textures.Texture3D.Sample | Scattering/Texture.hpp:150-163 | w = 1 samples the last slab; a one-slab texture samples slab 0; the result lies between the two blended slab samples |
| Textures.Texture3D.IndexToW | Scattering/Texture.hpp:175-179 | (i + 1/2) / wRes, strictly inside (0, 1) for valid i |
| Textures.Texture3D.IndexToV | Scattering/Texture.hpp:181-184 | delegates to slab 0: (i + 1/2) / vRes, inside (0, 1) |
| Textures.Texture3D.IndexToU | Scattering/Texture.hpp:186-189 | delegates to slab 0: (i + 1/2) / uRes, inside (0, 1) |
| Textures.Texture3D.GetUResolution | Scattering/Texture.hpp:192-196 | the u resolution shared by every row of every slab |
| Textures.Texture3D.GetVResolution | Scattering/Texture.hpp:198-202 | the v resolution shared by every slab |
| Vec3.AddAssign | Scattering/Vector3.hpp:23-29 | `v += w` leaves v equal to v + w, and subtracting w again gives back the old v |
| Vec3.ScaleAssign | Scattering/Vector3.hpp:31-37 | `v *= c` leaves v equal to v * c |
| Vec3.Lerp | Scattering/Vector3.hpp:90-93 | Lerp(a, b, 0) = a and Lerp(a, b, 1) = b |
| Vec3.LerpBetween | Scattering/Vector3.hpp:90-93 | for t in [0, 1] the interpolation lies between a and b |
| Vec3.LerpVector | Scattering/Vector3.hpp:95-102 | the vector Lerp is exact at t = 0 and t = 1 and lies component-wise between a and b for t in [0, 1] |
| Vec3.DotSymmetric | Scattering/Vector3.hpp:114-117 | the dot product is symmetric |
| Vec3.SumThenDifference | Scattering/Vector3.hpp:62-75 | (a + b) - b = a |
| Vec3.ScaleDistributes | Scattering/Vector3.hpp:41-44 | (a + b) c = a c + b c |
| Vec3.DotSelfPositive | Scattering/Vector3.hpp:114-117 | only the zero vector has zero squared length |
| Vec3.LengthPositive | Scattering/Vector3.hpp:17-21 | a vector with positive squared length has positive `Length` |
| Vec3.CauchySchwarz | Scattering/Vector3.hpp:114-121 | the dot product is bounded by the product of the lengths |
| Vec3.AngleCos | Scattering/Vector3.hpp:119-127 | the result is never above 1, and below 1 it is the unclamped a.b / \|a\| / \|b\| (no clamp from below) |
| Vec3.AngleCosIsCosine | Scattering/Vector3.hpp:119-127 | over exact reals the clamp never fires: the value lies in [-1, 1] and times \|a\| \|b\| gives a.b |
| Vec3.RayCircleIntersection | Scattering/Vector3.hpp:130-160 | a zero direction yields no point |
| Vec3.RayQuadratic | Scattering/Vector3.hpp:132-138 | \|o + d t\|^2 - R^2 is the quadratic with coefficients a, b, c of the source |
| Vec3.RayCircleIntersectionRootChoice | Scattering/Vector3.hpp:138-159 | no point when the discriminant is negative or both roots are negative; the smaller root whenever it is non-negative |
| Vec3.RayCircleIntersectionIsNearestHit | Scattering/Vector3.hpp:141-156 | a returned point is o + d t for some t >= 0 on the circle with no earlier hit; with no point the ray never meets the circle at t >= 0 |
| Vec3.RayCircleIntersectionOnCircle | Scattering/Vector3.hpp:141-156 | every returned point lies on the circle |
| Vec3.RayCircleIntersectionFromInside | Scattering/Vector3.hpp:134-156 | from inside or on the circle a non-zero direction always yields a point at some t >= 0, and at t > 0 when strictly inside (what the unchecked `.value()` calls rely on) |
| Vec3.SegmentStaysInside | Scattering/Scattering.hpp:26-37 | every sample point of a path from strictly inside the atmosphere to a point inside or on it is strictly inside |
| Quadratic.NearestRootIsLeastNonNegativeZero | Scattering/Vector3.hpp:141-159 | the selected root is the least non-negative zero of the quadratic, and no selection means no non-negative zero |
| Quadratic.NearestRootFromInside | Scattering/Vector3.hpp:141-156 | with c <= 0 a root is always selected, non-negative, and positive when c < 0 |
| Quadratic.RootsOrdered | Scattering/Vector3.hpp:144-151 | t1 <= t2 for a > 0 |
| Quadratic.ZerosAreRoots | Scattering/Vector3.hpp:138-151 | the quadratic vanishes exactly at t1 and t2 |
| Quadratic.NoZeroWhenDiscriminantNegative | Scattering/Vector3.hpp:138-141 | with a negative discriminant the quadratic has no zero at all |
| Vec2.AddAssign | Scattering/Vector2.hpp:24-29 | `v += w` leaves v equal to v + w, and subtracting w gives back v |
| Vec2.DotSymmetric | Scattering/Vector2.hpp:52-55 | the 2D dot product is symmetric |
| Vec2.SumThenDifference | Scattering/Vector2.hpp:32-40 | (a + b) - b = a |
| Vec2.DivUndoesScale | Scattering/Vector2.hpp:42-50 | (a * c) / c = a for c != 0 |
| Vec2.RayCircleIntersection | Scattering/Vector2.hpp:63-93 | a zero direction yields no point |
| Vec2.RayQuadratic | Scattering/Vector2.hpp:65-71 | \|o + d t\|^2 - R^2 is the source's quadratic |
| Vec2.RayCircleIntersectionRootChoice | Scattering/Vector2.hpp:71-92 | no point on a negative discriminant or two negative roots; the smaller root when it is non-negative |
| Vec2.RayCircleIntersectionIsNearestHit | Scattering/Vector2.hpp:74-90 | a returned point is o + d t, t >= 0, on the circle, with no earlier hit; none means no hit at t >= 0 |
| Planet.PlanetProperties.constructor | Scattering/PlanetProperties.hpp:11-25 | the default Earth values (radius 6360, height 100, Mie extinction = Mie scattering / 0.9, g = 0.8, ...), which form a physical planet |
| Planet.PlanetProperties.Copy | Scattering/ScatteringMap.hpp:25 | a builder's copy holds the same values as the properties it was given |
| Planet.PlanetProperties.SetPlanetRadius | Scattering/PlanetProperties.hpp:28-37 | the getter returns the new value; no other field changes |
| Planet.PlanetProperties.SetAtmosphereHeight | Scattering/PlanetProperties.hpp:39-48 | the getter returns the new value; no other field changes |
| Planet.PlanetProperties.GetAtmosphereRadius | Scattering/PlanetProperties.hpp:50-54 | the atmosphere radius minus the height is the planet radius; it exceeds the planet radius exactly when the height is positive |
| Planet.PlanetProperties.SetRayleighScatteringCoef | Scattering/PlanetProperties.hpp:56-65 | the getter returns the new value; no other field changes |
| Planet.PlanetProperties.SetRayleighExtinctionCoef | Scattering/PlanetProperties.hpp:67-76 | the getter returns the new value; no other field changes |
| Planet.PlanetProperties.SetMieScatteringCoef | Scattering/PlanetProperties.hpp:79-88 | the getter returns the new value; no other field changes |
| Planet.PlanetProperties.SetMieExtinctionCoef | Scattering/PlanetProperties.hpp:90-99 | the getter returns the new value; no other field changes |
| Planet.PlanetProperties.SetRayleighScaleHeight | Scattering/PlanetProperties.hpp:102-111 | the getter returns the new value; no other field changes |
| Planet.PlanetProperties.SetMieScaleHeight | Scattering/PlanetProperties.hpp:113-122 | the getter returns the new value; no other field changes |
| Planet.PlanetProperties.SetMieAsymmetryCoef | Scattering/PlanetProperties.hpp:124-133 | the getter returns the new value; no other field changes |
| Planet.PlanetProperties.DensityProfile | Scattering/PlanetProperties.hpp:135-158 | density by radius is density by altitude above the ground: 1 on the ground, positive, and strictly decreasing with radius, for Rayleigh and Mie |
| Planet.PlanetProperties.RayleighPhaseCosShape | Scattering/PlanetProperties.hpp:168-172 | the Rayleigh phase function is even in the cosine, with minimum 3/(16 PI) at 0 and maximum 6/(16 PI) at -1 and 1 |
| Planet.PlanetProperties.RayleighPhaseOfAngle | Scattering/PlanetProperties.hpp:161-172 | `RayleightPhase(angle)` = `RayleightPhaseCos(cos angle)` |
| Planet.PlanetProperties.MiePhaseCosPositive | Scattering/PlanetProperties.hpp:182-187 | for \|g\| < 1 and a cosine in [-1, 1] the power's base is positive, so the Mie phase function is defined and positive |
| Planet.PlanetProperties.MiePhaseOfAngle | Scattering/PlanetProperties.hpp:174-187 | `MiePhase(angle)` = `MiePhaseCos(cos angle)` |
| Transmittance.SamplePointIsMidpoint | Scattering/Transmittance.hpp:25-35 | sample i is a + (b - a)(i + 1/2)/n, the midpoint of the i-th of n equal pieces |
| Transmittance.MidpointParameterInside | Scattering/Transmittance.hpp:33-35 | each sample's parameter (i + 1/2)/n lies strictly inside (0, 1) |
| Transmittance.GetPathTransmittance | Scattering/Transmittance.hpp:19-47 | the loop's result equals `PathTransmittance`: exp of minus the optical depth (density sums over the n midpoints weighted by the extinction coefficients) times the step length |
| Transmittance.EmptyPathTransmittance | Scattering/Transmittance.hpp:25-46 | a path from a point to itself has transmittance (1, 1, 1) |
| Transmittance.PathDensitiesNonNegative | Scattering/Transmittance.hpp:29-41 | the accumulated density sums are non-negative |
| Transmittance.TransmittanceInUnitInterval | Scattering/Transmittance.hpp:43-46 | with non-negative extinction coefficients each channel lies in (0, 1] |
| Transmittance.AttenuationInUnitInterval | Scattering/Transmittance.hpp:46 | exp of minus a non-negative depth over a non-negative length lies in (0, 1] per channel |
| Scattering.GetPathScattering | Scattering/Scattering.hpp:18-65 | the loop's result equals `PathScattering`: shadowed samples add nothing, the others add sun-to-point times point-to-start transmittance times density; phases taken once at the path–sun cosine; the total scaled by the step length |
| Scattering.ZeroSumsScatterNothing | Scattering/Scattering.hpp:60-63 | zero accumulators give zero scattering |
| Scattering.ShadowedSumsVanish | Scattering/Scattering.hpp:41-45 | when every sample is shadowed both accumulators stay zero |
| Scattering.AllShadowedGivesZero | Scattering/Scattering.hpp:33-63 | if the planet shadows every sample, the result is the zero vector |
| Scattering.SampleSunRayLeaves | Scattering/Scattering.hpp:47-48 | from a sample of a path inside the atmosphere, the sun ray leaves the atmosphere |
| Scattering.SunRaysLeaveFromInside | Scattering/Scattering.hpp:47-48 | for such a path the unchecked `.value()` succeeds at every sample |
| Scattering.CanScatterInsideAtmosphere | Scattering/Scattering.hpp:26-61 | for a physical planet, a non-empty path inside the atmosphere and a non-zero sun direction, every requirement of `GetPathScattering` holds |
| ViewPaths.ZenithDirectionIsUnit | Scattering/TransmittanceMap.hpp:44-45 | (sin acos c, c, 0) is a unit vector whose cosine to the vertical is c |
| ViewPaths.PathStartInsideShell | Scattering/TransmittanceMap.hpp:54 | a start point at a fraction in (0, 1) of the atmosphere height lies strictly between the ground and the top of the atmosphere |
| ViewPaths.PathEndFromShell | Scattering/TransmittanceMap.hpp:56-74 | from inside the shell the path end exists: the ground hit if any, else the atmosphere exit; it differs from the start and lies inside or on the top of the atmosphere |
| TransmittanceMaps.ZenithCosMappingRoundTrip | Scattering/TransmittanceMap.hpp:79-89 | `UToZenithCos` and `ZenithCosToU` are mutual inverses |
| TransmittanceMaps.TransmittanceTowardsDefined | Scattering/TransmittanceMap.hpp:51-77 | for a physical planet every non-zero direction yields a transmittance, in (0, 1] per channel with non-negative extinction |
| TransmittanceMaps.TransmittanceMap.constructor | Scattering/TransmittanceMap.hpp:15-20 | a copy of the properties and a zero texture of the given resolution |
| TransmittanceMaps.TransmittanceMap.CalculateUsingDirection | Scattering/TransmittanceMap.hpp:51-77 | the start at planet radius + 0.01 height, the ground hit, else the atmosphere hit, else `None` for the `throw;`, then the path transmittance: equal to `TransmittanceTowards` |
| TransmittanceMaps.TransmittanceMap.CalculateUsingZenithCos | Scattering/TransmittanceMap.hpp:41-49 | the same for the direction of the given zenith cosine |
| TransmittanceMaps.TransmittanceMap.CellZenithCosInside | Scattering/TransmittanceMap.hpp:27-28 | every cell's zenith cosine lies strictly in (0, 1) |
| TransmittanceMaps.TransmittanceMap.CellsDefinedForPhysicalPlanet | Scattering/TransmittanceMap.hpp:22-32 | for a physical planet no cell reaches the `throw;`, and every cell lies in (0, 1] with non-negative extinction |
| TransmittanceMaps.TransmittanceMap.Compute | Scattering/TransmittanceMap.hpp:22-32 | afterwards every cell i holds the transmittance for the zenith cosine `UToZenithCos(IndexToU(i))` |
| ScatteringMaps.LinearViewMapping | Scattering/ScatteringMap.hpp:101-126 | the linear view mapping and its inverse undo each other, and u in [0, 1] exactly when -u is in [-1, 0] |
| ScatteringMaps.CubicViewMapping | Scattering/ScatteringMap.hpp:108-111 | -u^3 lies in [-1, 0] for u in [0, 1] and never increases |
| ScatteringMaps.LinearSunMapping | Scattering/ScatteringMap.hpp:128-149 | 1 - 2v and (1 - c)/2 undo each other, v in [0, 1] exactly when 1 - 2v is in [-1, 1], from 1 at v = 0 to -1 at v = 1 |
| ScatteringMaps.CubicSunMappingFallsThrough | Scattering/ScatteringMap.hpp:128-149 | both cubic sun mappings fall through the `switch` and return 0 |
| ScatteringMaps.SunAzimuthMapping | Scattering/ScatteringMap.hpp:151-162 | the azimuth mapping and its inverse undo each other, and map [0, 1] onto [-1, 1] |
| ScatteringMaps.ScatteringTowardsDefined | Scattering/ScatteringMap.hpp:64-99 | for a physical planet and non-zero directions the view path has an end and `GetPathScattering` accepts it |
| ScatteringMaps.ScatteringMap.constructor | Scattering/ScatteringMap.hpp:19-26 | one row per sun zenith cosine, one column per view zenith cosine, all zero; the properties copied |
| ScatteringMaps.ScatteringMap.Calculate | Scattering/ScatteringMap.hpp:64-99 | the start at planet radius + 0.95 height, the ground hit, else the atmosphere hit, else `None` for the `throw;`, then the path scattering: equal to `ScatteringTowards` |
| ScatteringMaps.ScatteringMap.CellsDefinedForPhysicalPlanet | Scattering/ScatteringMap.hpp:35-54 | for a physical planet no cell reaches the `throw;`, under either mapping |
| ScatteringMaps.ScatteringMap.Compute | Scattering/ScatteringMap.hpp:35-54 | afterwards every cell (i, j) holds the scattering for the view cosine of column j and the sun cosine of row i |
| ScatteringMaps.ScatteringMap.ComputeRow | Scattering/ScatteringMap.hpp:43-52 | one pass of the row loop fills row i with its cells; the frame leaves the other rows alone |
| ScatteringMaps.ScatteringMap.ComputeCell | Scattering/ScatteringMap.hpp:48-51 | one pass of the column loop: cell j of row i becomes `Calculate` at that cell's view zenith cosine and the row's sun zenith cosine; no other cell of the row changes |
| IrradianceMaps.ZenithCosMapping | Scattering/IrradianceMap.hpp:84-94 | 1 - 2u and (1 - c)/2 undo each other; u in [0, 1] exactly when 1 - 2u is in [-1, 1], from 1 down to -1 |
| IrradianceMaps.SemispherePointIsUnit | Scattering/IrradianceMap.hpp:96-109 | every generated direction is a unit vector |
| IrradianceMaps.SemispherePointIsUpward | Scattering/IrradianceMap.hpp:101-108 | every generated direction points into the upper hemisphere, and the square of its zenith cosine is 1 - d for the zenith draw d |
| IrradianceMaps.Directions | Scattering/IrradianceMap.hpp:59-73 | one direction per pair of draws, in order |
| IrradianceMaps.GenerateSemisphereDirections | Scattering/IrradianceMap.hpp:59-73 | the `push_back` loop returns exactly `number` directions, the i-th built from the i-th draws |
| IrradianceMaps.CanGatherInsideAtmosphere | Scattering/IrradianceMap.hpp:76-82 | for a physical planet the start lies inside the shell, so the unchecked `.value()` succeeds for every non-zero direction and `GetPathScattering` accepts the path |
| IrradianceMaps.Lights | Scattering/IrradianceMap.hpp:43-46 | one gathered light per direction, in the order of the directions |
| IrradianceMaps.LightSumSnoc | Scattering/IrradianceMap.hpp:43-47 | adding a light at the end of the sequence adds it to the sum |
| IrradianceMaps.AccumulatedIsWeightedSum | Scattering/IrradianceMap.hpp:43-47 | repeated `tex[i] += light * dw` leaves the old value plus dw times the sum of the lights |
| IrradianceMaps.AccumulatedOnTop | Scattering/IrradianceMap.hpp:43-47 | the accumulation adds to whatever the cell held: the result is the old value plus the estimate from zero, so a second `Compute` adds its own estimate on top, and doubles a cell that started at zero only when it sees the same lights |
| IrradianceMaps.SolidAngle | Scattering/IrradianceMap.hpp:31 | dw times the sample count is 2 PI |
| IrradianceMaps.IrradianceMap.constructor | Scattering/IrradianceMap.hpp:20-27 | a zero texture of the given resolution, the sample count and a copy of the properties |
| IrradianceMaps.IrradianceMap.Calculate | Scattering/IrradianceMap.hpp:76-82 | the scattering from planet radius + 0.01 height to the atmosphere exit: equal to `Gathered` |
| IrradianceMaps.IrradianceMap.CellLights | Scattering/IrradianceMap.hpp:35-46 | each cell gathers one light per generated direction, under its own sun direction |
| IrradianceMaps.IrradianceMap.CellsDefinedForPhysicalPlanet | Scattering/IrradianceMap.hpp:35-48 | for a physical planet no cell reaches a failing `.value()`, whatever the draws |
| IrradianceMaps.IrradianceMap.CellsAfter | Scattering/IrradianceMap.hpp:35-48 | after the first i cells, each handled cell is its old value plus the accumulated lights, and every other cell is unchanged |
| IrradianceMaps.IrradianceMap.Compute | Scattering/IrradianceMap.hpp:29-49 | every cell gets dw = 2 PI / samples times the light over the directions added to what it held; the directions are generated once, before the cell loop |
| IrradianceMaps.IrradianceMap.ComputeCell | Scattering/IrradianceMap.hpp:37-47 | one pass of the cell loop: cell i gets `light * dw` added for each direction in turn; no other cell changes |

## Left out

- Float rounding, NaN and infinities are not modelled. All arithmetic is exact over `real`, and the math functions are uninterpreted apart from the laws each property states.
- Randomness: `std::random_device`, `mt19937` and `uniform_real_distribution` are replaced by the sequence of uniform draws they would produce (`SemisphereDraw`). The draws are a parameter of `GenerateSemisphereDirections` and `Compute`.
- IrradianceMaps.GenerateSemisphereDirections: requires as many draws as `number`. A negative `number`, for which `reserve` throws, is not modelled.
- IrradianceMaps.SolidAngle: returns 0 for zero samples, where the source divides by zero. The value is never used then, because there are no directions.
- The `#pragma omp parallel for` loops run sequentially in the model. Cells are independent, and the row and cell frames show that each pass writes only its own cells.
- `ComputeRow` and `ComputeCell` are the bodies of the loops of the scattering and irradiance `Compute`, split out as methods. `NewSlabs` is the loop of the `Texture3D` constructor.
- TransmittanceMaps.TransmittanceMap.Compute, ScatteringMaps.ScatteringMap.Compute, IrradianceMaps.IrradianceMap.Compute: require that no cell reaches a `throw;` or an unchecked `.value()`, since either ends the program. The `CellsDefinedForPhysicalPlanet` lemmas show this holds for every physical planet.
- Vec3.AngleCos: requires both lengths non-zero. The source then divides by zero and yields NaN or infinity, which the model does not represent.
- Scattering.GetPathScattering: requires `CanScatter`, which includes a path of non-zero length (a != b) and a non-zero sun direction. For a == b the source's `AngleCos(path, sunDir)` divides 0 by 0 and yields NaN, and the model does not represent that result. Scattering.CanScatterInsideAtmosphere, ScatteringMaps.ScatteringTowardsDefined and IrradianceMaps.CanGatherInsideAtmosphere show that the builders never reach that case.
- Textures.Texture1D.Sample, Textures.Texture2D.Sample, Textures.Texture3D.Sample: require a coordinate in [0, 1] and at least one cell, the domain on which the endpoint and betweenness promises are stated. Outside it the source does different things. A one-cell texture returns its only cell for every finite coordinate. Just above 1 the source clamps to the last cell (n = 11, u = 1.05 gives d = 10.5 and the last cell, 10). Just below 0 it extrapolates from cells 0 and 1 with a negative weight. Further out the index leaves the array: u = 2 on a two-cell texture reads cells 2 and 3. Below -1/(n - 1) the cast of a negative float to `size_t` is undefined. With zero cells, n - 1 wraps around in `size_t`. None of this is modelled.
- Planet.PlanetProperties.MiePhaseOfAngle: requires that the power in the denominator is non-zero. Division by zero is not modelled.
- The cubic inverse `ViewZenithCosToU(Cubic, ...)` is modelled, but no round trip is claimed. It applies `powf` with exponent 1/3 to a non-positive number, which gives NaN for negative values.
- `Texture3D` is modelled for `Vector3` cells only, because its constructor always builds `Texture2D<Vector3>` slabs. `Texture2D` and `Texture1D` also hold only `Vector3`, the one cell type the builders use.
- `GetUResolution` of `Texture1D` and the `GetVResolution`/`GetWResolution` of the 2D and 3D textures are the constant fields themselves. The read-only `operator[]` is array or sequence indexing. The builders' `GetTexture` is the constant `tex` field.
- The default constructors of the textures and of `Vector2`/`Vector3` (the zero vector is `Vec3.Zero`) are not modelled separately.
- The stream printers (`operator<<`), Scattering/TextureExport.hpp (file output and half-float packing) and Scattering/main.cpp (the driver) are not part of this model.
- `std::sin`/`std::cos` (double) and `sinf`/`cosf` (float) are the same uninterpreted functions.
- The source spells Rayleigh "Rayleight". The model uses the usual spelling.
- IrradianceMaps.SemispherePointIsUpward: `UniformSemispherePoint` draws the zenith as asin(sqrt(d)). The directions are therefore cosine-weighted, not uniform over the hemisphere, despite the name. The lemma states the distribution of the zenith cosine that the code produces and claims nothing about the Monte Carlo weight.
