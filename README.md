# Ray tracer core, modelled in Dafny

This project models the rendering engine of a small Qt ray tracer: the
fixed-dimension point type of `geometry.h`, the lights, materials and figures
of `utils.h` (spheres and clipped planes with their ray intersection tests),
and the renderer of `scene.cpp` (reflection, refraction with the
total-internal-reflection sentinel, the nearest-hit scan `sceneIntersect`, the
depth-bounded recursive shader `castRay` in its two modes, and the pixel loop
of `createImage`). The constants of `defaultvalues.h` are transcribed in
`defaultvalues.dfy`.

C++ `double` is modelled as Dafny `real`. The three `<cmath>` functions the
renderer calls (`sqrt`, `pow`, `tan`) are not computed: they are the fields of
a `Numerics.Math` value that every operation takes as a parameter, and the
proofs that need them assume only `Numerics.Lawful`: a square root of a
non-negative number is non-negative and squares back to it, and a power of a
non-negative base is non-negative.

Files, one module each:

- `numerics.dfy` (`Numerics`): the `Math` parameter, its laws, and small facts of real arithmetic.
- `geometry.dfy` (`Geometry`): `Point<D>` as a sequence of `D` reals (`Point3`, `Point4`). The value-level operators are specification functions (`Dot`, `Add`, `Sub`, `Scale`, `Neg`, `Norm`, `Normalized`). Each C++ operator loop is a method proved to compute its function.
- `defaultvalues.dfy` (`DefaultValues`): the configuration constants.
- `utils.dfy` (`Utils`): `Light`, `Material` and its catalogue, and `Figure = Sphere | Plane`. Each intersection test is a function, plus a method that writes `t0` step by step as the source does. The geometric lemmas live here too.
- `render.dfy` (`Render`): `reflect`, `refract`, the scan, the shader and the class `Scene`. The class holds the figures, the lights, the field of view, the image and the mutable `rendering` flag. The pure specification of `castRay` (`Trace`, `Shading`, `Surface`) takes the flag as a parameter. The methods (`SceneIntersect`, `CastRay`, `CreateImage`) read the field and are proved equal to the specification.

## Model

| member | source | states |
|---|---|---|
| Geometry.Origin | geometry.h:12-14 | A default-constructed point is the zero vector of its dimension. |
| Geometry.FromList | geometry.h:16-22 | The list constructor copies the initializer list component by component, in order. |
| Geometry.DotProduct | geometry.h:46-50 | The accumulation loop returns the sum of the component products. |
| Geometry.DotComm | geometry.h:46-50 | The dot product is symmetric. |
| Geometry.Plus | geometry.h:52-55 | `+` adds component-wise. |
| Geometry.Minus | geometry.h:57-60 | Binary `-` subtracts component-wise. |
| Geometry.AddSubCancel | geometry.h:52-60 | `(a + b) - b == a`. |
| Geometry.Times | geometry.h:62-66 | Scalar `*` multiplies every component of a fresh zero point by the scalar. |
| Geometry.Negate | geometry.h:68-70 | Unary minus is `* (-1)`. |
| Geometry.NegNeg | geometry.h:68-70 | `-(-a) == a`. |
| Geometry.DotScaleLeft | geometry.h:46-66 | Scaling a factor of a dot product scales the product. |
| Geometry.ComputeNorm | geometry.h:34-38 | `norm()` is the square root of the accumulated sum of squares. |
| Geometry.NormSquared | geometry.h:34-38 | `norm()` is non-negative and its square is `a·a`. |
| Geometry.NormZeroIffOrigin | geometry.h:34-38 | `norm()` is zero exactly for the zero vector. |
| Geometry.Normalize | geometry.h:40-43 | `normalize(l)` yields the point scaled by `l / norm()`. |
| Geometry.NormalizedLength | geometry.h:40-43 | For a non-zero norm, the normalized point has norm `abs(l)`. |
| Geometry.NormalizedUnit | geometry.h:40-43 | With the default `l = 1`, the result is a unit vector. |
| Utils.CrossOrthogonal | utils.h:52-57 | `cross(v1, v2)` is orthogonal to both `v1` and `v2`. |
| Utils.PlaneFromCoefficients | utils.h:59-61 | The coefficient plane keeps `abcd` and the material. |
| Utils.PlaneFromCoefficientsUnitNormal | utils.h:59-61 | For non-zero `(a,b,c)`, `normalV` is `(a,b,c)` divided by its norm, a unit vector. |
| Utils.PlaneFromPoints | utils.h:62-69 | The three-point plane has `normalV = cross(p3-p1, p2-p1)`, unnormalised and orthogonal to both edges, with `abcd = (normalV, normalV·p3)` as written. |
| Utils.PlaneFromPointsMissesItsPoints | utils.h:62-69 | As written, the three-point plane does not pass through its points: for (0,0,1), (1,0,1), (0,1,1) it fails `pointOnPlane` at all three. |
| Utils.PlaneThroughPointsContainsPoints | utils.h:62-69 | With `d = -cp·p3`, the plane equation holds exactly at all three points. |
| Utils.PlaneIntersect | utils.h:72-80 | Misses whenever `normalV·dir > OFFSET`. A hit has `t0 >= OFFSET` and its point satisfies `inBox`. |
| Utils.PlaneRayIntersect | utils.h:72-80 | The step-by-step test agrees with `PlaneIntersect`, and writes `t0` only on a hit. |
| Utils.PlaneFacing | utils.h:73-77 | A hit needs `normalV·dir <= OFFSET` and a non-zero `normalV·dir`. |
| Utils.PlaneHitOnPlane | utils.h:75-76 | A plane hit satisfies `normalV·hit + d == 0`. |
| Utils.InBoxBounds | utils.h:91-95 | `inBox` is exactly six inclusive bounds: z in [-30.001, -9.999], y in [-4.001, 8.001], x in [-10.001, 10.001]. |
| Utils.AtBorders | utils.h:97-106 | `atBorders` holds iff at least two of the three axis tests are within 0.1 of a wall. |
| Utils.PointOnPlaneTolerance | utils.h:86-88 | `pointOnPlane` holds iff the plane equation `(a,b,c)·p + d` is within 0.5 of zero at `p`. |
| Utils.PlaneNormalIgnoresHit | utils.h:82-84 | A plane's `normal` is `normalV` whatever the hit point. |
| Utils.SphereIntersect | utils.h:116-127 | A sphere hit has `t0 >= 0`. |
| Utils.SphereRayIntersect | utils.h:116-127 | The step-by-step test, which reassigns `t0`, agrees with `SphereIntersect`. |
| Utils.SphereIntersectCases | utils.h:116-127 | Rejects iff `d2 > r²` (strictly, so tangent rays are accepted) or both roots are negative. Otherwise the result is `tca - thc` if that is non-negative, else `tca + thc`. |
| Utils.Intersect | utils.h:44 | The virtual `rayIntersect` dispatches on the kind of figure. |
| Utils.OnSphereAlongRay | utils.h:117-124 | For a unit `dir`, the point at distance `s` lies on the sphere iff `d2 <= r²` and `s` is `tca ± thc`. |
| Utils.SphereIntersectIsNearestRoot | utils.h:116-127 | For a unit `dir`, a hit lies on the sphere, `abs(orig + dir*t0 - center)² == r²`, and no nearer non-negative point does. A miss means no point at a non-negative distance is on the sphere. |
| Utils.SphereHitTowardsCentre | utils.h:116-127 | A unit ray aimed at the centre, at distance `D >= r`, hits at `D - r`. |
| Utils.SphereNormalIsUnit | utils.h:129-131 | Away from the centre, a sphere's normal is the unit vector from the centre to the point. |
| Render.RefractFlipsOnce | scene.cpp:41-43 | After the flip, `cosi > 0`, so `refract` recurses at most once. |
| Render.Refract | scene.cpp:41-48 | A ray entering the object (`I·N <= 0`) bends by Snell's law with `eta = etaI/etaT` against `N`. A ray leaving it (`I·N > 0`) bends with the indices swapped, against `-N`. |
| Render.EnteringDenserNoTotalReflection | scene.cpp:44-45 | For `etaI <= etaT`, `k >= 0` at every incidence. |
| Render.RefractTotalInternalReflection | scene.cpp:41-47 | When `k < 0` for the ratio and cosine used on the ray's side of the surface, the result is exactly `(1,0,0)`. This holds for a ray leaving the object and for one entering from the denser side. |
| Render.RefractEnteringDenserBends | scene.cpp:44-47 | Entering a denser medium gives `k >= 0`, and the result is `I·eta + N·(eta·cosi - sqrt(k))`. |
| Render.RefractSameMedium | scene.cpp:41-47 | With equal indices, the direction is unchanged. |
| Render.GrazingIntoThinnerMedium | scene.cpp:41-47 | A ray entering at grazing incidence (`I·N == 0`) from index 1 into index 0.5 gets `(1,0,0)`. |
| Render.GlassCriticalAngle | scene.cpp:44-47 | Leaving glass (1.5) at cosine 0.6 is total internal reflection. |
| Render.Reflect | scene.cpp:37-39 | `reflect(I, N, size)·N == (I·N)(1 - 2·size·N·N)`. For a unit `N` and `size = 1`, the normal component is negated. |
| Render.ReflectTwice | scene.cpp:37-39 | For a unit `N`, reflecting twice gives back `I`. |
| Render.DistancesAt | scene.cpp:52-54 | Entry `k` of the scanned distances is what figure `k`'s `rayIntersect` reports. |
| Render.Scan | scene.cpp:52-60 | The nearest-hit scan's result is a figure that was hit, at the distance it reported. |
| Render.ScanMissesOnlyWhenNothingIsHit | scene.cpp:52-60 | The scan finds nothing iff no figure is hit. |
| Render.ScanIsNearest | scene.cpp:52-60 | The scan's distance is at most every reported distance. |
| Render.ScanIsFirst | scene.cpp:54 | Every figure before the chosen one is strictly farther, so ties keep the earliest. |
| Render.Scene.constructor | scene.cpp:4-8 | A new scene keeps its figures and lights, has field of view `FOV` and a fresh `WIDTH x HEIGHT` image, and starts in preview mode. |
| Render.Scene.RenderMode | scene.cpp:14-17 | `renderMode()` switches rendering on. |
| Render.Scene.ViewMode | scene.cpp:19-22 | `viewMode()` switches rendering off. |
| Render.Scene.QueryScene | scene.cpp:50-63 | In preview, the material is always `wire`, hit or not. The query succeeds iff some figure is hit and the minimum distance is `< 1000`. |
| Render.Scene.SceneIntersect | scene.cpp:50-63 | The loop over the figures leaves exactly what `QueryScene` describes in the out-parameters. |
| Render.Scene.ShadowTest | scene.cpp:77-83 | The shadow test runs only in render mode. It is a hit of the biased ray nearer than the light. |
| Render.Scene.TermsNonNegative | scene.cpp:85-86 | For a light of non-negative intensity, the Lambert and Phong terms are both non-negative. |
| Render.Scene.LightSumsNonNegative | scene.cpp:72-87 | With every light's intensity non-negative, the diffuse and specular sums are non-negative. |
| Render.Scene.LightSumsStep | scene.cpp:73-87 | One more light adds nothing if shadowed. Otherwise it adds its Lambert term to the diffuse sum and its Phong term to the specular sum. |
| Render.Scene.AddLight | scene.cpp:74-86 | One pass of the light loop takes the sums over the first `k` lights to the sums over `k + 1`. |
| Render.Scene.LambertTerm | scene.cpp:85 | The diffuse increment is `intensity · max(0, lightDir·N)`. |
| Render.Scene.PhongTerm | scene.cpp:86 | The specular increment is `pow(max(0, -reflect(-lightDir, N)·dir), exponent) · intensity`. |
| Render.Scene.Illuminate | scene.cpp:72-87 | The light loop returns the diffuse and specular sums, skipping shadowed lights. |
| Render.Scene.TraceBeyondDepth | scene.cpp:68-70 | Past `DEPTH`, `castRay` returns `BACKGROUND`. |
| Render.Scene.TraceBackground | scene.cpp:68-70 | On a miss, or in preview past `WF_MODE_DEPTH`, `castRay` returns `BACKGROUND`. |
| Render.Scene.TracePreview | scene.cpp:88-90 | In preview, a hit gives `diffuseColor·diffuse·albedo[0]`, with no specular term, no recursion and no shadow test. |
| Render.Scene.TraceRender | scene.cpp:92-105 | In render mode, a hit gives the four-term albedo-weighted sum of the local light and the reflected and refracted rays, each traced at `depth + 1`. |
| Render.Scene.CastRay | scene.cpp:65-106 | `castRay` computes `Trace` for the current mode. Termination follows from the measure `DEPTH + 1 - depth`. |
| Render.Scene.DiffuseTerm | scene.cpp:88-90 | The preview colour is `diffuseColor · diffuse · albedo[0]`. |
| Render.Scene.ReflectRay | scene.cpp:92-93 | The reflected ray is the normalized reflection of `dir`, started off the surface on its side of `N`. |
| Render.Scene.RefractRay | scene.cpp:96-97 | The refracted ray is the normalized refraction of `dir` into the material's index, started off the surface on its side of `N`. |
| Render.Scene.TraceReflected | scene.cpp:92-94 | The reflected colour is `castRay` of the reflected ray at `depth + 1`. |
| Render.Scene.TraceRefracted | scene.cpp:96-98 | The refracted colour is `castRay` of the refracted ray at `depth + 1`. |
| Render.Scene.Shade | scene.cpp:92-105 | The render-mode tail mixes the local light with the reflected and refracted colours, each traced one level deeper. |
| Render.Scene.Blend | scene.cpp:100-103 | The render-mode colour is the weighted sum of the four terms. |
| Render.QuantiseRange | scene.cpp:119 | A quantised channel is an integer in [0, 255]: 0 at or below 0, 255 at or above 1, otherwise the floor of `255·x`. |
| Render.ColourIsBytes | scene.cpp:117-121 | Every channel of a stored colour is in [0, 255]. |
| Render.ToRgb | scene.cpp:117-121 | The channel loop quantises each of the three channels. |
| Render.Scene.PrimaryRay | scene.cpp:112-116 | The pixel direction is `((i+0.5) - w/2, -(j+0.5) + h/2, -h/(2 tan(fov/2)))`, normalized. |
| Render.Scene.PixelDirectionUnit | scene.cpp:112-116 | Every primary ray direction is a unit vector, because `dirZ` is never zero. |
| Render.Scene.PixelSphereHit | scene.cpp:116 | A sphere that a primary ray hits is hit on its surface, at the nearest non-negative distance. If the ray misses, it touches the sphere at no non-negative distance. |
| Render.Scene.ComputePixel | scene.cpp:112-121 | A pixel is the quantised colour of the primary ray cast from (0, 2, 0) at depth 0. |
| Render.Scene.PixelIsBytes | scene.cpp:117-121 | Every channel of every pixel is an integer in [0, 255]. |
| Render.Scene.SetPixel | scene.cpp:116-121 | `setPixel(i, j)` stores the pixel's colour and leaves every other pixel unchanged. |
| Render.Scene.FillRow | scene.cpp:111-122 | The inner loop writes every pixel of row `j` and leaves the other rows unchanged. |
| Render.Scene.CreateImage | scene.cpp:108-122 | Every pixel `(i, j)` with `0 <= i < width` and `0 <= j < height` is written with its quantised colour. |

## Findings

| source | as written | input that shows it | evidently intended | confidence | as-written member | corrected member |
|---|---|---|---|---|---|---|
| utils.h:67 | `d = cp·p3`, so the plane `cp·x + cp·p3 = 0` does not contain its defining points | points (0,0,1), (1,0,1), (0,1,1): the equation is `-z - 1 = 0`, off by 2 at each point | `d = -cp·p3`, so all three points satisfy the equation | not executed; the constructor is unused by the shipped scene | Utils.PlaneFromPointsMissesItsPoints | Utils.PlaneThroughPointsContainsPoints |

## Left out

- The Qt widget plumbing is not modelled: the `QImage` allocation, `getImage`, `paintEvent` with its text overlay, and the `update()` calls of `renderMode`/`viewMode`. `RenderMode`/`ViewMode` only set the flag. The image is an `array2` of `Rgb` triples indexed `[i, j]`.
- `qDebug` progress reporting in `createImage` is output only and is not modelled.
- The main window, its UI slots, image saving, and its hard-coded scene are not part of this model. The scene's figures and lights are constructor arguments.
- IEEE behaviour (rounding, NaN, infinities) is not modelled: `double` is `real`. The `numeric_limits<double>::max()` start of `sceneIntersect` is an explicit "no hit yet" (`None`).
- `Utils.PlaneIntersect`: when `normalV·dir == 0`, the source divides by zero. Under IEEE arithmetic every outcome is a miss (`tRez < OFFSET` or `!inBox`), so the model has an explicit "dot == 0 → miss" branch.
- `Geometry.Normalized`: a point of norm zero yields NaN components in the source. The model leaves such a point unchanged. Every property of normalization is stated for non-zero norms.
- `Geometry.Normalize`: the source overwrites `*this` in place and returns a reference to it. The model returns the new value, and callers use that value.
- `operator[]` is not a separate member: indexing is Dafny sequence indexing, whose proof obligation `i < D` stands for the source's `assert(i < D)`. Every index in the model is proved in range.
- `Geometry.FromList` copies a list of any length. The source writes past the array for a longer list and leaves components unset for a shorter one. Every call in the model passes exactly `D` values.
- `Render.Scene.Valid` asks every figure's refractive index to be non-zero, because `refract` divides by it. The source would divide by zero. Every material of the catalogue satisfies this.
- `Render.Scene.PixelDirection` requires `tan(fov/2) != 0`, where the source would divide by zero.
- The concrete colours of rendered pixels are not computed: they depend on `pow`, `sqrt` and `tan`, which are parameters.
- `Utils.SphereRayIntersect`: on a miss after the roots, `t0` is left at the negative value it reached. The contract says only that it is unchanged or negative.
- Ownership of `Figure*` and the destructors are not modelled.
- `Render.Scene.LightSums`: the order of lights is kept as in the source; reordering lights is not proved to leave the sums unchanged.
