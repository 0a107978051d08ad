/** The scene objects of utils.h: lights, materials and the two kinds of
    figure, with their ray intersection tests and surface normals. */
module Utils {
  import opened Numerics
  import opened Geometry
  import opened DefaultValues

  datatype Option<T> = None | Some(value: T)

  /** A point light source. */
  datatype Light = Light(position: Point3, intensity: real)

  /** How a surface scatters light: albedo weighs the diffuse, specular,
      reflected and refracted terms of the shader, in that order. */
  datatype Material = Material(
    refractiveIndex: real,
    albedo: Point4,
    diffuseColor: Point3,
    specularExponent: real)

  /** Material(): index 1, all weight on the diffuse term, a black colour. */
  const DefaultMaterial: Material := Material(1.0, [1.0, 0.0, 0.0, 0.0], [0.0, 0.0, 0.0], 0.0)

  // The Materials catalogue

  const Ivory: Material := Material(1.0, [0.6, 0.3, 0.1, 0.0], [0.4, 0.4, 0.3], 50.0)
  const Glass: Material := Material(1.5, [0.0, 0.5, 0.1, 0.8], [0.6, 0.7, 0.8], 125.0)
  const Mirror: Material := Material(1.0, [0.0, 10.0, 0.8, 0.0], [1.0, 1.0, 1.0], 1425.0)
  const RedRubber: Material := Material(1.0, [0.9, 0.1, 0.0, 0.0], [0.3, 0.1, 0.1], 10.0)
  const SceneWalls: Material := Material(1.0, [0.8, 0.2, 0.2, 0.0], [0.7, 0.7, 0.7], 100.0)
  const Custom: Material := Material(1.0, [0.4, 0.3, 0.1, 0.0], [0.6, 0.3, 0.6], 50.0)
  /** The flat material every surface is drawn with in the preview. */
  const Wire: Material := Material(1.0, [0.6, 0.3, 0.1, 0.0], [0.1, 0.1, 0.1], 50.0)

  /** Figure is an abstract base with exactly two implementations. A plane
      keeps its equation ax + by + cz + d = 0 in abcd and the normal it
      reports in normalV. */
  datatype Figure =
    | Sphere(center: Point3, radius: real, material: Material)
    | Plane(abcd: Point4, normalV: Point3, material: Material)

  /** The point orig + dir * t on a ray. */
  function At(orig: Point3, dir: Point3, t: real): Point3 {
    Add(orig, Scale(dir, t))
  }

  // Planes

  /** Plane::cross, the cross product. */
  function Cross(v1: Point3, v2: Point3): Point3 {
    [v1[1] * v2[2] - v1[2] * v2[1],
     v1[2] * v2[0] - v1[0] * v2[2],
     v1[0] * v2[1] - v1[1] * v2[0]]
  }

  /** The first three coefficients of a plane equation. */
  function Abc(abcd: Point4): Point3 {
    [abcd[0], abcd[1], abcd[2]]
  }

  /** Plane(abcd, m): the equation is kept and its normal scaled to length 1. */
  function PlaneFromCoefficients(m: Math, abcd: Point4, mat: Material): (f: Figure)
    ensures f.Plane? && f.abcd == abcd && f.material == mat
  {
    Plane(abcd, Normalized(m, Abc(abcd), 1.0), mat)
  }

  /** Plane(p1, p2, p3, m) as written: the normal is the unnormalised cross
      product of the two edges leaving p1, orthogonal to both, and d is +cp.p3. */
  function PlaneFromPoints(p1: Point3, p2: Point3, p3: Point3, mat: Material): (f: Figure)
    ensures f.Plane? && f.material == mat
    ensures f.normalV == Cross(Sub(p3, p1), Sub(p2, p1)) && Abc(f.abcd) == f.normalV
    ensures f.abcd[3] == Dot(f.normalV, p3)
    ensures Dot(f.normalV, Sub(p3, p1)) == 0.0 && Dot(f.normalV, Sub(p2, p1)) == 0.0
  {
    var cp := Cross(Sub(p3, p1), Sub(p2, p1));
    CrossOrthogonal(Sub(p3, p1), Sub(p2, p1));
    Plane([cp[0], cp[1], cp[2], Dot(cp, p3)], cp, mat)
  }

  /** The three-point plane with d = -cp.p3, the sign that puts the three
      points on the plane. */
  function PlaneThroughPoints(p1: Point3, p2: Point3, p3: Point3, mat: Material): (f: Figure)
    ensures f.Plane? && f.material == mat
  {
    var cp := Cross(Sub(p3, p1), Sub(p2, p1));
    Plane([cp[0], cp[1], cp[2], -Dot(cp, p3)], cp, mat)
  }

  /** Plane::inBox: the room that clips every plane, bounds included. */
  predicate InBox(p: Point3) {
    p[2] <= ZN && p[2] >= ZF
    && p[1] >= SCENE_Y_BOTTOM && p[1] <= SCENE_Y_BOTTOM + SCENE_HEIGHT
    && p[0] >= SCENE_X_LEFT && p[0] <= SCENE_X_LEFT + SCENE_WIDTH
  }

  /** The room in numbers: z in [-30.001, -9.999], y in [-4.001, 8.001],
      x in [-10.001, 10.001], every bound included. */
  lemma InBoxBounds(p: Point3)
    ensures InBox(p) <==> -30.001 <= p[2] <= -9.999 && -4.001 <= p[1] <= 8.001
                          && -10.001 <= p[0] <= 10.001
  {
  }

  /** Plane::valuesAreSimilar. */
  predicate ValuesAreSimilar(d1: real, d2: real) {
    Abs(d1 - d2) <= 0.1
  }

  /** Plane::atBorders: counts the axes on which p is close to a wall of the room. */
  function AtBorders(p: Point3): (b: bool)
    ensures b <==> (NearZWall(p) && NearYWall(p)) || (NearZWall(p) && NearXWall(p))
                   || (NearYWall(p) && NearXWall(p))
  {
    var c1 := if NearZWall(p) then 1 else 0;
    var c2 := if NearYWall(p) then 1 else 0;
    var c3 := if NearXWall(p) then 1 else 0;
    c1 + c2 + c3 >= 2
  }

  predicate NearZWall(p: Point3) {
    ValuesAreSimilar(p[2], ZN) || ValuesAreSimilar(p[2], ZF)
  }

  predicate NearYWall(p: Point3) {
    ValuesAreSimilar(p[1], SCENE_Y_BOTTOM) || ValuesAreSimilar(p[1], SCENE_Y_BOTTOM + SCENE_HEIGHT)
  }

  predicate NearXWall(p: Point3) {
    ValuesAreSimilar(p[0], SCENE_X_LEFT) || ValuesAreSimilar(p[0], SCENE_X_LEFT + SCENE_WIDTH)
  }

  /** Plane::pointOnPlane: the equation holds up to 0.5. */
  predicate PointOnPlane(f: Figure, p: Point3)
    requires f.Plane?
  {
    Abs(Equation(f.abcd, p)) <= 0.5
  }

  /** The left-hand side of ax + by + cz + d = 0 at p. */
  function Equation(abcd: Point4, p: Point3): real {
    abcd[0] * p[0] + abcd[1] * p[1] + abcd[2] * p[2] + abcd[3]
  }

  /** Plane::rayIntersect: the distance along dir at which the ray meets the
      plane, if the plane faces the ray, the distance is at least OFFSET and
      the meeting point lies in the room. */
  function PlaneIntersect(f: Figure, orig: Point3, dir: Point3): (r: Option<real>)
    requires f.Plane?
    ensures Dot(f.normalV, dir) > OFFSET ==> r == None
    ensures r.Some? ==> OFFSET <= r.value && InBox(At(orig, dir, r.value))
  {
    var dot := Dot(f.normalV, dir);
    if dot > OFFSET then None
    else if dot == 0.0 then None  // the C++ divides by zero here and every outcome is a miss
    else
      var tRez := -(Dot(f.normalV, orig) + f.abcd[3]) / dot;
      var hit := At(orig, dir, tRez);
      if tRez < OFFSET || !InBox(hit) then None else Some(tRez)
  }

  // Spheres

  /** Sphere::rayIntersect: the nearer of the two distances at which the line
      crosses the sphere, or the farther one when the nearer lies behind the
      origin; a miss when the line passes wide or both lie behind. */
  function SphereIntersect(m: Math, f: Figure, orig: Point3, dir: Point3): (r: Option<real>)
    requires f.Sphere?
    ensures r.Some? ==> 0.0 <= r.value
  {
    if MissDistanceSquared(f, orig, dir) > f.radius * f.radius then None
    else
      var tca := ClosestApproach(f, orig, dir);
      var thc := HalfChord(m, f, orig, dir);
      var t0 := tca - thc;
      var t1 := tca + thc;
      var t := if t0 < 0.0 then t1 else t0;
      if t < 0.0 then None else Some(t)
  }

  /** Figure::rayIntersect, dispatched on the kind of figure. */
  function RayIntersect(m: Math, f: Figure, orig: Point3, dir: Point3): (r: Option<real>)
    ensures r.Some? ==> 0.0 <= r.value
  {
    match f
    case Sphere(_, _, _) => SphereIntersect(m, f, orig, dir)
    case Plane(_, _, _) => PlaneIntersect(f, orig, dir)
  }

  /** Figure::normal: a plane's stored normal, or the unit vector from a
      sphere's centre to the hit point. */
  function FigureNormal(m: Math, f: Figure, hit: Point3): Point3 {
    match f
    case Sphere(center, _, _) => Normalized(m, Sub(hit, center), 1.0)
    case Plane(_, normalV, _) => normalV
  }

  // The intersection tests as the source computes them, writing the
  // out-parameter t0 step by step

  /** Plane::rayIntersect: t0 is written only on a hit. */
  method PlaneRayIntersect(f: Figure, orig: Point3, dir: Point3, t0In: real)
    returns (ok: bool, t0: real)
    requires f.Plane?
    ensures ok == PlaneIntersect(f, orig, dir).Some?
    ensures ok ==> t0 == PlaneIntersect(f, orig, dir).value
    ensures !ok ==> t0 == t0In
  {
    t0 := t0In;
    var dot := DotProduct(f.normalV, dir);
    if dot > OFFSET {
      return false, t0;
    }
    if dot == 0.0 {
      return false, t0;
    }
    var no := DotProduct(f.normalV, orig);
    var tRez := -(no + f.abcd[3]) / dot;
    var step := Times(dir, tRez);
    var hit := Plus(orig, step);
    if tRez < OFFSET || !InBox(hit) {
      return false, t0;
    }
    t0 := tRez;
    ok := true;
  }

  /** Sphere::rayIntersect: t0 is first set to the nearer root and then
      replaced by the farther one when the nearer lies behind the origin. */
  method SphereRayIntersect(m: Math, f: Figure, orig: Point3, dir: Point3, t0In: real)
    returns (ok: bool, t0: real)
    requires f.Sphere?
    ensures ok == SphereIntersect(m, f, orig, dir).Some?
    ensures ok ==> t0 == SphereIntersect(m, f, orig, dir).value
    ensures !ok ==> t0 == t0In || t0 < 0.0
  {
    t0 := t0In;
    var L := Minus(f.center, orig);
    var tca := DotProduct(L, dir);
    var ll := DotProduct(L, L);
    var d2 := ll - tca * tca;
    assert tca == ClosestApproach(f, orig, dir) && d2 == MissDistanceSquared(f, orig, dir);
    if d2 > f.radius * f.radius {
      return false, t0;
    }
    var gap := f.radius * f.radius - d2;
    assert gap == RadiusGap(f, orig, dir);
    var thc := m.sqrt(gap);
    t0 := tca - thc;
    var t1 := tca + thc;
    if t0 < 0.0 {
      t0 := t1;
    }
    if t0 < 0.0 {
      return false, t0;
    }
    ok := true;
  }

  /** The virtual call fig->rayIntersect(orig, dir, t0). */
  method Intersect(m: Math, f: Figure, orig: Point3, dir: Point3, t0In: real)
    returns (ok: bool, t0: real)
    ensures ok == RayIntersect(m, f, orig, dir).Some?
    ensures ok ==> t0 == RayIntersect(m, f, orig, dir).value
  {
    if f.Sphere? {
      ok, t0 := SphereRayIntersect(m, f, orig, dir, t0In);
    } else {
      ok, t0 := PlaneRayIntersect(f, orig, dir, t0In);
    }
  }

  // Properties of the planes

  /** The cross product is orthogonal to both of its arguments. */
  lemma CrossOrthogonal(v1: Point3, v2: Point3)
    ensures Dot(Cross(v1, v2), v1) == 0.0 && Dot(Cross(v1, v2), v2) == 0.0
  {
    Dot3(Cross(v1, v2), v1);
    Dot3(Cross(v1, v2), v2);
  }

  /** The coefficient plane keeps abcd and reports (a, b, c) scaled to a unit normal. */
  lemma PlaneFromCoefficientsUnitNormal(m: Math, abcd: Point4, mat: Material)
    requires Lawful(m) && Abc(abcd) != Zero(3)
    ensures PlaneFromCoefficients(m, abcd, mat).abcd == abcd
    ensures 0.0 < Norm(m, Abc(abcd))
    ensures PlaneFromCoefficients(m, abcd, mat).normalV
            == Scale(Abc(abcd), 1.0 / Norm(m, Abc(abcd)))
    ensures Dot(PlaneFromCoefficients(m, abcd, mat).normalV,
                PlaneFromCoefficients(m, abcd, mat).normalV) == 1.0
  {
    NormZeroIffOrigin(m, Abc(abcd));
    NormSquared(m, Abc(abcd));
    NormalizedUnit(m, Abc(abcd));
  }

  /** As written, the three-point plane can miss the points it is built from:
      through (0,0,1), (1,0,1), (0,1,1) the equation is -z - 1 = 0, which
      is 2 away from holding at each of them. */
  lemma PlaneFromPointsMissesItsPoints()
    ensures var f := PlaneFromPoints([0.0, 0.0, 1.0], [1.0, 0.0, 1.0], [0.0, 1.0, 1.0], Wire);
            f.abcd == [0.0, 0.0, -1.0, -1.0]
            && Equation(f.abcd, [0.0, 0.0, 1.0]) == -2.0
            && !PointOnPlane(f, [0.0, 0.0, 1.0])
            && !PointOnPlane(f, [1.0, 0.0, 1.0])
            && !PointOnPlane(f, [0.0, 1.0, 1.0])
  {
    var f := PlaneFromPoints([0.0, 0.0, 1.0], [1.0, 0.0, 1.0], [0.0, 1.0, 1.0], Wire);
    assert Sub([0.0, 1.0, 1.0], [0.0, 0.0, 1.0]) == [0.0, 1.0, 0.0];
    assert Sub([1.0, 0.0, 1.0], [0.0, 0.0, 1.0]) == [1.0, 0.0, 0.0];
    assert f.normalV == [0.0, 0.0, -1.0];
    Dot3(f.normalV, [0.0, 1.0, 1.0]);
    Dot3(Abc(f.abcd), [0.0, 0.0, 1.0]);
  }

  /** With d = -cp.p3 the equation holds exactly at all three points. */
  lemma PlaneThroughPointsContainsPoints(p1: Point3, p2: Point3, p3: Point3, mat: Material)
    ensures var f := PlaneThroughPoints(p1, p2, p3, mat);
            Equation(f.abcd, p1) == 0.0 && Equation(f.abcd, p2) == 0.0 && Equation(f.abcd, p3) == 0.0
            && PointOnPlane(f, p1) && PointOnPlane(f, p2) && PointOnPlane(f, p3)
    ensures var f := PlaneThroughPoints(p1, p2, p3, mat);
            f.normalV == Cross(Sub(p3, p1), Sub(p2, p1)) && Abc(f.abcd) == f.normalV
  {
    var f := PlaneThroughPoints(p1, p2, p3, mat);
    var cp := Cross(Sub(p3, p1), Sub(p2, p1));
    assert Abc(f.abcd) == cp;
    CrossOrthogonal(Sub(p3, p1), Sub(p2, p1));
    DotSubRight(cp, p3, p1);
    DotSubRight(cp, p2, p1);
    PointOnPlaneTolerance(f, p1);
    PointOnPlaneTolerance(f, p2);
    PointOnPlaneTolerance(f, p3);
  }

  /** pointOnPlane accepts p when the plane's equation (a, b, c).p + d is
      within 0.5 of zero there. */
  lemma PointOnPlaneTolerance(f: Figure, p: Point3)
    requires f.Plane?
    ensures Equation(f.abcd, p) == Dot(Abc(f.abcd), p) + f.abcd[3]
    ensures PointOnPlane(f, p) <==> -0.5 <= Dot(Abc(f.abcd), p) + f.abcd[3] <= 0.5
  {
    Dot3(Abc(f.abcd), p);
  }

  /** A plane hit lies on the plane whose normal the test used: normalV.hit + d == 0. */
  lemma PlaneHitOnPlane(f: Figure, orig: Point3, dir: Point3)
    requires f.Plane? && PlaneIntersect(f, orig, dir).Some?
    ensures var t := PlaneIntersect(f, orig, dir).value;
            Dot(f.normalV, At(orig, dir, t)) + f.abcd[3] == 0.0
  {
    var t := PlaneIntersect(f, orig, dir).value;
    var dot := Dot(f.normalV, dir);
    DotAddRight(f.normalV, orig, Scale(dir, t));
    DotScaleRight(f.normalV, dir, t);
    assert t * dot == -(Dot(f.normalV, orig) + f.abcd[3]);
  }

  /** The plane's facing test, spelled out: a plane is hit only by a ray
      whose direction does not point along normalV by more than OFFSET, and
      never by a ray parallel to it. */
  lemma PlaneFacing(f: Figure, orig: Point3, dir: Point3)
    requires f.Plane? && PlaneIntersect(f, orig, dir).Some?
    ensures Dot(f.normalV, dir) <= OFFSET && Dot(f.normalV, dir) != 0.0
  {
  }

  /** Plane::normal does not depend on the hit point. */
  lemma PlaneNormalIgnoresHit(m: Math, f: Figure, h1: Point3, h2: Point3)
    requires f.Plane?
    ensures FigureNormal(m, f, h1) == FigureNormal(m, f, h2) == f.normalV
  {
  }

  // Properties of the spheres

  /** The distance along the ray to the point nearest the centre (tca). */
  function ClosestApproach(f: Figure, orig: Point3, dir: Point3): real
    requires f.Sphere?
  {
    Dot(Sub(f.center, orig), dir)
  }

  /** The squared distance from the centre to the line through orig along
      dir, for a unit dir (d2). */
  function MissDistanceSquared(f: Figure, orig: Point3, dir: Point3): real
    requires f.Sphere?
  {
    var L := Sub(f.center, orig);
    Dot(L, L) - ClosestApproach(f, orig, dir) * ClosestApproach(f, orig, dir)
  }

  /** How far the squared radius exceeds d2. */
  function RadiusGap(f: Figure, orig: Point3, dir: Point3): real
    requires f.Sphere?
  {
    f.radius * f.radius - MissDistanceSquared(f, orig, dir)
  }

  /** Half the chord the line cuts from the sphere (thc). */
  function HalfChord(m: Math, f: Figure, orig: Point3, dir: Point3): real
    requires f.Sphere?
  {
    m.sqrt(RadiusGap(f, orig, dir))
  }

  /** p lies on the surface of the sphere f. */
  predicate OnSphere(f: Figure, p: Point3)
    requires f.Sphere?
  {
    Dot(Sub(p, f.center), Sub(p, f.center)) == f.radius * f.radius
  }

  /** The outcome of the sphere test by cases: a line wider than the radius
      misses (a tangent one does not); otherwise the result is the nearer
      root tca - thc when it is non-negative, else the farther root
      tca + thc when that is non-negative, else a miss. */
  lemma SphereIntersectCases(m: Math, f: Figure, orig: Point3, dir: Point3)
    requires f.Sphere?
    ensures var r := SphereIntersect(m, f, orig, dir);
            var tca := ClosestApproach(f, orig, dir);
            var thc := HalfChord(m, f, orig, dir);
            if MissDistanceSquared(f, orig, dir) > f.radius * f.radius then r == None
            else if tca - thc >= 0.0 then r == Some(tca - thc)
            else if tca + thc >= 0.0 then r == Some(tca + thc)
            else r == None
  {
  }

  /** For a unit direction, the squared distance from the centre to the point
      at distance s along the ray is (s - tca)^2 + d2: the closest point of the
      line splits it at a right angle. */
  lemma DistanceAlongRay(f: Figure, orig: Point3, dir: Point3, s: real)
    requires f.Sphere? && Dot(dir, dir) == 1.0
    ensures Dot(Sub(At(orig, dir, s), f.center), Sub(At(orig, dir, s), f.center))
            == Square(s - ClosestApproach(f, orig, dir)) + MissDistanceSquared(f, orig, dir)
  {
    var L := Sub(f.center, orig);
    var S := Scale(dir, s);
    var W := Sub(At(orig, dir, s), f.center);
    assert W == Sub(S, L) by {
      assert forall i :: 0 <= i < 3 ==> W[i] == Sub(S, L)[i];
    }
    DotDifferenceSelf(S, L);
    assert Dot(S, S) == Square(s) by {
      DotScaleUnit(dir, s);
    }
    assert Dot(L, S) == s * Dot(L, dir) by {
      DotScaleRight(L, dir, s);
    }
    CompleteSquare(s, Dot(L, dir), Dot(S, S), Dot(L, S), Dot(L, L));
  }

  /** (S - L).(S - L) == S.S - 2 L.S + L.L. */
  lemma DotDifferenceSelf(S: Point3, L: Point3)
    ensures Dot(Sub(S, L), Sub(S, L)) == Dot(S, S) - 2.0 * Dot(L, S) + Dot(L, L)
  {
    var W := Sub(S, L);
    DotSubLeft(S, L, W);
    DotSubRight(S, S, L);
    DotSubRight(L, S, L);
    DotComm(S, L);
  }

  /** The distances s at which a line meets a sphere, (s - tca)^2 + d2 == r2:
      none when d2 > r2, else tca - thc and tca + thc for thc the square root
      of r2 - d2. */
  lemma QuadraticRoots(on: bool, s: real, tca: real, d2: real, r2: real, thc: real)
    requires on <==> Square(s - tca) + d2 == r2
    requires d2 <= r2 ==> 0.0 <= thc && Square(thc) == r2 - d2
    ensures on <==> d2 <= r2 && (s == tca - thc || s == tca + thc)
  {
    var u := s - tca;
    SquareNonNegative(u);
    if d2 <= r2 {
      assert u * u - thc * thc == (u - thc) * (u + thc);
      ProductZero(u - thc, u + thc);
    }
  }

  /** The sphere's equation along the ray, in the same terms. */
  lemma OnSphereQuadratic(f: Figure, orig: Point3, dir: Point3, s: real)
    requires f.Sphere? && Dot(dir, dir) == 1.0
    ensures OnSphere(f, At(orig, dir, s))
            <==> Square(s - ClosestApproach(f, orig, dir)) + MissDistanceSquared(f, orig, dir)
                 == f.radius * f.radius
  {
    DistanceAlongRay(f, orig, dir, s);
  }

  /** The point at distance s along a ray lies on the sphere exactly when s
      is one of the two roots the sphere test computes. */
  lemma OnSphereAlongRay(m: Math, f: Figure, orig: Point3, dir: Point3, s: real)
    requires Lawful(m) && f.Sphere? && Dot(dir, dir) == 1.0
    ensures OnSphere(f, At(orig, dir, s))
            <==> MissDistanceSquared(f, orig, dir) <= f.radius * f.radius
                 && (s == ClosestApproach(f, orig, dir) - HalfChord(m, f, orig, dir)
                     || s == ClosestApproach(f, orig, dir) + HalfChord(m, f, orig, dir))
  {
    OnSphereQuadratic(f, orig, dir, s);
    if MissDistanceSquared(f, orig, dir) <= f.radius * f.radius {
      HalfChordSquared(m, f, orig, dir);
    }
    QuadraticRoots(OnSphere(f, At(orig, dir, s)), s, ClosestApproach(f, orig, dir),
                   MissDistanceSquared(f, orig, dir), f.radius * f.radius, HalfChord(m, f, orig, dir));
  }

  /** For a unit direction, the sphere test finds the nearest point of the
      ray on the sphere: a hit at t lies on the sphere and no point at a
      smaller non-negative distance does; a miss means no point at a
      non-negative distance lies on the sphere. */
  lemma SphereIntersectIsNearestRoot(m: Math, f: Figure, orig: Point3, dir: Point3)
    requires Lawful(m) && f.Sphere? && Dot(dir, dir) == 1.0
    ensures SphereIntersect(m, f, orig, dir).Some? ==>
              var t := SphereIntersect(m, f, orig, dir).value;
              OnSphere(f, At(orig, dir, t))
              && forall s :: 0.0 <= s && OnSphere(f, At(orig, dir, s)) ==> t <= s
    ensures SphereIntersect(m, f, orig, dir).None? ==>
              forall s :: 0.0 <= s ==> !OnSphere(f, At(orig, dir, s))
  {
    var r := SphereIntersect(m, f, orig, dir);
    var tca := ClosestApproach(f, orig, dir);
    var thc := HalfChord(m, f, orig, dir);
    var wide := MissDistanceSquared(f, orig, dir) > f.radius * f.radius;
    SphereIntersectCases(m, f, orig, dir);
    if !wide {
      HalfChordSquared(m, f, orig, dir);
    }
    forall s | 0.0 <= s && OnSphere(f, At(orig, dir, s))
      ensures r.Some? && r.value <= s
    {
      OnSphereAlongRay(m, f, orig, dir, s);
    }
    if r.Some? {
      OnSphereAlongRay(m, f, orig, dir, r.value);
    }
  }

  /** A ray from outside aimed at the centre of a sphere, at distance D,
      first meets it at distance D - radius. */
  lemma SphereHitTowardsCentre(m: Math, f: Figure, orig: Point3, dir: Point3, D: real)
    requires Lawful(m) && f.Sphere? && Dot(dir, dir) == 1.0
    requires 0.0 <= f.radius <= D && f.center == At(orig, dir, D)
    ensures SphereIntersect(m, f, orig, dir) == Some(D - f.radius)
  {
    var L := Sub(f.center, orig);
    assert L == Scale(dir, D) by {
      assert forall i :: 0 <= i < 3 ==> L[i] == Scale(dir, D)[i];
    }
    assert ClosestApproach(f, orig, dir) == D by {
      DotScaleLeft(dir, D, dir);
    }
    assert Dot(L, L) == Square(D) by {
      DotScaleUnit(dir, D);
    }
    assert MissDistanceSquared(f, orig, dir) == 0.0;
    var r, gap := f.radius, RadiusGap(f, orig, dir);
    assert gap == r * r;
    SqrtOfSquare(m, r);
    assert HalfChord(m, f, orig, dir) == m.sqrt(gap) == r;
    SphereIntersectCases(m, f, orig, dir);
  }

  /** thc is the non-negative square root of r^2 - d2 when the line meets the sphere. */
  lemma HalfChordSquared(m: Math, f: Figure, orig: Point3, dir: Point3)
    requires Lawful(m) && f.Sphere?
    requires MissDistanceSquared(f, orig, dir) <= f.radius * f.radius
    ensures 0.0 <= HalfChord(m, f, orig, dir)
    ensures Square(HalfChord(m, f, orig, dir))
            == f.radius * f.radius - MissDistanceSquared(f, orig, dir)
  {
  }

  /** At a point other than its centre, a sphere's normal is the unit vector
      pointing from the centre to that point. */
  lemma SphereNormalIsUnit(m: Math, f: Figure, hit: Point3)
    requires Lawful(m) && f.Sphere? && hit != f.center
    ensures 0.0 < Norm(m, Sub(hit, f.center))
    ensures FigureNormal(m, f, hit) == Scale(Sub(hit, f.center), 1.0 / Norm(m, Sub(hit, f.center)))
    ensures Dot(FigureNormal(m, f, hit), FigureNormal(m, f, hit)) == 1.0
  {
    var v := Sub(hit, f.center);
    assert !(forall i :: 0 <= i < 3 ==> hit[i] == f.center[i]);
    var i :| 0 <= i < 3 && hit[i] != f.center[i];
    assert v[i] != Zero(3)[i];
    NormZeroIffOrigin(m, v);
    NormSquared(m, v);
    NormalizedUnit(m, v);
  }
}
