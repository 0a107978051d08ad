/** The renderer of scene.cpp: reflection and refraction, the nearest-hit
    query, the recursive shader castRay and the pixel loop createImage. */
module Render {
  import opened Numerics
  import opened Geometry
  import opened DefaultValues
  import opened Utils

  /** sceneIntersect reports a hit only nearer than this. */
  const FAR: real := 1000.0
  /** The eye, from which createImage casts every primary ray. */
  const CAMERA: Point3 := [0.0, 2.0, 0.0]
  const WHITE: Point3 := [1.0, 1.0, 1.0]
  /** What refract returns under total internal reflection. */
  const TIR: Point3 := [1.0, 0.0, 0.0]

  // reflect and refract

  /** reflect(I, N, size) = I - N * 2 * (I.N) * size: the component of I
      along N is scaled by 1 - 2 * size * (N.N), so for a unit normal and
      size 1 it is negated. */
  function Reflect(I: Point3, N: Point3, size: real): (r: Point3)
    ensures Dot(r, N) == Dot(I, N) * (1.0 - 2.0 * size * Dot(N, N))
  {
    var c, nn := Dot(I, N), Dot(N, N);
    var X := Scale(Scale(Scale(N, 2.0), c), size);
    ScaledNormalDot(N, c, size);
    assert Dot(Sub(I, X), N) == c - size * (c * (2.0 * nn)) by {
      DotSubLeft(I, X, N);
    }
    ReflectFactor(c, nn, size);
    Sub(I, X)
  }

  /** (N * 2 * c * size).N == size * (c * (2 * N.N)). */
  lemma ScaledNormalDot(N: Point3, c: real, size: real)
    ensures Dot(Scale(Scale(Scale(N, 2.0), c), size), N) == size * (c * (2.0 * Dot(N, N)))
  {
    var A := Scale(N, 2.0);
    var B := Scale(A, c);
    DotScaleLeft(N, 2.0, N);
    DotScaleLeft(A, c, N);
    assert Dot(B, N) == c * (2.0 * Dot(N, N));
    DotScaleLeft(B, size, N);
  }

  lemma ReflectFactor(c: real, nn: real, size: real)
    ensures c - size * (c * (2.0 * nn)) == c * (1.0 - 2.0 * size * nn)
  {
  }

  /** The clamp of the dot product refract takes the cosine from. */
  function Clamp(x: real): (c: real)
    ensures -1.0 <= c <= 1.0
    ensures -1.0 <= x <= 1.0 ==> c == x
    ensures x <= 0.0 ==> c <= 0.0
  {
    Max(-1.0, Min(1.0, x))
  }

  /** Snell's law for an incident cosine cosi >= 0 and index ratio eta:
      the TIR sentinel when k < 0, otherwise I * eta + N * (eta * cosi - sqrt k). */
  function Bend(m: Math, I: Point3, N: Point3, eta: real, cosi: real): Point3 {
    var k := SnellK(eta, cosi);
    if k < 0.0 then TIR else Add(Scale(I, eta), Scale(N, eta * cosi - m.sqrt(k)))
  }

  /** refract(I, N, etaT, etaI): a ray entering the object (I.N <= 0) bends
      by Snell's law with ratio etaI/etaT against N; a ray leaving it
      (I.N > 0) is refracted once more against -N with the indices swapped. */
  function Refract(m: Math, I: Point3, N: Point3, etaT: real, etaI: real): (r: Point3)
    requires etaT != 0.0 && etaI != 0.0
    ensures Dot(I, N) <= 0.0 ==> r == Bend(m, I, N, etaI / etaT, -Clamp(Dot(I, N)))
    ensures Dot(I, N) > 0.0 ==> r == Bend(m, I, Neg(N), etaT / etaI, Clamp(Dot(I, N)))
    decreases if -Clamp(Dot(I, N)) < 0.0 then 1 else 0
  {
    var cosi := -Clamp(Dot(I, N));
    if cosi < 0.0 then
      RefractFlipsOnce(I, N);
      DotNegRight(I, N);
      Refract(m, I, Neg(N), etaI, etaT)
    else
      Bend(m, I, N, etaI / etaT, cosi)
  }

  /** After the flip the cosine is non-negative, so refract recurses at most once. */
  lemma RefractFlipsOnce(I: Point3, N: Point3)
    requires -Clamp(Dot(I, N)) < 0.0
    ensures -Clamp(Dot(I, Neg(N))) > 0.0
  {
    DotNegRight(I, N);
  }

  /** The discriminant of Snell's law. */
  function SnellK(eta: real, cosi: real): real {
    1.0 - eta * eta * (1.0 - cosi * cosi)
  }

  lemma SnellKNonNegative(eta: real, cosi: real)
    requires 0.0 <= eta <= 1.0 && 0.0 <= cosi <= 1.0
    ensures 0.0 <= SnellK(eta, cosi)
  {
    UnitProduct(eta, eta);
    UnitProduct(cosi, cosi);
    UnitProduct(eta * eta, 1.0 - cosi * cosi);
  }

  lemma BendUnfold(m: Math, I: Point3, N: Point3, eta: real, cosi: real)
    requires 0.0 <= SnellK(eta, cosi)
    ensures Bend(m, I, N, eta, cosi) == Add(Scale(I, eta), Scale(N, eta * cosi - m.sqrt(SnellK(eta, cosi))))
  {
  }

  /** Entering a medium at least as dense there is no total internal
      reflection: k >= 0 and the result is Snell's refracted direction. */
  lemma RefractEnteringDenserBends(m: Math, I: Point3, N: Point3, etaT: real, etaI: real)
    requires 0.0 < etaI <= etaT && Dot(I, N) <= 0.0
    ensures var eta := etaI / etaT;
            var cosi := -Clamp(Dot(I, N));
            0.0 <= SnellK(eta, cosi)
            && Refract(m, I, N, etaT, etaI) == Add(Scale(I, eta), Scale(N, eta * cosi - m.sqrt(SnellK(eta, cosi))))
  {
    var eta := etaI / etaT;
    var cosi := -Clamp(Dot(I, N));
    EnteringDenserNoTotalReflection(etaT, etaI, cosi);
    BendUnfold(m, I, N, eta, cosi);
  }

  /** Going into a denser medium (etaI <= etaT), Snell's discriminant is
      non-negative at every incidence. */
  lemma EnteringDenserNoTotalReflection(etaT: real, etaI: real, cosi: real)
    requires 0.0 < etaI <= etaT && 0.0 <= cosi <= 1.0
    ensures 0.0 <= SnellK(etaI / etaT, cosi)
  {
    RatioAtMostOne(etaI, etaT);
    SnellKNonNegative(etaI / etaT, cosi);
  }

  lemma SnellKStraight(c: real)
    ensures SnellK(1.0, c) == c * c
  {
  }

  /** With equal indices Snell's law leaves the direction unchanged. */
  lemma BendStraight(m: Math, I: Point3, M: Point3, c: real)
    requires Lawful(m) && 0.0 <= c
    ensures Bend(m, I, M, 1.0, c) == I
  {
    SnellKStraight(c);
    SquareNonNegative(c);
    SqrtOfSquare(m, c);
    BendUnfold(m, I, M, 1.0, c);
    var r := Add(Scale(I, 1.0), Scale(M, 1.0 * c - m.sqrt(SnellK(1.0, c))));
    assert forall i :: 0 <= i < 3 ==> r[i] == I[i];
  }

  /** Between two media of the same index a ray goes straight on. */
  lemma RefractSameMedium(m: Math, I: Point3, N: Point3, eta: real)
    requires Lawful(m) && eta != 0.0
    ensures Refract(m, I, N, eta, eta) == I
  {
    DivSelf(eta);
    if Dot(I, N) > 0.0 {
      BendStraight(m, I, Neg(N), Clamp(Dot(I, N)));
    } else {
      BendStraight(m, I, N, -Clamp(Dot(I, N)));
    }
  }

  /** Past the critical angle (Snell's discriminant negative for the ratio
      and cosine refract uses on that side of the surface) the result is
      the sentinel (1, 0, 0), for a ray leaving the object and for one
      entering it from the denser side alike. */
  lemma RefractTotalInternalReflection(m: Math, I: Point3, N: Point3, etaT: real, etaI: real)
    requires etaT != 0.0 && etaI != 0.0
    requires Dot(I, N) > 0.0 ==> SnellK(etaT / etaI, Clamp(Dot(I, N))) < 0.0
    requires Dot(I, N) <= 0.0 ==> SnellK(etaI / etaT, -Clamp(Dot(I, N))) < 0.0
    ensures Refract(m, I, N, etaT, etaI) == TIR
  {
  }

  /** Leaving glass (index 1.5) into air at cos 0.6 (53 degrees from the
      normal) is past the critical angle. */
  lemma GlassCriticalAngle(m: Math, I: Point3, N: Point3)
    requires Dot(I, N) == 0.6
    ensures Refract(m, I, N, 1.5, 1.0) == TIR
  {
    assert Clamp(0.6) == 0.6;
    assert SnellK(1.5 / 1.0, 0.6) < 0.0;
    RefractTotalInternalReflection(m, I, N, 1.5, 1.0);
  }

  /** A ray grazing the surface (I.N == 0) into a medium of index 0.5 from
      one of index 1 is also past the critical angle: the sentinel comes
      back for an entering ray too. */
  lemma GrazingIntoThinnerMedium(m: Math, I: Point3, N: Point3)
    requires Dot(I, N) == 0.0
    ensures Refract(m, I, N, 0.5, 1.0) == TIR
  {
    assert Clamp(0.0) == 0.0;
    assert SnellK(1.0 / 0.5, 0.0) < 0.0;
    RefractTotalInternalReflection(m, I, N, 0.5, 1.0);
  }

  /** For a unit normal, reflecting twice gives the ray back. */
  lemma ReflectTwice(I: Point3, N: Point3)
    requires Dot(N, N) == 1.0
    ensures Reflect(Reflect(I, N, 1.0), N, 1.0) == I
  {
    var c := Dot(I, N);
    var X := Scale(Scale(Scale(N, 2.0), c), 1.0);
    var R := Sub(I, X);
    assert R == Reflect(I, N, 1.0);
    var Y := Scale(Scale(Scale(N, 2.0), -c), 1.0);
    assert Reflect(R, N, 1.0) == Sub(R, Y);
    assert forall i :: 0 <= i < 3 ==> Y[i] == -X[i];
    assert forall i :: 0 <= i < 3 ==> Sub(R, Y)[i] == I[i];
  }

  // The nearest-hit scan of sceneIntersect

  /** The nearest hit so far: which figure, and at what distance. */
  datatype Hit = Hit(index: nat, dist: real)

  /** What each figure's rayIntersect reports for one ray, in scene order. */
  function Distances(m: Math, figures: seq<Figure>, orig: Point3, dir: Point3): (ds: seq<Option<real>>)
    ensures |ds| == |figures|
  {
    if |figures| == 0 then []
    else [RayIntersect(m, figures[0], orig, dir)] + Distances(m, figures[1..], orig, dir)
  }

  /** Entry k of the distances is what figure k reports. */
  lemma {:induction false} DistancesAt(m: Math, figures: seq<Figure>, orig: Point3, dir: Point3, k: nat)
    requires k < |figures|
    ensures Distances(m, figures, orig, dir)[k] == RayIntersect(m, figures[k], orig, dir)
  {
    if k > 0 {
      DistancesAt(m, figures[1..], orig, dir, k - 1);
    }
  }

  /** The scan over the first n reported distances: a figure replaces the
      best hit so far only when strictly nearer, so ties keep the earliest. */
  function Scan(ds: seq<Option<real>>, n: nat): (h: Option<Hit>)
    requires n <= |ds|
    ensures h.Some? ==> h.value.index < n && ds[h.value.index] == Some(h.value.dist)
  {
    if n == 0 then None
    else
      var best := Scan(ds, n - 1);
      var r := ds[n - 1];
      if r.Some? && (best.None? || r.value < best.value.dist) then Some(Hit(n - 1, r.value))
      else best
  }

  /** The scan finds nothing exactly when no figure is hit. */
  lemma {:induction false} ScanMissesOnlyWhenNothingIsHit(ds: seq<Option<real>>, n: nat)
    requires n <= |ds|
    ensures Scan(ds, n).None? <==> forall k :: 0 <= k < n ==> ds[k].None?
  {
    if n > 0 {
      ScanMissesOnlyWhenNothingIsHit(ds, n - 1);
    }
  }

  /** A hit of the scan is at least as near as every figure hit. */
  lemma {:induction false} ScanIsNearest(ds: seq<Option<real>>, n: nat, k: nat)
    requires k < n <= |ds| && ds[k].Some?
    ensures Scan(ds, n).Some? && Scan(ds, n).value.dist <= ds[k].value
  {
    if k < n - 1 {
      ScanIsNearest(ds, n - 1, k);
    }
  }

  /** Every figure before the one the scan settles on is strictly farther or missed. */
  lemma {:induction false} ScanIsFirst(ds: seq<Option<real>>, n: nat, k: nat)
    requires n <= |ds| && Scan(ds, n).Some? && k < Scan(ds, n).value.index && ds[k].Some?
    ensures Scan(ds, n).value.dist < ds[k].value
  {
    var best := Scan(ds, n - 1);
    if ds[n - 1].Some? && (best.None? || ds[n - 1].value < best.value.dist) {
      ScanIsNearest(ds, n - 1, k);
    } else {
      ScanIsFirst(ds, n - 1, k);
    }
  }

  /** What sceneIntersect leaves in its out-parameters. */
  datatype Query = Query(found: bool, hit: Point3, normal: Point3, material: Material)

  /** How closely a reflected, refracted or shadow ray starts off the surface. */
  function Bias(point: Point3, N: Point3, dir: Point3): Point3 {
    if Dot(dir, N) < 0.0 then Sub(point, Scale(N, OFFSET)) else Add(point, Scale(N, OFFSET))
  }

  /** The light reaching a point: the diffuse and specular sums of castRay. */
  datatype Intensity = Intensity(diffuse: real, specular: real)

  /** The diffuse term: the material colour scaled by the diffuse sum and
      the first albedo weight. */
  function Diffuse(material: Material, light: Intensity): Point3 {
    Scale(Scale(material.diffuseColor, light.diffuse), material.albedo[0])
  }

  /** diffuse + white * specular + reflected + refracted, weighted by the
      four albedo components. */
  function Mix(material: Material, light: Intensity, reflectColor: Point3, refractColor: Point3): Point3 {
    Add(Add(Add(Diffuse(material, light),
                Scale(Scale(WHITE, light.specular), material.albedo[1])),
            Scale(reflectColor, material.albedo[2])),
        Scale(refractColor, material.albedo[3]))
  }

  /** The direction from a point towards a light, normalised. */
  function LightDirection(m: Math, light: Light, point: Point3): Point3 {
    Normalized(m, Sub(light.position, point), 1.0)
  }

  /** Lambert's diffuse term of one light: its intensity times the clamped
      cosine between the light direction and the normal. */
  function Lambert(lightDir: Point3, N: Point3, intensity: real): real {
    intensity * Max(0.0, Dot(lightDir, N))
  }

  /** Phong's specular term of one light: the clamped cosine between the
      mirrored light direction and the ray, raised to the specular exponent. */
  function Phong(m: Math, lightDir: Point3, N: Point3, dir: Point3, exponent: real, intensity: real): real {
    m.pow(Max(0.0, Dot(Neg(Reflect(Neg(lightDir), N, 1.0)), dir)), exponent) * intensity
  }

  /** Colour channels, each an integer. */
  datatype Rgb = Rgb(r: int, g: int, b: int)

  /** static_cast<int>(255 * max(0, min(1, x))): the clamped channel scaled
      to 0..255 and truncated (the value is non-negative, so truncation is
      the floor). */
  function Quantise(x: real): int {
    (255.0 * Max(0.0, Min(1.0, x))).Floor
  }

  /** A quantised channel is a byte: 0 at or below 0, 255 at or above 1, and
      in between the largest integer not above 255 x. */
  lemma QuantiseRange(x: real)
    ensures 0 <= Quantise(x) <= 255
    ensures x <= 0.0 ==> Quantise(x) == 0
    ensures 1.0 <= x ==> Quantise(x) == 255
    ensures 0.0 <= x <= 1.0 ==> Quantise(x) as real <= 255.0 * x < Quantise(x) as real + 1.0
  {
  }

  /** The QColor createImage stores for a colour: each channel quantised. */
  function Colour(c: Point3): Rgb {
    Rgb(Quantise(c[0]), Quantise(c[1]), Quantise(c[2]))
  }

  /** Every channel of a stored colour is a byte. */
  lemma ColourIsBytes(c: Point3)
    ensures 0 <= Colour(c).r <= 255 && 0 <= Colour(c).g <= 255 && 0 <= Colour(c).b <= 255
  {
    QuantiseRange(c[0]);
    QuantiseRange(c[1]);
    QuantiseRange(c[2]);
  }

  /** createImage's loop over the three channels of a colour. */
  method ToRgb(c: Point3) returns (p: Rgb)
    ensures p == Colour(c)
  {
    var colorData := new int[3];
    for k := 0 to 3
      invariant forall k' :: 0 <= k' < k ==> colorData[k'] == Quantise(c[k'])
    {
      colorData[k] := Quantise(c[k]);
    }
    p := Rgb(colorData[0], colorData[1], colorData[2]);
  }

  /** The Scene widget, less its Qt plumbing: the figures and lights it
      draws, the field of view, the image and the preview/render flag. The
      pure functions that specify the shader take the flag as a parameter
      `render`; the methods pass the current value of the field. */
  class Scene {
    const figures: seq<Figure>
    const lights: seq<Light>
    /** The <cmath> functions the shader calls. */
    const num: Math
    const fov: real
    const width: nat
    const height: nat
    const image: array2<Rgb>
    var rendering: bool

    /** The image covers the widget, and every refractive index is non-zero
        (refract divides by it). */
    ghost predicate Valid() {
      image.Length0 == width && image.Length1 == height
      && forall k :: 0 <= k < |figures| ==> figures[k].material.refractiveIndex != 0.0
    }

    /** Scene(figures, lights): a WIDTH x HEIGHT image, field of view FOV, in preview mode. */
    constructor (figures: seq<Figure>, lights: seq<Light>, num: Math)
      requires forall k :: 0 <= k < |figures| ==> figures[k].material.refractiveIndex != 0.0
      ensures Valid()
      ensures this.figures == figures && this.lights == lights && this.num == num
      ensures fov == FOV && width == WIDTH && height == HEIGHT && !rendering
      ensures fresh(image)
    {
      this.figures := figures;
      this.lights := lights;
      this.num := num;
      fov := FOV;
      width := WIDTH;
      height := HEIGHT;
      image := new Rgb[WIDTH, HEIGHT];
      rendering := false;
    }

    /** renderMode(): switch on shadows, reflection and refraction. */
    method RenderMode()
      modifies this
      ensures rendering
    {
      rendering := true;
    }

    /** viewMode(): back to the flat preview. */
    method ViewMode()
      modifies this
      ensures !rendering
    {
      rendering := false;
    }

    /** sceneIntersect: the out-parameters keep their incoming values (hit0,
        n0, mat0) unless a figure is hit; in preview the material is always
        Wire; a hit counts only nearer than FAR. */
    function QueryScene(render: bool, orig: Point3, dir: Point3, hit0: Point3, n0: Point3, mat0: Material): (q: Query)
      ensures !render ==> q.material == Wire
      ensures q.found <==> Scan(Distances(num, figures, orig, dir), |figures|).Some?
                           && Scan(Distances(num, figures, orig, dir), |figures|).value.dist < FAR
    {
      var s := Scan(Distances(num, figures, orig, dir), |figures|);
      var hit := if s.Some? then At(orig, dir, s.value.dist) else hit0;
      var N := if s.Some? then FigureNormal(num, figures[s.value.index], hit) else n0;
      var material := if s.Some? then figures[s.value.index].material else mat0;
      Query(s.Some? && s.value.dist < FAR, hit, N, if render then material else Wire)
    }

    /** Scene::sceneIntersect, the loop over the figures. */
    method SceneIntersect(orig: Point3, dir: Point3, hit0: Point3, n0: Point3, mat0: Material)
      returns (ok: bool, hit: Point3, N: Point3, material: Material)
      ensures Query(ok, hit, N, material) == QueryScene(rendering, orig, dir, hit0, n0, mat0)
    {
      hit, N, material := hit0, n0, mat0;
      var dist: Option<real> := None;
      ghost var ds := Distances(num, figures, orig, dir);
      var i := 0;
      while i < |figures|
        invariant 0 <= i <= |figures|
        invariant Scan(ds, i).None? ==>
                    dist == None && hit == hit0 && N == n0 && material == mat0
        invariant Scan(ds, i).Some? ==>
                    var h := Scan(ds, i).value;
                    dist == Some(h.dist) && hit == At(orig, dir, h.dist)
                    && N == FigureNormal(num, figures[h.index], hit)
                    && material == figures[h.index].material
      {
        var hitI, distI := Intersect(num, figures[i], orig, dir, 0.0);
        DistancesAt(num, figures, orig, dir, i);
        assert hitI == ds[i].Some? && (hitI ==> distI == ds[i].value);
        assert Scan(ds, i + 1) == if hitI && (dist.None? || distI < dist.value)
                                  then Some(Hit(i, distI)) else Scan(ds, i);
        if hitI && (dist.None? || distI < dist.value) {
          dist := Some(distI);
          var step := Times(dir, distI);
          hit := Plus(orig, step);
          N := FigureNormal(num, figures[i], hit);
          material := figures[i].material;
        }
        i := i + 1;
      }
      if !rendering {
        material := Wire;
      }
      ok := dist.Some? && dist.value < FAR;
    }

    /** The light is hidden: in render mode only, the shadow ray from the
        biased point towards the light hits something nearer than the light. */
    predicate Shadowed(render: bool, light: Light, point: Point3, N: Point3) {
      var toLight := Sub(light.position, point);
      var lightDir := LightDirection(num, light, point);
      var shadowOrig := Bias(point, N, lightDir);
      var q := QueryScene(render, shadowOrig, lightDir, Zero(3), Zero(3), DefaultMaterial);
      render && q.found && Norm(num, Sub(q.hit, shadowOrig)) < Norm(num, toLight)
    }

    /** The diffuse and specular sums over the first k lights; a shadowed
        light adds nothing. */
    function LightSums(render: bool, k: nat, point: Point3, N: Point3, material: Material, dir: Point3): Intensity
      requires k <= |lights|
    {
      if k == 0 then Intensity(0.0, 0.0)
      else
        var acc := LightSums(render, k - 1, point, N, material, dir);
        if Shadowed(render, lights[k - 1], point, N) then acc
        else
          var light := lights[k - 1];
          var lightDir := LightDirection(num, light, point);
          Intensity(acc.diffuse + Lambert(lightDir, N, light.intensity),
                    acc.specular + Phong(num, lightDir, N, dir, material.specularExponent, light.intensity))
    }

    /** One more light: a shadowed one adds nothing, any other adds its
        Lambert and Phong terms. */
    lemma LightSumsStep(render: bool, k: nat, point: Point3, N: Point3, material: Material, dir: Point3)
      requires k < |lights|
      ensures var acc := LightSums(render, k, point, N, material, dir);
              var lightDir := LightDirection(num, lights[k], point);
              LightSums(render, k + 1, point, N, material, dir)
              == if Shadowed(render, lights[k], point, N) then acc
                 else Intensity(acc.diffuse + Lambert(lightDir, N, lights[k].intensity),
                                acc.specular + Phong(num, lightDir, N, dir, material.specularExponent, lights[k].intensity))
    {
    }

    /** With lights of non-negative intensity both sums are non-negative:
        Lambert's term clamps the cosine at 0 and pow of a non-negative base
        is non-negative. */
    lemma {:induction false} LightSumsNonNegative(render: bool, k: nat, point: Point3, N: Point3, material: Material, dir: Point3)
      requires Lawful(num) && k <= |lights|
      requires forall n :: 0 <= n < |lights| ==> 0.0 <= lights[n].intensity
      ensures 0.0 <= LightSums(render, k, point, N, material, dir).diffuse
      ensures 0.0 <= LightSums(render, k, point, N, material, dir).specular
    {
      if k > 0 {
        LightSumsNonNegative(render, k - 1, point, N, material, dir);
        LightSumsStep(render, k - 1, point, N, material, dir);
        var light := lights[k - 1];
        var lightDir := LightDirection(num, light, point);
        TermsNonNegative(lightDir, N, dir, material.specularExponent, light.intensity);
      }
    }

    /** One light's two terms are non-negative when its intensity is. */
    lemma TermsNonNegative(lightDir: Point3, N: Point3, dir: Point3, exponent: real, intensity: real)
      requires Lawful(num) && 0.0 <= intensity
      ensures 0.0 <= Lambert(lightDir, N, intensity)
      ensures 0.0 <= Phong(num, lightDir, N, dir, exponent, intensity)
    {
      var base := Max(0.0, Dot(Neg(Reflect(Neg(lightDir), N, 1.0)), dir));
      assert 0.0 <= num.pow(base, exponent);
    }

    /** The direction of the reflected ray castRay follows. */
    function ReflectDirection(dir: Point3, N: Point3): Point3 {
      Normalized(num, Reflect(dir, N, 1.0), 1.0)
    }

    /** The direction of the refracted ray castRay follows, out of air (index 1). */
    function RefractDirection(dir: Point3, N: Point3, material: Material): Point3
      requires material.refractiveIndex != 0.0
    {
      Normalized(num, Refract(num, dir, N, material.refractiveIndex, 1.0), 1.0)
    }

    // castRay is specified in three layers, one per test of its guard: the
    // depth bound (Trace), the preview depth bound (Shading), and the scene
    // query (Surface). The guard's tests have no side effects that matter,
    // so their order does not change the result.

    /** castRay: the colour seen along a ray; past DEPTH it is the background. */
    function Trace(render: bool, orig: Point3, dir: Point3, depth: nat): (c: Point3)
      requires Valid()
      decreases if depth <= DEPTH then DEPTH + 1 - depth else 0, 2
    {
      if depth > DEPTH then BACKGROUND else Shading(render, orig, dir, depth)
    }

    /** In preview, past WF_MODE_DEPTH, the background. */
    function Shading(render: bool, orig: Point3, dir: Point3, depth: nat): (c: Point3)
      requires Valid() && depth <= DEPTH
      decreases DEPTH + 1 - depth, 1
    {
      if !render && depth > WF_MODE_DEPTH then BACKGROUND else Surface(render, orig, dir, depth)
    }

    /** The colour from the scene query: on a miss the background; in preview
        the flat diffuse term; in render mode the four-term Whitted sum. */
    function Surface(render: bool, orig: Point3, dir: Point3, depth: nat): (c: Point3)
      requires Valid() && depth <= DEPTH
      decreases DEPTH + 1 - depth, 0
    {
      var q := QueryScene(render, orig, dir, Zero(3), Zero(3), DefaultMaterial);
      if !q.found then BACKGROUND
      else
        var light := LightSums(render, |lights|, q.hit, q.normal, q.material, dir);
        if !render then Diffuse(q.material, light)
        else
          QueryMaterialIndex(orig, dir);
          var reflectDir := ReflectDirection(dir, q.normal);
          var refractDir := RefractDirection(dir, q.normal, q.material);
          Mix(q.material, light,
              Trace(render, Bias(q.hit, q.normal, reflectDir), reflectDir, depth + 1),
              Trace(render, Bias(q.hit, q.normal, refractDir), refractDir, depth + 1))
    }

    /** Trace where the scene query q misses, or where preview mode stops early. */
    lemma TraceBackground(render: bool, orig: Point3, dir: Point3, depth: nat, q: Query)
      requires Valid() && depth <= DEPTH && q == QueryScene(render, orig, dir, Zero(3), Zero(3), DefaultMaterial)
      requires !q.found || (!render && depth > WF_MODE_DEPTH)
      ensures Trace(render, orig, dir, depth) == BACKGROUND
    {
      assert Trace(render, orig, dir, depth) == Shading(render, orig, dir, depth);
      if render || depth <= WF_MODE_DEPTH {
        assert Shading(render, orig, dir, depth) == Surface(render, orig, dir, depth);
      }
    }

    /** Trace in preview mode where the scene query q hits. */
    lemma TracePreview(orig: Point3, dir: Point3, depth: nat, q: Query)
      requires Valid() && depth <= WF_MODE_DEPTH && q == QueryScene(false, orig, dir, Zero(3), Zero(3), DefaultMaterial)
      requires q.found
      ensures Trace(false, orig, dir, depth) == Diffuse(q.material, LightSums(false, |lights|, q.hit, q.normal, q.material, dir))
    {
      assert Trace(false, orig, dir, depth) == Shading(false, orig, dir, depth);
      assert Shading(false, orig, dir, depth) == Surface(false, orig, dir, depth);
    }

    /** Trace in render mode where the scene query q hits: the material is a
        figure's, and the colour mixes the two secondary rays. */
    lemma TraceRender(orig: Point3, dir: Point3, depth: nat, q: Query)
      requires Valid() && depth <= DEPTH && q == QueryScene(true, orig, dir, Zero(3), Zero(3), DefaultMaterial)
      requires q.found
      ensures q.material.refractiveIndex != 0.0
      ensures Trace(true, orig, dir, depth)
              == Mix(q.material, LightSums(true, |lights|, q.hit, q.normal, q.material, dir),
                     Trace(true, Bias(q.hit, q.normal, ReflectDirection(dir, q.normal)), ReflectDirection(dir, q.normal), depth + 1),
                     Trace(true, Bias(q.hit, q.normal, RefractDirection(dir, q.normal, q.material)),
                           RefractDirection(dir, q.normal, q.material), depth + 1))
    {
      QueryMaterialIndex(orig, dir);
      assert Trace(true, orig, dir, depth) == Shading(true, orig, dir, depth);
      assert Shading(true, orig, dir, depth) == Surface(true, orig, dir, depth);
    }

    /** In render mode the material of a hit is a figure's, or the default
        one on a miss, so its refractive index is non-zero. */
    lemma QueryMaterialIndex(orig: Point3, dir: Point3)
      requires Valid()
      ensures QueryScene(true, orig, dir, Zero(3), Zero(3), DefaultMaterial).material.refractiveIndex != 0.0
    {
    }

    /** The shadow test of castRay's light loop. */
    method ShadowTest(light: Light, point: Point3, N: Point3) returns (blocked: bool)
      ensures blocked == Shadowed(rendering, light, point, N)
    {
      blocked := false;
      if rendering {
        var toLight := Minus(light.position, point);
        var lightDir := Normalize(num, toLight, 1.0);
        var lightDistance := ComputeNorm(num, toLight);
        var shadowOrig := Bias(point, N, lightDir);
        var zero := Origin(3);
        var sOk, shadowPt, shadowN, tmpMaterial := SceneIntersect(shadowOrig, lightDir, zero, zero, DefaultMaterial);
        if sOk {
          var gap := Minus(shadowPt, shadowOrig);
          var gapLength := ComputeNorm(num, gap);
          blocked := gapLength < lightDistance;
        }
      }
    }

    /** The diffuse increment of castRay's light loop. */
    method LambertTerm(lightDir: Point3, N: Point3, intensity: real) returns (d: real)
      ensures d == Lambert(lightDir, N, intensity)
    {
      var ln := DotProduct(lightDir, N);
      d := intensity * Max(0.0, ln);
    }

    /** The specular increment of castRay's light loop. */
    method PhongTerm(lightDir: Point3, N: Point3, dir: Point3, exponent: real, intensity: real) returns (sp: real)
      ensures sp == Phong(num, lightDir, N, dir, exponent, intensity)
    {
      var back := Negate(lightDir);
      var mirrored := Negate(Reflect(back, N, 1.0));
      var md := DotProduct(mirrored, dir);
      sp := num.pow(Max(0.0, md), exponent) * intensity;
    }

    /** One pass of castRay's light loop: light k adds its diffuse and
        specular increments to the sums so far, unless it is hidden. */
    method AddLight(k: nat, acc: Intensity, point: Point3, N: Point3, material: Material, dir: Point3)
      returns (next: Intensity)
      requires k < |lights| && acc == LightSums(rendering, k, point, N, material, dir)
      ensures next == LightSums(rendering, k + 1, point, N, material, dir)
    {
      LightSumsStep(rendering, k, point, N, material, dir);
      var light := lights[k];
      var blocked := ShadowTest(light, point, N);
      next := acc;
      if !blocked {
        var toLight := Minus(light.position, point);
        var lightDir := Normalize(num, toLight, 1.0);
        var d := LambertTerm(lightDir, N, light.intensity);
        var sp := PhongTerm(lightDir, N, dir, material.specularExponent, light.intensity);
        next := Intensity(acc.diffuse + d, acc.specular + sp);
      }
    }

    /** castRay's loop over the lights: the diffuse and specular sums. */
    method Illuminate(point: Point3, N: Point3, material: Material, dir: Point3) returns (light: Intensity)
      ensures light == LightSums(rendering, |lights|, point, N, material, dir)
    {
      var diffuseLight := 0.0;
      var specularLight := 0.0;
      var k := 0;
      while k < |lights|
        invariant 0 <= k <= |lights|
        invariant Intensity(diffuseLight, specularLight) == LightSums(rendering, k, point, N, material, dir)
      {
        var next := AddLight(k, Intensity(diffuseLight, specularLight), point, N, material, dir);
        diffuseLight, specularLight := next.diffuse, next.specular;
        k := k + 1;
      }
      light := Intensity(diffuseLight, specularLight);
    }

    /** The weighted sum castRay returns in render mode. */
    method Blend(material: Material, light: Intensity, reflectColor: Point3, refractColor: Point3)
      returns (c: Point3)
      ensures c == Mix(material, light, reflectColor, refractColor)
    {
      var diffuse := Times(material.diffuseColor, light.diffuse);
      diffuse := Times(diffuse, material.albedo[0]);
      var specular := Times(WHITE, light.specular);
      specular := Times(specular, material.albedo[1]);
      var reflected := Times(reflectColor, material.albedo[2]);
      var refracted := Times(refractColor, material.albedo[3]);
      c := Plus(diffuse, specular);
      c := Plus(c, reflected);
      c := Plus(c, refracted);
    }

    /** The first bounce of castRay: the reflected ray, started off the surface. */
    method ReflectRay(point: Point3, N: Point3, dir: Point3) returns (rdir: Point3, rorig: Point3)
      ensures rdir == ReflectDirection(dir, N) && rorig == Bias(point, N, rdir)
    {
      rdir := Normalize(num, Reflect(dir, N, 1.0), 1.0);
      rorig := Bias(point, N, rdir);
    }

    /** The second bounce of castRay: the refracted ray, started off the surface. */
    method RefractRay(point: Point3, N: Point3, dir: Point3, material: Material) returns (rdir: Point3, rorig: Point3)
      requires material.refractiveIndex != 0.0
      ensures rdir == RefractDirection(dir, N, material) && rorig == Bias(point, N, rdir)
    {
      rdir := Normalize(num, Refract(num, dir, N, material.refractiveIndex, 1.0), 1.0);
      rorig := Bias(point, N, rdir);
    }

    /** The colour castRay returns in preview mode. */
    method DiffuseTerm(material: Material, light: Intensity) returns (c: Point3)
      ensures c == Diffuse(material, light)
    {
      c := Times(material.diffuseColor, light.diffuse);
      c := Times(c, material.albedo[0]);
    }

    /** Scene::castRay. */
    method CastRay(orig: Point3, dir: Point3, depth: nat) returns (c: Point3)
      requires Valid()
      ensures c == Trace(rendering, orig, dir, depth)
      decreases if depth <= DEPTH then DEPTH + 1 - depth else 0, 2
    {
      if depth > DEPTH {
        return BACKGROUND;
      }
      var zero := Origin(3);
      var ok, point, N, material := SceneIntersect(orig, dir, zero, zero, DefaultMaterial);
      if !ok || (!rendering && depth > WF_MODE_DEPTH) {
        TraceBackground(rendering, orig, dir, depth, Query(ok, point, N, material));
        return BACKGROUND;
      }
      var light := Illuminate(point, N, material, dir);
      if !rendering {
        TracePreview(orig, dir, depth, Query(ok, point, N, material));
        c := DiffuseTerm(material, light);
        return;
      }
      TraceRender(orig, dir, depth, Query(ok, point, N, material));
      c := Shade(point, N, material, light, dir, depth);
    }

    /** The render-mode tail of castRay: the reflected and the refracted
        ray are traced one level deeper and mixed with the local light. */
    method Shade(point: Point3, N: Point3, material: Material, light: Intensity, dir: Point3, depth: nat)
      returns (c: Point3)
      requires Valid() && depth <= DEPTH && material.refractiveIndex != 0.0
      ensures c == Mix(material, light,
                       Trace(rendering, Bias(point, N, ReflectDirection(dir, N)), ReflectDirection(dir, N), depth + 1),
                       Trace(rendering, Bias(point, N, RefractDirection(dir, N, material)),
                             RefractDirection(dir, N, material), depth + 1))
      decreases DEPTH + 1 - depth, 1
    {
      var reflectColor := TraceReflected(point, N, dir, depth);
      var refractColor := TraceRefracted(point, N, material, dir, depth);
      c := Blend(material, light, reflectColor, refractColor);
    }

    /** The colour castRay finds along the reflected ray. */
    method TraceReflected(point: Point3, N: Point3, dir: Point3, depth: nat) returns (c: Point3)
      requires Valid() && depth <= DEPTH
      ensures c == Trace(rendering, Bias(point, N, ReflectDirection(dir, N)), ReflectDirection(dir, N), depth + 1)
      decreases DEPTH + 1 - depth, 0
    {
      var reflectDir, reflectOrig := ReflectRay(point, N, dir);
      c := CastRay(reflectOrig, reflectDir, depth + 1);
    }

    /** The colour castRay finds along the refracted ray. */
    method TraceRefracted(point: Point3, N: Point3, material: Material, dir: Point3, depth: nat) returns (c: Point3)
      requires Valid() && depth <= DEPTH && material.refractiveIndex != 0.0
      ensures c == Trace(rendering, Bias(point, N, RefractDirection(dir, N, material)),
                         RefractDirection(dir, N, material), depth + 1)
      decreases DEPTH + 1 - depth, 0
    {
      var refractDir, refractOrig := RefractRay(point, N, dir, material);
      c := CastRay(refractOrig, refractDir, depth + 1);
    }

    /** The direction createImage casts through pixel (i, j). */
    function PixelDirection(i: int, j: int): Point3
      requires num.tan(fov / 2.0) != 0.0
    {
      var dirX := (i as real + 0.5) - width as real / 2.0;
      var dirY := -(j as real + 0.5) + height as real / 2.0;
      var dirZ := -(height as real) / (2.0 * num.tan(fov / 2.0));
      Normalized(num, [dirX, dirY, dirZ], 1.0)
    }

    /** Every primary ray has unit direction: dirZ is never zero, so the
        point normalised is never the origin. */
    lemma PixelDirectionUnit(i: int, j: int)
      requires Lawful(num) && num.tan(fov / 2.0) != 0.0 && height > 0
      ensures Dot(PixelDirection(i, j), PixelDirection(i, j)) == 1.0
    {
      var dirX := (i as real + 0.5) - width as real / 2.0;
      var dirY := -(j as real + 0.5) + height as real / 2.0;
      var dirZ := -(height as real) / (2.0 * num.tan(fov / 2.0));
      var p: Point3 := [dirX, dirY, dirZ];
      assert dirZ != 0.0;
      assert p[2] != Zero(3)[2];
      NormZeroIffOrigin(num, p);
      NormalizedUnit(num, p);
    }

    /** So the sphere facts for unit rays hold for the rays createImage
        casts: a sphere the primary ray through (i, j) hits is hit on its
        surface at the nearest non-negative distance, and a miss means the
        ray never touches it. */
    lemma PixelSphereHit(i: int, j: int, f: Figure)
      requires Lawful(num) && num.tan(fov / 2.0) != 0.0 && height > 0 && f.Sphere?
      ensures var dir := PixelDirection(i, j);
              var r := SphereIntersect(num, f, CAMERA, dir);
              (r.Some? ==> OnSphere(f, At(CAMERA, dir, r.value))
                           && forall s :: 0.0 <= s && OnSphere(f, At(CAMERA, dir, s)) ==> r.value <= s)
              && (r.None? ==> forall s :: 0.0 <= s ==> !OnSphere(f, At(CAMERA, dir, s)))
    {
      PixelDirectionUnit(i, j);
      SphereIntersectIsNearestRoot(num, f, CAMERA, PixelDirection(i, j));
    }

    /** The colour createImage stores at pixel (i, j). */
    function Pixel(render: bool, i: int, j: int): Rgb
      requires Valid() && num.tan(fov / 2.0) != 0.0
    {
      Colour(Trace(render, CAMERA, PixelDirection(i, j), 0))
    }

    /** Past DEPTH castRay returns the background without looking at the scene. */
    lemma TraceBeyondDepth(render: bool, orig: Point3, dir: Point3, depth: nat)
      requires Valid() && depth > DEPTH
      ensures Trace(render, orig, dir, depth) == BACKGROUND
    {
    }

    /** Each channel of every pixel is an integer in [0, 255]. */
    lemma PixelIsBytes(render: bool, i: int, j: int)
      requires Valid() && num.tan(fov / 2.0) != 0.0
      ensures 0 <= Pixel(render, i, j).r <= 255 && 0 <= Pixel(render, i, j).g <= 255
              && 0 <= Pixel(render, i, j).b <= 255
    {
      ColourIsBytes(Trace(render, CAMERA, PixelDirection(i, j), 0));
    }

    /** The primary ray createImage casts through pixel (i, j). */
    method PrimaryRay(i: int, j: int) returns (dir: Point3)
      requires num.tan(fov / 2.0) != 0.0
      ensures dir == PixelDirection(i, j)
    {
      var dirX := (i as real + 0.5) - width as real / 2.0;
      var dirY := -(j as real + 0.5) + height as real / 2.0;
      var dirZ := -(height as real) / (2.0 * num.tan(fov / 2.0));
      var p := FromList([dirX, dirY, dirZ]);
      dir := Normalize(num, p, 1.0);
    }

    /** One pixel of createImage: the colour of the primary ray through (i, j). */
    method ComputePixel(i: int, j: int) returns (p: Rgb)
      requires Valid() && num.tan(fov / 2.0) != 0.0
      ensures p == Pixel(rendering, i, j)
    {
      var dir := PrimaryRay(i, j);
      var c := CastRay(CAMERA, dir, 0);
      p := ToRgb(c);
    }

    /** One row of createImage: every pixel (i, j) of row j gets its colour;
        the other rows keep theirs. */
    method FillRow(j: nat)
      requires Valid() && num.tan(fov / 2.0) != 0.0 && j < height
      modifies image
      ensures forall i :: 0 <= i < width ==> image[i, j] == Pixel(rendering, i, j)
      ensures forall i', j' :: 0 <= i' < width && 0 <= j' < height && j' != j ==> image[i', j'] == old(image[i', j'])
    {
      var i := 0;
      while i < width
        invariant 0 <= i <= width
        invariant forall i' :: 0 <= i' < i ==> image[i', j] == Pixel(rendering, i', j)
        invariant forall i', j' :: 0 <= i' < width && 0 <= j' < height && j' != j ==> image[i', j'] == old(image[i', j'])
      {
        SetPixel(i, j);
        i := i + 1;
      }
    }

    /** image->setPixel(i, j, ...) with the colour computed for (i, j);
        every other pixel keeps its colour. */
    method SetPixel(i: nat, j: nat)
      requires Valid() && num.tan(fov / 2.0) != 0.0 && i < width && j < height
      modifies image
      ensures image[i, j] == Pixel(rendering, i, j)
      ensures forall i', j' :: 0 <= i' < width && 0 <= j' < height && (i' != i || j' != j) ==> image[i', j'] == old(image[i', j'])
    {
      var p := ComputePixel(i, j);
      image[i, j] := p;
    }

    /** Scene::createImage: row by row, every pixel gets the quantised colour
        of the primary ray through it. */
    method CreateImage()
      requires Valid() && num.tan(fov / 2.0) != 0.0
      modifies image
      ensures forall i, j :: 0 <= i < width && 0 <= j < height ==> image[i, j] == Pixel(rendering, i, j)
    {
      var j := 0;
      while j < height
        invariant 0 <= j <= height
        invariant forall i', j' :: 0 <= i' < width && 0 <= j' < j ==> image[i', j'] == Pixel(rendering, i', j')
      {
        FillRow(j);
        j := j + 1;
      }
    }
  }
}
