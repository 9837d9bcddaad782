/**
 * The scene: an ordered list of spheres, a list of point lights and an
 * ambient coefficient; the nearest-hit search over the spheres and the
 * per-light shading loop with its shadow test and clamp.
 *
 * Geometry is exact real arithmetic. The parts of the original that need a
 * square root (ray-sphere intersection, vector length, normalisation) are
 * not computed here: they are supplied as the fields of a Numerics value.
 * The general lemmas hold whatever those fields return; the lemmas about
 * the unit test's configuration name the values of normalize they need.
 */
module Raytracing {
  import opened Wrappers

  // ---------------------------------------------------------------------
  // Values
  // ---------------------------------------------------------------------

  /** Position, direction or colour (red, green, blue in x, y, z). */
  datatype Vector3 = Vector3(x: real, y: real, z: real)

  const ZERO: Vector3 := Vector3(0.0, 0.0, 0.0)

  function Add(a: Vector3, b: Vector3): Vector3 {
    Vector3(a.x + b.x, a.y + b.y, a.z + b.z)
  }

  function Sub(a: Vector3, b: Vector3): Vector3 {
    Vector3(a.x - b.x, a.y - b.y, a.z - b.z)
  }

  function Scale(a: Vector3, k: real): Vector3 {
    Vector3(a.x * k, a.y * k, a.z * k)
  }

  function Dot(a: Vector3, b: Vector3): real {
    a.x * b.x + a.y * b.y + a.z * b.z
  }

  function Inverse(a: Vector3): Vector3 {
    Vector3(-a.x, -a.y, -a.z)
  }

  /** Reflects v at the plane with normal n. */
  function Reflect(v: Vector3, n: Vector3): Vector3 {
    Sub(v, Scale(Scale(n, Dot(v, n)), 2.0))
  }

  datatype Ray = Ray(origin: Vector3, direction: Vector3)

  datatype Sphere = Sphere(origin: Vector3, radius: real, color: Vector3)

  datatype Light = Light(intensity: real, origin: Vector3)

  /**
   * The floating-point geometry the scene relies on: Sphere::intersect (the
   * parameter of the nearest hit along the ray, if any), Vector3::len and
   * Vector3::normalize.
   */
  datatype Numerics = Numerics(
    intersect: (Sphere, Ray) -> Option<real>,
    length: Vector3 -> real,
    normalize: Vector3 -> Vector3)

  /** f64::MAX, the "no hit yet" sentinel of the nearest-hit search. */
  const F64_MAX: real := 179769313486231570814527423731704356798070567525844996598917476803157260780028538760589558632766878171540458953514382464234321326889464182768467546703537516986049910576551282076245490090389328944075868508455133942304583236903222948165808559332123348274797826204144723168738177180919299881250404026184124858368.0

  const LAMBERTIAN_COEFFICIENT: real := 1.7
  const SHININESS_FACTOR: nat := 25
  const CHANNEL_MAX: real := 255.0

  // ---------------------------------------------------------------------
  // Nearest hit
  // ---------------------------------------------------------------------

  /** The sphere hit (its index in the list) and the ray parameter of the hit. */
  datatype TraceResult = TraceResult(hit: Option<nat>, t: real)

  /** An intersection result that is a hit closer than bound. */
  predicate Below(res: Option<real>, bound: real) {
    res.Some? && res.value < bound
  }

  /** An intersection result that is a hit no farther than bound. */
  predicate AtMost(res: Option<real>, bound: real) {
    res.Some? && res.value <= bound
  }

  /**
   * The nearest-hit scan over spheres, in list order: starting from
   * (None, f64::MAX), a sphere replaces the current best only when its hit is
   * strictly closer.
   */
  function Nearest(spheres: seq<Sphere>, ray: Ray, intersect: (Sphere, Ray) -> Option<real>): TraceResult
  {
    if spheres == [] then TraceResult(None, F64_MAX)
    else
      var best := Nearest(spheres[..|spheres| - 1], ray, intersect);
      var res := intersect(spheres[|spheres| - 1], ray);
      if Below(res, best.t) then TraceResult(Some(|spheres| - 1), res.value) else best
  }

  /**
   * What the scan finds: nothing and f64::MAX when no sphere is hit closer than
   * f64::MAX; otherwise a sphere whose hit is at t, with no sphere hit closer
   * than t and no EARLIER sphere hit at t or closer (ties go to the first).
   */
  lemma {:induction false} NearestIsFirstMinimum(spheres: seq<Sphere>, ray: Ray, intersect: (Sphere, Ray) -> Option<real>)
    ensures var r := Nearest(spheres, ray, intersect);
      && (r.hit.None? ==>
            && r.t == F64_MAX
            && forall i :: 0 <= i < |spheres| ==> !Below(intersect(spheres[i], ray), F64_MAX))
      && (r.hit.Some? ==>
            && r.hit.value < |spheres|
            && intersect(spheres[r.hit.value], ray) == Some(r.t)
            && r.t < F64_MAX
            && (forall i :: 0 <= i < |spheres| ==> !Below(intersect(spheres[i], ray), r.t))
            && (forall i :: 0 <= i < r.hit.value ==> !AtMost(intersect(spheres[i], ray), r.t)))
  {
    if spheres != [] {
      var init := spheres[..|spheres| - 1];
      NearestIsFirstMinimum(init, ray, intersect);
      assert forall i :: 0 <= i < |init| ==> init[i] == spheres[i];
    }
  }

  /** The scan reports a sphere exactly when some sphere is hit closer than f64::MAX. */
  lemma NearestFindsHitIff(spheres: seq<Sphere>, ray: Ray, intersect: (Sphere, Ray) -> Option<real>)
    ensures Nearest(spheres, ray, intersect).hit.Some?
        <==> exists i :: 0 <= i < |spheres| && Below(intersect(spheres[i], ray), F64_MAX)
  {
    NearestIsFirstMinimum(spheres, ray, intersect);
    var r := Nearest(spheres, ray, intersect);
    if r.hit.Some? {
      assert Below(intersect(spheres[r.hit.value], ray), F64_MAX);
    }
  }

  /**
   * add_sphere and trace_scene together: appending spheres never moves the
   * nearest hit farther away; the earlier result survives unchanged when no
   * appended sphere is hit strictly closer than it; and a result that changes
   * reports one of the appended spheres.
   */
  lemma {:induction false} NearestAfterAddedSpheres(spheres: seq<Sphere>, more: seq<Sphere>, ray: Ray,
                                                    intersect: (Sphere, Ray) -> Option<real>)
    ensures Nearest(spheres + more, ray, intersect).t <= Nearest(spheres, ray, intersect).t
    ensures (forall i :: 0 <= i < |more| ==> !Below(intersect(more[i], ray), Nearest(spheres, ray, intersect).t))
            ==> Nearest(spheres + more, ray, intersect) == Nearest(spheres, ray, intersect)
    ensures Nearest(spheres + more, ray, intersect) != Nearest(spheres, ray, intersect)
            ==> Nearest(spheres + more, ray, intersect).hit.Some?
                && |spheres| <= Nearest(spheres + more, ray, intersect).hit.value < |spheres| + |more|
    decreases |more|
  {
    if more == [] {
      assert spheres + more == spheres;
    } else {
      var init := more[..|more| - 1];
      NearestAfterAddedSpheres(spheres, init, ray, intersect);
      assert (spheres + more)[..|spheres + more| - 1] == spheres + init;
      assert (spheres + more)[|spheres + more| - 1] == more[|more| - 1];
      if forall i :: 0 <= i < |more| ==> !Below(intersect(more[i], ray), Nearest(spheres, ray, intersect).t) {
        assert forall i :: 0 <= i < |init| ==> init[i] == more[i];
      }
    }
  }

  // ---------------------------------------------------------------------
  // Shading
  // ---------------------------------------------------------------------

  /** f64::max(v, 0.0) */
  function NonNegativePart(v: real): real {
    if v >= 0.0 then v else 0.0
  }

  /** f64::min(v, 255.0) */
  function ClampChannel(v: real): real {
    if v <= CHANNEL_MAX then v else CHANNEL_MAX
  }

  function Clamp(c: Vector3): Vector3 {
    Vector3(ClampChannel(c.x), ClampChannel(c.y), ClampChannel(c.z))
  }

  /** f64::powi */
  function Powi(v: real, n: nat): real {
    if n == 0 then 1.0 else v * Powi(v, n - 1)
  }

  predicate NonNegative(c: Vector3) {
    c.x >= 0.0 && c.y >= 0.0 && c.z >= 0.0
  }

  predicate AtMostChannelMax(c: Vector3) {
    c.x <= CHANNEL_MAX && c.y <= CHANNEL_MAX && c.z <= CHANNEL_MAX
  }

  /** Every channel of a at least the one of b. */
  predicate Dominates(a: Vector3, b: Vector3) {
    a.x >= b.x && a.y >= b.y && a.z >= b.z
  }

  /** color + color * k: the accumulation step of the shading loop. */
  function Boost(c: Vector3, k: real): (r: Vector3)
    ensures NonNegative(c) && k >= 0.0 ==> NonNegative(r) && Dominates(r, c)
  {
    Add(c, Scale(c, k))
  }

  /** The Lambert term: the cosine between normal and light, scaled, never negative. */
  function LambertShading(normal: Vector3, toLight: Vector3, coefficient: real, num: Numerics): (r: real)
    ensures r >= 0.0
    ensures Dot(normal, num.normalize(toLight)) * coefficient >= 0.0 ==> r == Dot(normal, num.normalize(toLight)) * coefficient
  {
    NonNegativePart(Dot(normal, num.normalize(toLight)) * coefficient)
  }

  /** The specular term: the cosine between view and reflected light to a power, never negative. */
  function SpecularShading(ray: Ray, normal: Vector3, toLight: Vector3, shininess: nat, num: Numerics): (r: real)
    ensures r >= 0.0
  {
    var inverseViewDirection := Inverse(ray.direction);
    var incomingLightDirection := Inverse(toLight);
    var reflectedLightRay := Reflect(incomingLightDirection, normal);
    var dotProd := Dot(num.normalize(inverseViewDirection), num.normalize(reflectedLightRay));
    NonNegativePart(Powi(dotProd, shininess))
  }

  /**
   * The shadow test as written: nothing was hit, or the distance to the light
   * is below the ray parameter of the hit. The shadow ray's direction is the
   * unnormalised vector to the light, so the light sits at parameter 1 and a
   * hit at parameter t lies at t times the light's distance.
   */
  predicate Visible(shadow: TraceResult, tLight: real) {
    shadow.hit.None? || tLight < shadow.t
  }

  /** Whether light reaches point, by a shadow ray through the scene's spheres. */
  predicate LightVisible(spheres: seq<Sphere>, point: Vector3, light: Light, num: Numerics) {
    var pointToLight := Sub(light.origin, point);
    Visible(Nearest(spheres, Ray(point, pointToLight), num.intersect), num.length(pointToLight))
  }

  /**
   * The light is visible exactly when no sphere is hit by the shadow ray at a
   * parameter below f64::MAX and no greater than tLight, the light's distance.
   */
  lemma VisibleIffUnoccluded(spheres: seq<Sphere>, shadowRay: Ray, intersect: (Sphere, Ray) -> Option<real>, tLight: real)
    ensures Visible(Nearest(spheres, shadowRay, intersect), tLight)
        <==> forall i :: 0 <= i < |spheres| ==>
               !(Below(intersect(spheres[i], shadowRay), F64_MAX) && AtMost(intersect(spheres[i], shadowRay), tLight))
  {
    NearestIsFirstMinimum(spheres, shadowRay, intersect);
    var r := Nearest(spheres, shadowRay, intersect);
    if r.hit.Some? && !Visible(r, tLight) {
      assert Below(intersect(spheres[r.hit.value], shadowRay), F64_MAX);
      assert AtMost(intersect(spheres[r.hit.value], shadowRay), tLight);
    }
  }

  /**
   * The test as written shadows a light by any sphere hit at a parameter up
   * to the light's distance tLight, including hits at parameters between 1
   * and tLight, which lie beyond the light.
   */
  lemma HitBeyondLightOccludes(spheres: seq<Sphere>, shadowRay: Ray, intersect: (Sphere, Ray) -> Option<real>,
                               tLight: real, i: nat)
    requires i < |spheres| && intersect(spheres[i], shadowRay).Some?
    requires 1.0 < intersect(spheres[i], shadowRay).value <= tLight && tLight < F64_MAX
    ensures !Visible(Nearest(spheres, shadowRay, intersect), tLight)
  {
    VisibleIffUnoccluded(spheres, shadowRay, intersect, tLight);
  }

  /**
   * A hit beyond the light still shadows it: on a shadow ray from the origin
   * to a light at (0, 2, 0), whose distance is 2, a sphere hit at parameter
   * 1.5 lies at (0, 3, 0), farther from the point than the light (its squared
   * distance is 9 against 4), yet the test as written reports the light
   * occluded, because 2 < 1.5 fails. The intended test lets it through.
   */
  lemma ShadowBeyondLightExample(sphere: Sphere, light: Light, num: Numerics)
    requires light.origin == Vector3(0.0, 2.0, 0.0)
    requires num.length(Vector3(0.0, 2.0, 0.0)) == 2.0
    requires num.intersect(sphere, Ray(ZERO, Vector3(0.0, 2.0, 0.0))) == Some(1.5)
    ensures Add(ZERO, Scale(Vector3(0.0, 2.0, 0.0), 1.5)) == Vector3(0.0, 3.0, 0.0)
    ensures Dot(Vector3(0.0, 3.0, 0.0), Vector3(0.0, 3.0, 0.0)) > Dot(Sub(light.origin, ZERO), Sub(light.origin, ZERO))
    ensures !LightVisible([sphere], ZERO, light, num)
    ensures VisibleAsIntended(Nearest([sphere], Ray(ZERO, Sub(light.origin, ZERO)), num.intersect))
  {
    SubComponents(light.origin, ZERO, 0.0, 2.0, 0.0);
    var shadowRay := Ray(ZERO, Sub(light.origin, ZERO));
    assert Nearest([sphere], shadowRay, num.intersect) == TraceResult(Some(0), 1.5) by {
      assert [sphere][..0] == [];
    }
  }

  /**
   * The shadow test as the comment at the test describes it: the light is
   * reached when nothing was hit, or when the light is closer than the hit.
   * The light sits at ray parameter 1, so that is a hit parameter above 1.
   */
  predicate VisibleAsIntended(shadow: TraceResult) {
    shadow.hit.None? || 1.0 < shadow.t
  }

  /**
   * With the intended test, the light is reached exactly when no sphere is
   * hit between the point and the light: at a parameter below f64::MAX and
   * no greater than 1, the light's own parameter.
   */
  lemma VisibleAsIntendedIffUnoccluded(spheres: seq<Sphere>, shadowRay: Ray, intersect: (Sphere, Ray) -> Option<real>)
    ensures VisibleAsIntended(Nearest(spheres, shadowRay, intersect))
        <==> forall i :: 0 <= i < |spheres| ==>
               !(Below(intersect(spheres[i], shadowRay), F64_MAX) && AtMost(intersect(spheres[i], shadowRay), 1.0))
  {
    VisibleIffUnoccluded(spheres, shadowRay, intersect, 1.0);
  }

  /** Sphere::get_normal: the normalised direction from the centre to p. */
  function GetNormal(sphere: Sphere, p: Vector3, num: Numerics): Vector3 {
    num.normalize(Sub(p, sphere.origin))
  }

  /** The Lambert step of the light loop: the colour boosted by the Lambert term times the intensity. */
  function LambertStep(point: Vector3, hitSphere: Sphere, num: Numerics, color: Vector3, light: Light): Vector3 {
    Boost(color, LambertShading(GetNormal(hitSphere, point, num), Sub(light.origin, point), LAMBERTIAN_COEFFICIENT, num) * light.intensity)
  }

  /** The specular step of the light loop: the colour boosted by the specular term. */
  function SpecularStep(ray: Ray, point: Vector3, hitSphere: Sphere, num: Numerics, color: Vector3, light: Light): Vector3 {
    Boost(color, SpecularShading(ray, GetNormal(hitSphere, point, num), Sub(light.origin, point), SHININESS_FACTOR, num))
  }

  /** The colour after shading by a light that reaches point: Lambert, then specular. */
  function Illuminated(ray: Ray, point: Vector3, hitSphere: Sphere, num: Numerics, color: Vector3, light: Light): (r: Vector3)
    ensures NonNegative(color) && light.intensity >= 0.0 ==> NonNegative(r) && Dominates(r, color)
  {
    SpecularStep(ray, point, hitSphere, num, LambertStep(point, hitSphere, num, color, light), light)
  }

  /**
   * One pass of the light loop: shade by light if it is visible from point,
   * then clamp every channel to at most 255. An occluded light leaves the
   * colour as it was apart from the clamp; a visible one never darkens a
   * non-negative colour.
   */
  function ApplyLight(spheres: seq<Sphere>, ray: Ray, point: Vector3, hitSphere: Sphere, num: Numerics,
                      color: Vector3, light: Light): (r: Vector3)
    ensures AtMostChannelMax(r)
    ensures !LightVisible(spheres, point, light, num) ==> r == Clamp(color)
    ensures NonNegative(color) && light.intensity >= 0.0 ==> NonNegative(r) && Dominates(r, Clamp(color))
  {
    Clamp(if LightVisible(spheres, point, light, num) then Illuminated(ray, point, hitSphere, num, color, light) else color)
  }

  predicate IntensitiesNonNegative(lights: seq<Light>) {
    forall i :: 0 <= i < |lights| ==> lights[i].intensity >= 0.0
  }

  /**
   * compute_color: the sphere's colour scaled by the ambient coefficient, then
   * every light in list order. With at least one light every channel is at
   * most 255; with non-negative colour, ambient and intensities every channel
   * is non-negative.
   */
  function Shade(spheres: seq<Sphere>, lights: seq<Light>, ambientLight: real,
                 ray: Ray, point: Vector3, hitSphere: Sphere, num: Numerics): (r: Vector3)
    ensures |lights| > 0 ==> AtMostChannelMax(r)
    ensures NonNegative(hitSphere.color) && ambientLight >= 0.0 && IntensitiesNonNegative(lights) ==> NonNegative(r)
    decreases |lights|
  {
    if lights == [] then Add(ZERO, Scale(hitSphere.color, ambientLight))
    else
      var before := Shade(spheres, lights[..|lights| - 1], ambientLight, ray, point, hitSphere, num);
      ApplyLight(spheres, ray, point, hitSphere, num, before, lights[|lights| - 1])
  }

  /** Shading by one more light of the list is one more pass of the loop. */
  lemma ShadeOneMoreLight(spheres: seq<Sphere>, lights: seq<Light>, k: nat, ambientLight: real,
                          ray: Ray, point: Vector3, hitSphere: Sphere, num: Numerics)
    requires k < |lights|
    ensures Shade(spheres, lights[..k + 1], ambientLight, ray, point, hitSphere, num)
         == ApplyLight(spheres, ray, point, hitSphere, num,
                       Shade(spheres, lights[..k], ambientLight, ray, point, hitSphere, num), lights[k])
  {
    assert lights[..k + 1][..k] == lights[..k];
  }

  lemma {:induction false} PowiZero(n: nat)
    requires n > 0
    ensures Powi(0.0, n) == 0.0
  {
    if n > 1 {
      PowiZero(n - 1);
    }
  }

  /**
   * The specular term vanishes when the view direction is the zero vector and
   * normalising it gives the zero vector (it gives NaN in floating point,
   * which f64::max turns into 0 as well).
   */
  lemma ZeroViewNoSpecular(ray: Ray, normal: Vector3, toLight: Vector3, num: Numerics)
    requires ray.direction == ZERO && num.normalize(ZERO) == ZERO
    ensures SpecularShading(ray, normal, toLight, SHININESS_FACTOR, num) == 0.0
  {
    assert Inverse(ray.direction) == ZERO;
    var reflected := num.normalize(Reflect(Inverse(toLight), normal));
    assert Dot(ZERO, reflected) == 0.0;
    PowiZero(SHININESS_FACTOR);
  }

  /**
   * The configuration of compute_color's unit test: a red sphere at (0, 0, 3)
   * hit at its top (0, 1, 3), one light of intensity 1.2 at (0, 7, 3), and a
   * zero view direction; ambient 0.1 makes the colour before the light
   * (25.5, 0, 0). The requires on num give the values the floating-point
   * geometry takes there: the normal and the direction to the light are both
   * (0, 1, 0), and normalising the zero view direction gives the zero vector
   * (NaN in floating point, whose specular term f64::max also turns into 0).
   * The light then brightens red to 25.5 * (1 + 1.7 * 1.2) = 77.52, not to the
   * 25.5 * (1 + 2.8) = 96.9 that the test expects.
   */
  lemma OverheadLightExample(sphere: Sphere, light: Light, ray: Ray, point: Vector3, num: Numerics, base: Vector3)
    requires sphere.origin == Vector3(0.0, 0.0, 3.0)
    requires light == Light(1.2, Vector3(0.0, 7.0, 3.0))
    requires ray.direction == ZERO && point == Vector3(0.0, 1.0, 3.0)
    requires num.normalize(Vector3(0.0, 1.0, 0.0)) == Vector3(0.0, 1.0, 0.0)
    requires num.normalize(Vector3(0.0, 6.0, 0.0)) == Vector3(0.0, 1.0, 0.0)
    requires num.normalize(ZERO) == ZERO
    requires base == Vector3(25.5, 0.0, 0.0)
    ensures Illuminated(ray, point, sphere, num, base, light) == Vector3(77.52, 0.0, 0.0)
    ensures Illuminated(ray, point, sphere, num, base, light) != Vector3(96.9, 0.0, 0.0)
  {
    ExampleLitColor(sphere, light, ray, point, num, base);
    NotTestExpectation(Illuminated(ray, point, sphere, num, base, light));
  }

  /** The colour the light pass produces in the example's configuration. */
  lemma ExampleLitColor(sphere: Sphere, light: Light, ray: Ray, point: Vector3, num: Numerics, base: Vector3)
    requires sphere.origin == Vector3(0.0, 0.0, 3.0)
    requires light == Light(1.2, Vector3(0.0, 7.0, 3.0))
    requires ray.direction == ZERO && point == Vector3(0.0, 1.0, 3.0)
    requires num.normalize(Vector3(0.0, 1.0, 0.0)) == Vector3(0.0, 1.0, 0.0)
    requires num.normalize(Vector3(0.0, 6.0, 0.0)) == Vector3(0.0, 1.0, 0.0)
    requires num.normalize(ZERO) == ZERO
    requires base == Vector3(25.5, 0.0, 0.0)
    ensures Illuminated(ray, point, sphere, num, base, light) == Vector3(77.52, 0.0, 0.0)
  {
    ExampleTerms(sphere, light, ray, point, num);
    ExampleBoosts(base, LambertShading(GetNormal(sphere, point, num), Sub(light.origin, point), LAMBERTIAN_COEFFICIENT, num),
                  light.intensity,
                  SpecularShading(ray, GetNormal(sphere, point, num), Sub(light.origin, point), SHININESS_FACTOR, num));
  }

  /**
   * The whole light pass of the unit test: the light is visible and the
   * clamp leaves 77.52 as it is. The shadow ray from (0, 1, 3) along
   * (0, 6, 0) meets the sphere at parameters 0 and -1/3; both are below
   * Sphere::intersect's cut-off 1e-5, so it reports no hit.
   */
  lemma OverheadLightPass(sphere: Sphere, light: Light, ray: Ray, point: Vector3, num: Numerics, base: Vector3)
    requires sphere.origin == Vector3(0.0, 0.0, 3.0)
    requires light == Light(1.2, Vector3(0.0, 7.0, 3.0))
    requires ray.direction == ZERO && point == Vector3(0.0, 1.0, 3.0)
    requires num.normalize(Vector3(0.0, 1.0, 0.0)) == Vector3(0.0, 1.0, 0.0)
    requires num.normalize(Vector3(0.0, 6.0, 0.0)) == Vector3(0.0, 1.0, 0.0)
    requires num.normalize(ZERO) == ZERO
    requires num.intersect(sphere, Ray(point, Vector3(0.0, 6.0, 0.0))) == None
    requires base == Vector3(25.5, 0.0, 0.0)
    ensures ApplyLight([sphere], ray, point, sphere, num, base, light) == Vector3(77.52, 0.0, 0.0)
  {
    ExampleLightVisible(sphere, light, point, num);
    ExampleLitColor(sphere, light, ray, point, num, base);
  }

  /** In the example nothing lies on the shadow ray, so the light is visible. */
  lemma ExampleLightVisible(sphere: Sphere, light: Light, point: Vector3, num: Numerics)
    requires light.origin == Vector3(0.0, 7.0, 3.0)
    requires point == Vector3(0.0, 1.0, 3.0)
    requires num.intersect(sphere, Ray(point, Vector3(0.0, 6.0, 0.0))) == None
    ensures LightVisible([sphere], point, light, num)
  {
    ExampleToLight(light, point);
    assert [sphere][..0] == [];
  }

  /** 77.52 in red is not the 96.9 the unit test expects. */
  lemma NotTestExpectation(c: Vector3)
    requires c == Vector3(77.52, 0.0, 0.0)
    ensures c != Vector3(96.9, 0.0, 0.0)
  {
    assert c.x != 96.9;
  }

  /** The Lambert and specular terms in the example's geometry: 1.7 and 0. */
  lemma ExampleTerms(sphere: Sphere, light: Light, ray: Ray, point: Vector3, num: Numerics)
    requires sphere.origin == Vector3(0.0, 0.0, 3.0)
    requires light.origin == Vector3(0.0, 7.0, 3.0)
    requires ray.direction == ZERO && point == Vector3(0.0, 1.0, 3.0)
    requires num.normalize(Vector3(0.0, 1.0, 0.0)) == Vector3(0.0, 1.0, 0.0)
    requires num.normalize(Vector3(0.0, 6.0, 0.0)) == Vector3(0.0, 1.0, 0.0)
    requires num.normalize(ZERO) == ZERO
    ensures LambertShading(GetNormal(sphere, point, num), Sub(light.origin, point), LAMBERTIAN_COEFFICIENT, num)
         == LAMBERTIAN_COEFFICIENT
    ensures SpecularShading(ray, GetNormal(sphere, point, num), Sub(light.origin, point), SHININESS_FACTOR, num) == 0.0
  {
    ExampleToLight(light, point);
    ExampleNormal(sphere, point, num);
    UnitUp(GetNormal(sphere, point, num));
    LambertAlongNormal(GetNormal(sphere, point, num), Sub(light.origin, point), num);
    ZeroViewNoSpecular(ray, GetNormal(sphere, point, num), Sub(light.origin, point), num);
  }

  /** In the example the light lies 6 straight above the hit point. */
  lemma ExampleToLight(light: Light, point: Vector3)
    requires light.origin == Vector3(0.0, 7.0, 3.0)
    requires point == Vector3(0.0, 1.0, 3.0)
    ensures Sub(light.origin, point) == Vector3(0.0, 6.0, 0.0)
  {
    SubComponents(light.origin, point, 0.0, 6.0, 0.0);
  }

  /** In the example the sphere's normal at the hit point is (0, 1, 0). */
  lemma ExampleNormal(sphere: Sphere, point: Vector3, num: Numerics)
    requires sphere.origin == Vector3(0.0, 0.0, 3.0)
    requires point == Vector3(0.0, 1.0, 3.0)
    requires num.normalize(Vector3(0.0, 1.0, 0.0)) == Vector3(0.0, 1.0, 0.0)
    ensures GetNormal(sphere, point, num) == Vector3(0.0, 1.0, 0.0)
  {
    SubComponents(point, sphere.origin, 0.0, 1.0, 0.0);
  }

  /** Sub componentwise, with the differences named. */
  lemma SubComponents(a: Vector3, b: Vector3, x: real, y: real, z: real)
    requires a.x - b.x == x && a.y - b.y == y && a.z - b.z == z
    ensures Sub(a, b) == Vector3(x, y, z)
  {
  }

  /** The two accumulation steps with the example's Lambert and specular terms. */
  lemma ExampleBoosts(base: Vector3, lambert: real, intensity: real, specular: real)
    requires base == Vector3(25.5, 0.0, 0.0) && lambert == 1.7 && intensity == 1.2 && specular == 0.0
    ensures Boost(Boost(base, lambert * intensity), specular) == Vector3(77.52, 0.0, 0.0)
  {
    var k := lambert * intensity;
    assert k == 2.04;
    BoostRed(base, k);
    var lit := Boost(base, k);
    assert lit.x == 77.52;
    BoostByZero(lit);
  }

  /** Boost by zero leaves a colour as it is. */
  lemma BoostByZero(c: Vector3)
    ensures Boost(c, 0.0) == c
  {
  }

  /** Boost of a colour with only a red channel. */
  lemma BoostRed(c: Vector3, k: real)
    requires c.y == 0.0 && c.z == 0.0
    ensures Boost(c, k) == Vector3(c.x + c.x * k, 0.0, 0.0)
  {
  }

  /** A light straight along a unit normal gives the full Lambertian coefficient. */
  lemma LambertAlongNormal(normal: Vector3, toLight: Vector3, num: Numerics)
    requires Dot(normal, normal) == 1.0 && num.normalize(toLight) == normal
    ensures LambertShading(normal, toLight, LAMBERTIAN_COEFFICIENT, num) == LAMBERTIAN_COEFFICIENT
  {
  }

  /** (0, 1, 0) is a unit vector. */
  lemma UnitUp(v: Vector3)
    requires v == Vector3(0.0, 1.0, 0.0)
    ensures Dot(v, v) == 1.0
  {
  }

  // ---------------------------------------------------------------------
  // The scene object
  // ---------------------------------------------------------------------

  class Scene {
    var spheres: seq<Sphere>
    var lights: seq<Light>
    var ambientLight: real

    /** Scene::new: no spheres yet. */
    constructor (lights: seq<Light>, ambientLight: real)
      ensures spheres == [] && this.lights == lights && this.ambientLight == ambientLight
    {
      spheres := [];
      this.lights := lights;
      this.ambientLight := ambientLight;
    }

    method AddSphere(sphere: Sphere)
      modifies this
      ensures spheres == old(spheres) + [sphere]
      ensures lights == old(lights) && ambientLight == old(ambientLight)
    {
      spheres := spheres + [sphere];
    }

    method TraceScene(ray: Ray, intersect: (Sphere, Ray) -> Option<real>) returns (r: TraceResult)
      ensures r == Nearest(spheres, ray, intersect)
    {
      var tResult := F64_MAX;
      var hitSphere: Option<nat> := None;
      for i := 0 to |spheres|
        invariant TraceResult(hitSphere, tResult) == Nearest(spheres[..i], ray, intersect)
      {
        assert spheres[..i + 1][..i] == spheres[..i];
        var res := intersect(spheres[i], ray);
        match res {
          case Some(result) =>
            if result < tResult {
              tResult := result;
              hitSphere := Some(i);
            }
          case None =>
        }
      }
      assert spheres[..|spheres|] == spheres;
      r := TraceResult(hitSphere, tResult);
    }

    /**
     * compute_color: the base colour, then one pass per light in list order.
     * With no light the result is the ambient-scaled colour, unclamped.
     */
    method ComputeColor(ray: Ray, intersectionPoint: Vector3, hitSphere: Sphere, num: Numerics) returns (color: Vector3)
      ensures color == Shade(spheres, lights, ambientLight, ray, intersectionPoint, hitSphere, num)
      ensures lights == [] ==> color == Scale(hitSphere.color, ambientLight)
    {
      color := Add(ZERO, Scale(hitSphere.color, ambientLight));
      for i := 0 to |lights|
        invariant color == Shade(spheres, lights[..i], ambientLight, ray, intersectionPoint, hitSphere, num)
      {
        ShadeOneMoreLight(spheres, lights, i, ambientLight, ray, intersectionPoint, hitSphere, num);
        color := ShadeByLight(ray, intersectionPoint, hitSphere, num, color, lights[i]);
      }
      assert lights[..|lights|] == lights;
    }

    /** The lit branch of compute_color's light loop: the Lambert, then the specular contribution. */
    method Illuminate(ray: Ray, intersectionPoint: Vector3, hitSphere: Sphere, num: Numerics,
                      color0: Vector3, light: Light) returns (color: Vector3)
      ensures color == Illuminated(ray, intersectionPoint, hitSphere, num, color0, light)
    {
      var pointToLight := Sub(light.origin, intersectionPoint);
      var normal := GetNormal(hitSphere, intersectionPoint, num);
      var lambertContribution := LambertShading(normal, pointToLight, LAMBERTIAN_COEFFICIENT, num) * light.intensity;
      color := Boost(color0, lambertContribution);
      assert color == LambertStep(intersectionPoint, hitSphere, num, color0, light);
      var specularContribution := SpecularShading(ray, normal, pointToLight, SHININESS_FACTOR, num);
      color := Boost(color, specularContribution);
    }

    /**
     * The body of compute_color's light loop: trace a shadow ray towards the
     * light; if nothing was hit, or the light's distance is below the ray
     * parameter of the hit, add the Lambert and then the specular
     * contribution; in every case clamp each channel to at most 255.
     */
    method ShadeByLight(ray: Ray, intersectionPoint: Vector3, hitSphere: Sphere, num: Numerics,
                        color0: Vector3, light: Light) returns (color: Vector3)
      ensures color == ApplyLight(spheres, ray, intersectionPoint, hitSphere, num, color0, light)
    {
      color := color0;
      var pointToLight := Sub(light.origin, intersectionPoint);
      var tLight := num.length(pointToLight);
      var shadowRay := Ray(intersectionPoint, pointToLight);
      var shadow := TraceScene(shadowRay, num.intersect);
      if shadow.hit.None? || tLight < shadow.t {
        color := Illuminate(ray, intersectionPoint, hitSphere, num, color, light);
      }
      assert color == if LightVisible(spheres, intersectionPoint, light, num)
                      then Illuminated(ray, intersectionPoint, hitSphere, num, color0, light) else color0;
      color := Vector3(ClampChannel(color.x), ClampChannel(color.y), ClampChannel(color.z));
    }
  }
}
