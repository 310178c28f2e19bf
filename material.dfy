/** `material` and its six variants, as one tagged variant. `scatter` returns
    the attenuation and the scattered ray, or None where it returns false.
    The random point `random_in_unit_sphere` returns and the `rand_float` draw
    of `dielectric` are parameters; `unit_vector`, `length`, float division,
    `refract`, `schlick` and `sin` are taken as given. */
module Materials {
  import opened Wrappers
  import opened Vec
  import opened Common
  import opened Textures
  import opened ObjMtl
  import opened Hitables

  datatype Material =
    | Lambertian(albedo: Texture)
    | Metal(color: Vec3, fuzz: real)
    | Dielectric(refIdx: real)
    | DiffuseLight(emit: Texture)
    | Isotropic(albedo: Texture)
    | Custom(objMat: ObjMaterial)

  /** The floating-point helpers `scatter` calls. `refract` returns None
      where it returns false. */
  datatype Numerics = Numerics(
    sin: real -> real,
    unitVector: Vec3 -> Vec3,
    length: Vec3 -> real,
    divide: (real, real) -> real,
    refract: (Vec3, Vec3, real) -> Option<Vec3>,
    schlick: (real, real) -> real)

  /** What a successful `scatter` writes to its two out-parameters. */
  datatype Scattered = Scattered(attenuation: Vec3, ray: Ray)

  /** `metal(a, f)`: the fuzz is `std::min(1.0f, f)`. */
  function NewMetal(a: Vec3, f: real): (m: Material)
    ensures m.Metal? && m.color == a
    ensures m.fuzz <= 1.0 && (f <= 1.0 ==> m.fuzz == f) && (f >= 1.0 ==> m.fuzz == 1.0)
  {
    Metal(a, if f < 1.0 then f else 1.0)
  }

  /** `reflect(v, n)`: `v - 2 * dot(v, n) * n`. */
  function Reflect(v: Vec3, n: Vec3): Vec3
  {
    Add(v, Scale(-2.0 * Dot(v, n), n))
  }

  /** `std::clamp(v, lo, hi)`. */
  function Clamp(v: int, lo: int, hi: int): (r: int)
    requires lo <= hi
    ensures lo <= r <= hi
    ensures lo <= v <= hi ==> r == v
    ensures v < lo ==> r == lo
    ensures hi < v ==> r == hi
  {
    if v < lo then lo else if hi < v then hi else v
  }

  /** `material::emitted`: black, except for `diffuse_light` and
      `custom_material`. */
  function Emitted(m: Material, sin: real -> real, u: real, v: real, p: Vec3): Vec3
  {
    match m
    case DiffuseLight(emit) => Value(emit, sin, u, v, p)
    case Custom(objMat) => objMat.emissiveCoefficient
    case _ => Zero
  }

  /** The direction `lambertian` and `custom_material` scatter into:
      `target - rec.p` with `target = rec.p + rec.normal + s`. */
  function DiffuseDirection<M>(rec: HitRecord<M>, s: Vec3): Vec3
  {
    Sub(Add(Add(rec.p, rec.normal), s), rec.p)
  }

  /** The ray `metal` scatters, keeping the incoming ray's time. */
  function MetalRay<M>(fuzz: real, num: Numerics, rIn: Ray, rec: HitRecord<M>, s: Vec3): Ray
  {
    var reflected := Reflect(num.unitVector(rIn.direction), rec.normal);
    Ray(rec.p, Add(reflected, Scale(fuzz, s)), rIn.time)
  }

  /** The ray `dielectric` scatters: the reflected one when the draw falls
      below the reflection probability, the refracted one otherwise. A failed
      `refract` sets the probability to 1, which every draw falls below, so
      the refracted vector is read only after `refract` has written it. */
  function DielectricRay<M>(refIdx: real, num: Numerics, rIn: Ray, rec: HitRecord<M>, draw: Draw): Ray
  {
    var d := rIn.direction;
    var reflected := Reflect(num.unitVector(d), rec.normal);
    var entering := !(Dot(d, rec.normal) > 0.0);
    var outwardNormal := if entering then rec.normal else Neg(rec.normal);
    var niOverNt := if entering then num.divide(1.0, refIdx) else refIdx;
    var cosine :=
      if entering then num.divide(-Dot(d, rec.normal), num.length(d))
      else num.divide(refIdx * Dot(d, rec.normal), num.length(d));
    var refracted := num.refract(d, outwardNormal, niOverNt);
    var reflectProb := if refracted.Some? then num.schlick(cosine, refIdx) else 1.0;
    if draw < reflectProb then Ray(rec.p, reflected, rIn.time)
    else Ray(rec.p, refracted.value, rIn.time)
  }

  /** The byte at index `k` of texel (x, y), as a colour component. */
  function Channel(m: ObjMaterial, x: int, y: int, k: int): (c: real)
    requires TexelsFit(m)
    requires 0 <= x < m.texWidth && 0 <= y < m.texHeight && 0 <= k < 4
    ensures 0.0 <= c <= 1.0
  {
    TexelIndexInBounds(m.texWidth, m.texHeight, x, y, k);
    m.texColor[4 * x + 4 * m.texWidth * y + k] as real / 255.0
  }

  /** The texel `custom_material` reads at (u, v): `x = int(nx * u)` and
      `y = int((1 - v) * ny - 0.001)`, each clamped into the image. */
  function Texel(m: ObjMaterial, u: real, v: real): (c: Vec3)
    requires TexelsFit(m) && |m.texColor| > 0
    ensures 0.0 <= c.x <= 1.0 && 0.0 <= c.y <= 1.0 && 0.0 <= c.z <= 1.0
  {
    var nx, ny := m.texWidth, m.texHeight;
    var x := Clamp(Trunc(nx as real * u), 0, nx - 1);
    var y := Clamp(Trunc((1.0 - v) * ny as real - 0.001), 0, ny - 1);
    Vec3(Channel(m, x, y, 0), Channel(m, x, y, 1), Channel(m, x, y, 2))
  }

  /** A material the loader built: its texture buffer fits its size. */
  predicate Loaded(m: Material)
  {
    m.Custom? ==> TexelsFit(m.objMat)
  }

  /** `material::scatter`, with `s` the point `random_in_unit_sphere`
      returns and `draw` the value of `rand_float`. */
  function Scatter<M>(m: Material, num: Numerics, rIn: Ray, rec: HitRecord<M>, s: Vec3, draw: Draw): Option<Scattered>
    requires Loaded(m)
  {
    match m
    case Lambertian(albedo) =>
      Some(Scattered(Value(albedo, num.sin, rec.u, rec.v, rec.p), NewRay(rec.p, DiffuseDirection(rec, s))))
    case Metal(color, fuzz) =>
      var scattered := MetalRay(fuzz, num, rIn, rec, s);
      if Dot(scattered.direction, rec.normal) > 0.0 then Some(Scattered(color, scattered)) else None
    case Dielectric(refIdx) =>
      Some(Scattered(One, DielectricRay(refIdx, num, rIn, rec, draw)))
    case DiffuseLight(_) => None
    case Isotropic(albedo) =>
      Some(Scattered(Value(albedo, num.sin, rec.u, rec.v, rec.p), NewRay(rec.p, s)))
    case Custom(objMat) =>
      var attenuation := if |objMat.texColor| > 0 then Texel(objMat, rec.u, rec.v) else objMat.diffuse;
      Some(Scattered(attenuation, NewRay(rec.p, DiffuseDirection(rec, s))))
  }

  // ---------------------------------------------------------------- properties

  /** Every byte index of a texel inside an `nx` by `ny` image lies within a
      buffer of `4 * nx * ny` bytes. */
  lemma TexelIndexInBounds(nx: int, ny: int, x: int, y: int, k: int)
    requires 0 <= x < nx && 0 <= y < ny && 0 <= k < 4
    ensures 0 <= 4 * x + 4 * nx * y + k < 4 * nx * ny
  {
    assert nx * y + nx == nx * (y + 1);
    assert nx * (y + 1) <= nx * ny;
  }

  /** The clamped texel coordinates always lie inside an image with at least
      one texel, whatever u and v are. */
  lemma TexelClamped(m: ObjMaterial, u: real, v: real)
    requires TexelsFit(m) && |m.texColor| > 0
    ensures m.texWidth >= 1 && m.texHeight >= 1
    ensures 0 <= Clamp(Trunc(m.texWidth as real * u), 0, m.texWidth - 1) < m.texWidth
    ensures 0 <= Clamp(Trunc((1.0 - v) * m.texHeight as real - 0.001), 0, m.texHeight - 1) < m.texHeight
  {
  }

  /** Emission is black unless the material is a diffuse light, which emits
      its texture's value, or a custom material, which emits its emissive
      coefficient. */
  lemma EmittedSources(m: Material, sin: real -> real, u: real, v: real, p: Vec3)
    ensures m.DiffuseLight? ==> Emitted(m, sin, u, v, p) == Value(m.emit, sin, u, v, p)
    ensures m.Custom? ==> Emitted(m, sin, u, v, p) == m.objMat.emissiveCoefficient
    ensures !m.DiffuseLight? && !m.Custom? ==> Emitted(m, sin, u, v, p) == Zero
  {
  }

  /** Lambertian, isotropic, dielectric and custom materials always scatter,
      a diffuse light never does, and a metal scatters exactly when its ray
      leaves on the side the normal points to. */
  lemma ScatterOrAbsorb<M>(m: Material, num: Numerics, rIn: Ray, rec: HitRecord<M>, s: Vec3, draw: Draw)
    requires Loaded(m)
    ensures m.Lambertian? || m.Isotropic? || m.Dielectric? || m.Custom? ==> Scatter(m, num, rIn, rec, s, draw).Some?
    ensures m.DiffuseLight? ==> Scatter(m, num, rIn, rec, s, draw).None?
    ensures m.Metal? ==>
      (Scatter(m, num, rIn, rec, s, draw).Some? <==> Dot(MetalRay(m.fuzz, num, rIn, rec, s).direction, rec.normal) > 0.0)
  {
  }

  /** Where the attenuation comes from: the albedo texture at (u, v, p), the
      metal's colour, white for glass, and the diffuse colour or a texel
      with components in [0, 1] for a custom material. */
  lemma AttenuationSources<M>(m: Material, num: Numerics, rIn: Ray, rec: HitRecord<M>, s: Vec3, draw: Draw)
    requires Loaded(m) && Scatter(m, num, rIn, rec, s, draw).Some?
    ensures var a := Scatter(m, num, rIn, rec, s, draw).value.attenuation;
      && (m.Lambertian? || m.Isotropic? ==> a == Value(m.albedo, num.sin, rec.u, rec.v, rec.p))
      && (m.Metal? ==> a == m.color)
      && (m.Dielectric? ==> a == One)
      && (m.Custom? && |m.objMat.texColor| == 0 ==> a == m.objMat.diffuse)
      && (m.Custom? && |m.objMat.texColor| > 0 ==>
            a == Texel(m.objMat, rec.u, rec.v) && 0.0 <= a.x <= 1.0 && 0.0 <= a.y <= 1.0 && 0.0 <= a.z <= 1.0)
  {
  }

  /** Every scattered ray starts at the hit point; metal and glass keep the
      incoming ray's time and the others get the default time 0. */
  lemma ScatteredRayStamps<M>(m: Material, num: Numerics, rIn: Ray, rec: HitRecord<M>, s: Vec3, draw: Draw)
    requires Loaded(m) && Scatter(m, num, rIn, rec, s, draw).Some?
    ensures var r := Scatter(m, num, rIn, rec, s, draw).value.ray;
      && r.origin == rec.p
      && (m.Metal? || m.Dielectric? ==> r.time == rIn.time)
      && (m.Lambertian? || m.Isotropic? || m.Custom? ==> r.time == 0.0)
  {
  }

  /** When `refract` fails, glass always reflects, whatever the draw. */
  lemma DielectricReflectsOnFailedRefraction<M>(refIdx: real, num: Numerics, rIn: Ray, rec: HitRecord<M>, draw: Draw)
    requires var outward := if Dot(rIn.direction, rec.normal) > 0.0 then Neg(rec.normal) else rec.normal;
      var ratio := if Dot(rIn.direction, rec.normal) > 0.0 then refIdx else num.divide(1.0, refIdx);
      num.refract(rIn.direction, outward, ratio).None?
    ensures DielectricRay(refIdx, num, rIn, rec, draw).direction == Reflect(num.unitVector(rIn.direction), rec.normal)
  {
  }

  /** Against a unit normal, reflection negates the normal component. */
  lemma ReflectNormal(v: Vec3, n: Vec3)
    requires Norm(n) == 1.0
    ensures Dot(Reflect(v, n), n) == -Dot(v, n)
  {
    var k := -2.0 * Dot(v, n);
    var w := Reflect(v, n);
    assert w == Vec3(v.x + k * n.x, v.y + k * n.y, v.z + k * n.z);
    assert Dot(w, n) == Dot(v, n) + k * Norm(n);
  }

  /** Against a unit normal, reflection undoes itself. */
  lemma ReflectInvolution(v: Vec3, n: Vec3)
    requires Norm(n) == 1.0
    ensures Reflect(Reflect(v, n), n) == v
  {
    ReflectNormal(v, n);
    var w := Reflect(v, n);
    assert Reflect(w, n) == Add(w, Scale(2.0 * Dot(v, n), n));
  }
}
