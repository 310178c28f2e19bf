/** vec3 and ray, with every float component taken as a real number. */
module Vec {

  /** A vec3: a point, a direction or an RGB colour. */
  datatype Vec3 = Vec3(x: real, y: real, z: real)

  const Zero := Vec3(0.0, 0.0, 0.0)
  const One := Vec3(1.0, 1.0, 1.0)

  function Add(a: Vec3, b: Vec3): Vec3 { Vec3(a.x + b.x, a.y + b.y, a.z + b.z) }
  function Sub(a: Vec3, b: Vec3): Vec3 { Vec3(a.x - b.x, a.y - b.y, a.z - b.z) }
  /** Componentwise product, `operator*(vec3, vec3)`. */
  function Mul(a: Vec3, b: Vec3): Vec3 { Vec3(a.x * b.x, a.y * b.y, a.z * b.z) }
  function Scale(t: real, v: Vec3): Vec3 { Vec3(t * v.x, t * v.y, t * v.z) }
  function Neg(v: Vec3): Vec3 { Vec3(-v.x, -v.y, -v.z) }
  function Dot(a: Vec3, b: Vec3): real { a.x * b.x + a.y * b.y + a.z * b.z }
  /** `vec3::norm`: the squared length. */
  function Norm(v: Vec3): real { Dot(v, v) }

  /** `operator[]`, whose assertion admits only the indices 0, 1 and 2. */
  function At(v: Vec3, i: nat): real
    requires i < 3
  {
    if i == 0 then v.x else if i == 1 then v.y else v.z
  }

  /** Assignment through `operator[]`. */
  function With(v: Vec3, i: nat, r: real): Vec3
    requires i < 3
  {
    if i == 0 then v.(x := r) else if i == 1 then v.(y := r) else v.(z := r)
  }

  /** A ray `A + t*B` stamped with a shutter time. */
  datatype Ray = Ray(origin: Vec3, direction: Vec3, time: real)

  /** `ray(a, b)`: the time argument defaults to 0. */
  function NewRay(a: Vec3, b: Vec3): Ray { Ray(a, b, 0.0) }

  function PointAt(r: Ray, t: real): Vec3 { Add(r.origin, Scale(t, r.direction)) }
}
