/** The axis-aligned rectangles `xy_rect`, `xz_rect`, `yz_rect` and the six-faced `box`. */
module Rects {
  import opened Wrappers
  import opened Vec
  import opened Aabbs
  import opened Hitables

  /** The three rectangle classes: two extents in the plane and the fixed
      coordinate `k` of the plane (`z`, `y` or `x` in the source). */
  datatype Rect<M> =
    | XYRect(x0: real, x1: real, y0: real, y1: real, k: real, mat: M)
    | XZRect(x0: real, x1: real, z0: real, z1: real, k: real, mat: M)
    | YZRect(y0: real, y1: real, z0: real, z1: real, k: real, mat: M)

  /** The first in-plane extent (`x0..x1`, `x0..x1`, `y0..y1`). */
  function Lo1<M>(rc: Rect<M>): real { if rc.YZRect? then rc.y0 else rc.x0 }
  function Hi1<M>(rc: Rect<M>): real { if rc.YZRect? then rc.y1 else rc.x1 }
  /** The second in-plane extent (`y0..y1`, `z0..z1`, `z0..z1`). */
  function Lo2<M>(rc: Rect<M>): real { if rc.XYRect? then rc.y0 else rc.z0 }
  function Hi2<M>(rc: Rect<M>): real { if rc.XYRect? then rc.y1 else rc.z1 }

  /** The coordinate fixed by the plane, and the two in-plane coordinates, of a point. */
  function Across<M>(rc: Rect<M>, p: Vec3): real { if rc.XYRect? then p.z else if rc.XZRect? then p.y else p.x }
  function In1<M>(rc: Rect<M>, p: Vec3): real { if rc.YZRect? then p.y else p.x }
  function In2<M>(rc: Rect<M>, p: Vec3): real { if rc.XYRect? then p.y else p.z }

  /** The fixed normal each class writes: +z, +y or +x. */
  function AxisNormal<M>(rc: Rect<M>): Vec3
  {
    match rc
    case XYRect(_, _, _, _, _, _) => Vec3(0.0, 0.0, 1.0)
    case XZRect(_, _, _, _, _, _) => Vec3(0.0, 1.0, 0.0)
    case YZRect(_, _, _, _, _, _) => Vec3(1.0, 0.0, 0.0)
  }

  /** `a / w`, the fraction of the way across an extent of width `w`. The
      source divides in floating point, which gives NaN for an empty extent;
      here an empty extent gives 0. */
  function Ratio(a: real, w: real): (f: real)
    ensures f * w == (if w == 0.0 then 0.0 else a)
  {
    if w == 0.0 then 0.0 else a / w
  }

  /** `xy_rect::hit`, `xz_rect::hit` and `yz_rect::hit`, which differ only in
      which axis is fixed: solve for the plane, reject `t` outside
      [t_min, t_max], reject points outside the extent, and only then fill the
      record. A ray parallel to the plane misses. */
  function Hit<M>(rc: Rect<M>, r: Ray, tMin: real, tMax: real): Option<HitRecord<M>>
  {
    var o, d := r.origin, r.direction;
    if Across(rc, d) == 0.0 then None
    else
      var t := (rc.k - Across(rc, o)) / Across(rc, d);
      if t < tMin || tMax < t then None
      else
        var p := PointAt(r, t);
        var a, b := In1(rc, p), In2(rc, p);
        if a < Lo1(rc) || Hi1(rc) < a || b < Lo2(rc) || Hi2(rc) < b then None
        else Some(HitRecord(t, p, AxisNormal(rc), rc.mat,
                            Ratio(a - Lo1(rc), Hi1(rc) - Lo1(rc)), Ratio(b - Lo2(rc), Hi2(rc) - Lo2(rc))))
  }

  /** The plane and in-plane coordinates of a point on a ray move linearly with `t`. */
  lemma CoordinatesAlongRay<M>(rc: Rect<M>, r: Ray, t: real)
    ensures Across(rc, PointAt(r, t)) == Across(rc, r.origin) + t * Across(rc, r.direction)
    ensures In1(rc, PointAt(r, t)) == In1(rc, r.origin) + t * In1(rc, r.direction)
    ensures In2(rc, PointAt(r, t)) == In2(rc, r.origin) + t * In2(rc, r.direction)
  {
  }

  /** What every reported hit satisfies: `t` in the closed interval, the point
      on the ray and in the plane, the in-plane coordinates inside the extent,
      the fixed normal, the rectangle's material, and `u`, `v` the fractions of
      the way across each extent. */
  predicate Reported<M(==)>(rc: Rect<M>, r: Ray, tMin: real, tMax: real, rec: HitRecord<M>)
  {
    && tMin <= rec.t <= tMax
    && rec.p == PointAt(r, rec.t)
    && Across(rc, rec.p) == rc.k
    && Lo1(rc) <= In1(rc, rec.p) <= Hi1(rc)
    && Lo2(rc) <= In2(rc, rec.p) <= Hi2(rc)
    && rec.normal == AxisNormal(rc)
    && rec.mat == rc.mat
    && rec.u * (Hi1(rc) - Lo1(rc)) == In1(rc, rec.p) - Lo1(rc)
    && rec.v * (Hi2(rc) - Lo2(rc)) == In2(rc, rec.p) - Lo2(rc)
  }

  /** A ray that is not parallel to the plane crosses it at exactly one `t`. */
  lemma PlaneCrossing<M>(rc: Rect<M>, r: Ray, t: real)
    requires Across(rc, r.direction) != 0.0 && Across(rc, PointAt(r, t)) == rc.k
    ensures t == (rc.k - Across(rc, r.origin)) / Across(rc, r.direction)
  {
    var dk := Across(rc, r.direction);
    CoordinatesAlongRay(rc, r, t);
    var t0 := (rc.k - Across(rc, r.origin)) / dk;
    assert t0 * dk == rc.k - Across(rc, r.origin);
    assert (t - t0) * dk == 0.0;
  }

  /** Every record a rectangle reports is the one `Reported` describes. */
  lemma HitReported<M>(rc: Rect<M>, r: Ray, tMin: real, tMax: real)
    ensures Hit(rc, r, tMin, tMax).Some? ==> Reported(rc, r, tMin, tMax, Hit(rc, r, tMin, tMax).value)
  {
    if Hit(rc, r, tMin, tMax).Some? {
      var gap, dk := rc.k - Across(rc, r.origin), Across(rc, r.direction);
      var t := gap / dk;
      Quotient(gap, dk);
      CoordinatesAlongRay(rc, r, t);
      assert Across(rc, PointAt(r, t)) == rc.k;
    }
  }

  lemma Quotient(a: real, b: real)
    requires b != 0.0
    ensures a / b * b == a
  {
  }

  /** A miss is reported exactly when the ray does not cross the plane at a
      `t` in [t_min, t_max] at a point inside the extent; a ray parallel to
      the plane always misses, even when it lies in the plane. */
  lemma HitMissed<M>(rc: Rect<M>, r: Ray, tMin: real, tMax: real)
    ensures Across(rc, r.direction) == 0.0 ==> Hit(rc, r, tMin, tMax).None?
    ensures Across(rc, r.direction) != 0.0 && Hit(rc, r, tMin, tMax).None? ==>
      forall t :: tMin <= t <= tMax && Across(rc, PointAt(r, t)) == rc.k ==>
        !(Lo1(rc) <= In1(rc, PointAt(r, t)) <= Hi1(rc) && Lo2(rc) <= In2(rc, PointAt(r, t)) <= Hi2(rc))
  {
    if Across(rc, r.direction) != 0.0 && Hit(rc, r, tMin, tMax).None? {
      forall t | tMin <= t <= tMax && Across(rc, PointAt(r, t)) == rc.k
        ensures !(Lo1(rc) <= In1(rc, PointAt(r, t)) <= Hi1(rc) && Lo2(rc) <= In2(rc, PointAt(r, t)) <= Hi2(rc))
      {
        PlaneCrossing(rc, r, t);
      }
    }
  }

  /** With `lo < hi` on both extents, the texture coordinates of a hit lie in [0, 1]. */
  lemma HitTextureCoordinates<M>(rc: Rect<M>, r: Ray, tMin: real, tMax: real)
    requires Lo1(rc) < Hi1(rc) && Lo2(rc) < Hi2(rc)
    ensures Hit(rc, r, tMin, tMax).Some? ==>
      0.0 <= Hit(rc, r, tMin, tMax).value.u <= 1.0 && 0.0 <= Hit(rc, r, tMin, tMax).value.v <= 1.0
  {
    HitReported(rc, r, tMin, tMax);
    if Hit(rc, r, tMin, tMax).Some? {
      var rec := Hit(rc, r, tMin, tMax).value;
      FractionInUnit(rec.u, Lo1(rc), Hi1(rc), In1(rc, rec.p));
      FractionInUnit(rec.v, Lo2(rc), Hi2(rc), In2(rc, rec.p));
    }
  }

  lemma FractionInUnit(f: real, lo: real, hi: real, a: real)
    requires lo < hi && lo <= a <= hi && f * (hi - lo) == a - lo
    ensures 0.0 <= f <= 1.0
  {
    var w := hi - lo;
    assert f * w == a - lo;
    assert (f - 1.0) * w == f * w - w;
    ProductSign(f, w);
    ProductSign(f - 1.0, w);
    assert !(f * w < 0.0);
    assert !(f < 0.0);
  }

  lemma ProductSign(a: real, b: real)
    requires b > 0.0
    ensures a < 0.0 ==> a * b < 0.0
    ensures a > 0.0 ==> a * b > 0.0
  {
  }

  /** The padding the boxes of the rectangles add on each side of the plane. */
  const Pad: real := 0.0001

  /** `bounding_box` of the three rectangle classes: the extents, padded by
      `Pad` on each side of the flat axis; it always succeeds. */
  function BoundingBox<M>(rc: Rect<M>, t0: real, t1: real): (b: Option<Aabb>)
    ensures b.Some?
    ensures Across(rc, b.value.min) == rc.k - Pad && Across(rc, b.value.max) == rc.k + Pad
    ensures In1(rc, b.value.min) == Lo1(rc) && In1(rc, b.value.max) == Hi1(rc)
    ensures In2(rc, b.value.min) == Lo2(rc) && In2(rc, b.value.max) == Hi2(rc)
  {
    match rc
    case XYRect(x0, x1, y0, y1, z, _) => Some(Aabb(Vec3(x0, y0, z - Pad), Vec3(x1, y1, z + Pad)))
    case XZRect(x0, x1, z0, z1, y, _) => Some(Aabb(Vec3(x0, y - Pad, z0), Vec3(x1, y + Pad, z1)))
    case YZRect(y0, y1, z0, z1, x, _) => Some(Aabb(Vec3(x - Pad, y0, z0), Vec3(x + Pad, y1, z1)))
  }

  /** The padded box is strictly thick across the plane and contains every
      point a hit reports. */
  lemma BoundingBoxContainsHits<M>(rc: Rect<M>, r: Ray, tMin: real, tMax: real, t0: real, t1: real)
    ensures var b := BoundingBox(rc, t0, t1).value; Across(rc, b.min) < Across(rc, b.max)
    ensures Hit(rc, r, tMin, tMax).Some? ==>
      var b, p := BoundingBox(rc, t0, t1).value, Hit(rc, r, tMin, tMax).value.p;
      Below(b.min, p) && Below(p, b.max)
  {
    HitReported(rc, r, tMin, tMax);
  }

  // ---------------------------------------------------------------- box

  /** One slot of the list `box` builds: a rectangle, or one wrapped in `flip_normals`. */
  datatype Face<M> = Plain(rect: Rect<M>) | Flipped(rect: Rect<M>)

  /** `box`: its corners, its material and its six faces. The list of faces is
      handed to `hitable_list`, which is not part of this model. */
  datatype Box<M> = Box(pmin: Vec3, pmax: Vec3, mat: M, faces: seq<Face<M>>)

  /** The `box` constructor: two faces per axis, the one on the `pmin` plane
      flipped so that its normal points outwards. */
  function NewBox<M>(p0: Vec3, p1: Vec3, mat: M): (b: Box<M>)
    ensures |b.faces| == 6 && b.pmin == p0 && b.pmax == p1 && b.mat == mat
  {
    Box(p0, p1, mat, [
      Flipped(XYRect(p0.x, p1.x, p0.y, p1.y, p0.z, mat)),
      Plain(XYRect(p0.x, p1.x, p0.y, p1.y, p1.z, mat)),
      Flipped(XZRect(p0.x, p1.x, p0.z, p1.z, p0.y, mat)),
      Plain(XZRect(p0.x, p1.x, p0.z, p1.z, p1.y, mat)),
      Flipped(YZRect(p0.y, p1.y, p0.z, p1.z, p0.x, mat)),
      Plain(YZRect(p0.y, p1.y, p0.z, p1.z, p1.x, mat))
    ])
  }

  /** `box::bounding_box`: the two corners, for any time interval. */
  function BoxBoundingBox<M>(b: Box<M>, t0: real, t1: real): (r: Option<Aabb>)
    ensures r == Some(Aabb(b.pmin, b.pmax))
  {
    Some(Aabb(b.pmin, b.pmax))
  }

  /** Every face of a box lies on one of its six planes and spans the box's
      extent within that plane; exactly the faces on the `pmin` planes are
      flipped, and each axis has one face on each of its two planes. */
  lemma {:induction false} BoxFacesOnBoundary<M>(p0: Vec3, p1: Vec3, mat: M)
    ensures var faces := NewBox(p0, p1, mat).faces;
      forall n :: 0 <= n < 6 ==>
        var rc := faces[n].rect;
        && rc.mat == mat
        && (faces[n].Flipped? <==> n % 2 == 0)
        && rc.k == (if n % 2 == 0 then Across(rc, p0) else Across(rc, p1))
        && Lo1(rc) == In1(rc, p0) && Hi1(rc) == In1(rc, p1)
        && Lo2(rc) == In2(rc, p0) && Hi2(rc) == In2(rc, p1)
    ensures var faces := NewBox(p0, p1, mat).faces;
      faces[0].rect.XYRect? && faces[1].rect.XYRect? && faces[2].rect.XZRect? &&
      faces[3].rect.XZRect? && faces[4].rect.YZRect? && faces[5].rect.YZRect?
  {
    var faces := NewBox(p0, p1, mat).faces;
    forall n | 0 <= n < 6
      ensures var rc := faces[n].rect;
        && rc.mat == mat
        && (faces[n].Flipped? <==> n % 2 == 0)
        && rc.k == (if n % 2 == 0 then Across(rc, p0) else Across(rc, p1))
        && Lo1(rc) == In1(rc, p0) && Hi1(rc) == In1(rc, p1)
        && Lo2(rc) == In2(rc, p0) && Hi2(rc) == In2(rc, p1)
    {
      assert n == 0 || n == 1 || n == 2 || n == 3 || n == 4 || n == 5;
    }
  }
}
