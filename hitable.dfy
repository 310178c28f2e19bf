/** `hit_record` and the structural wrappers `flip_normals`, `translate` and the
    bounding box that the `rotate_y` constructor computes. A child object is
    given by its two capabilities, `hit` and `bounding_box`, with the C++
    out-parameter returned as an Option. */
module Hitables {
  import opened Wrappers
  import opened Vec
  import opened Aabbs

  /** `hit_record`; the material pointer is the type parameter M. */
  datatype HitRecord<M> = HitRecord(t: real, p: Vec3, normal: Vec3, mat: M, u: real, v: real)

  /** `hitable::hit(r, t_min, t_max, rec)` of some child object. */
  type HitFn<M> = (Ray, real, real) -> Option<HitRecord<M>>

  /** `hitable::bounding_box(t0, t1, box)` of some child object. */
  type BoxFn = (real, real) -> Option<Aabb>

  // ---------------------------------------------------------------- flip_normals

  /** `flip_normals::hit`: delegate, then negate the normal of a reported hit. */
  function FlipHit<M>(child: HitFn<M>, r: Ray, tMin: real, tMax: real): Option<HitRecord<M>>
  {
    match child(r, tMin, tMax)
    case None => None
    case Some(rec) => Some(rec.(normal := Neg(rec.normal)))
  }

  /** `flip_normals::bounding_box`: the child's answer, unchanged. */
  function FlipBoundingBox(child: BoxFn, t0: real, t1: real): (b: Option<Aabb>)
    ensures b == child(t0, t1)
  {
    child(t0, t1)
  }

  /** A flipped object hits exactly when its child does, with the same record
      except for the normal, which is negated. */
  lemma FlipHitDelegates<M>(child: HitFn<M>, r: Ray, tMin: real, tMax: real)
    ensures FlipHit(child, r, tMin, tMax).Some? <==> child(r, tMin, tMax).Some?
    ensures FlipHit(child, r, tMin, tMax).Some? ==>
      var flipped, rec := FlipHit(child, r, tMin, tMax).value, child(r, tMin, tMax).value;
      flipped.normal == Neg(rec.normal) && flipped.t == rec.t && flipped.p == rec.p &&
      flipped.mat == rec.mat && flipped.u == rec.u && flipped.v == rec.v
  {
  }

  /** Flipping twice gives back the child's own record. */
  lemma {:induction false} FlipTwice<M>(child: HitFn<M>, r: Ray, tMin: real, tMax: real)
    ensures FlipHit((r': Ray, a: real, b: real) => FlipHit(child, r', a, b), r, tMin, tMax) == child(r, tMin, tMax)
  {
    match child(r, tMin, tMax)
    case None =>
    case Some(rec) =>
      assert Neg(Neg(rec.normal)) == rec.normal;
  }

  // ---------------------------------------------------------------- translate

  /** The ray `translate::hit` hands to its child. */
  function MovedRay(r: Ray, offset: Vec3): Ray
  {
    Ray(Sub(r.origin, offset), r.direction, r.time)
  }

  /** `translate::hit`: query the child with the origin moved by `-offset`,
      then move a reported point by `+offset`. */
  function TranslateHit<M>(child: HitFn<M>, offset: Vec3, r: Ray, tMin: real, tMax: real): Option<HitRecord<M>>
  {
    match child(MovedRay(r, offset), tMin, tMax)
    case None => None
    case Some(rec) => Some(rec.(p := Add(rec.p, offset)))
  }

  /** `translate::bounding_box`: the child's box with both corners shifted. */
  function TranslateBoundingBox(child: BoxFn, offset: Vec3, t0: real, t1: real): Option<Aabb>
  {
    match child(t0, t1)
    case None => None
    case Some(b) => Some(Aabb(Add(b.min, offset), Add(b.max, offset)))
  }

  /** The child sees the same direction and time and an origin moved by `-offset`;
      on a hit only `p` changes, by `+offset`. */
  lemma TranslateHitDelegates<M>(child: HitFn<M>, offset: Vec3, r: Ray, tMin: real, tMax: real)
    ensures MovedRay(r, offset).direction == r.direction && MovedRay(r, offset).time == r.time
    ensures Add(MovedRay(r, offset).origin, offset) == r.origin
    ensures TranslateHit(child, offset, r, tMin, tMax).Some? <==> child(MovedRay(r, offset), tMin, tMax).Some?
    ensures TranslateHit(child, offset, r, tMin, tMax).Some? ==>
      var moved, rec := TranslateHit(child, offset, r, tMin, tMax).value, child(MovedRay(r, offset), tMin, tMax).value;
      moved.p == Add(rec.p, offset) && moved.t == rec.t && moved.normal == rec.normal &&
      moved.mat == rec.mat && moved.u == rec.u && moved.v == rec.v
  {
  }

  /** Translating by `offset` and then by `-offset` gives back the child. */
  lemma {:induction false} TranslateInverse<M>(child: HitFn<M>, offset: Vec3, r: Ray, tMin: real, tMax: real)
    ensures TranslateHit((r': Ray, a: real, b: real) => TranslateHit(child, offset, r', a, b), Neg(offset), r, tMin, tMax)
         == child(r, tMin, tMax)
  {
    assert MovedRay(MovedRay(r, Neg(offset)), offset) == r;
    match child(r, tMin, tMax)
    case None =>
    case Some(rec) =>
      assert Add(Add(rec.p, offset), Neg(offset)) == rec.p;
  }

  /** The translated box fails exactly when the child's does, and otherwise
      is the child's box moved by `offset`; moving it back restores it. */
  lemma TranslateBoundingBoxShifts(child: BoxFn, offset: Vec3, t0: real, t1: real)
    ensures TranslateBoundingBox(child, offset, t0, t1).None? <==> child(t0, t1).None?
    ensures TranslateBoundingBox(child, offset, t0, t1).Some? ==>
      var b, c := TranslateBoundingBox(child, offset, t0, t1).value, child(t0, t1).value;
      Sub(b.min, offset) == c.min && Sub(b.max, offset) == c.max && (WellFormed(b) <==> WellFormed(c))
  {
  }

  // ---------------------------------------------------------------- rotate_y

  /** `std::numeric_limits<float>::max()`. */
  const FltMax: real := 340282346638528859811704183484516925440.0

  /** `std::max(a, b)`: `a < b ? b : a`. */
  function StdMax(a: real, b: real): real { if a < b then b else a }

  /** `std::min(a, b)`: `b < a ? b : a`. */
  function StdMin(a: real, b: real): real { if b < a then b else a }

  function VMin(a: Vec3, b: Vec3): Vec3 { Vec3(StdMin(a.x, b.x), StdMin(a.y, b.y), StdMin(a.z, b.z)) }
  function VMax(a: Vec3, b: Vec3): Vec3 { Vec3(StdMax(a.x, b.x), StdMax(a.y, b.y), StdMax(a.z, b.z)) }

  /** Corner (i, j, k) of `b`, selected arithmetically as the constructor does. */
  function Corner(b: Aabb, i: int, j: int, k: int): Vec3
  {
    Vec3(i as real * b.max.x + (1 - i) as real * b.min.x,
         j as real * b.max.y + (1 - j) as real * b.min.y,
         k as real * b.max.z + (1 - k) as real * b.min.z)
  }

  /** A point rotated about the y axis by the angle whose sine and cosine are given. */
  function RotateAboutY(sinTheta: real, cosTheta: real, c: Vec3): Vec3
  {
    Vec3(cosTheta * c.x + sinTheta * c.z, c.y, -sinTheta * c.x + cosTheta * c.z)
  }

  /** The eight rotated corners in the order the constructor's loops visit them. */
  function RotatedCorners(b: Aabb, sinTheta: real, cosTheta: real): (s: seq<Vec3>)
    ensures |s| == 8
  {
    seq(8, n requires 0 <= n < 8 => RotateAboutY(sinTheta, cosTheta, Corner(b, n / 4, (n / 2) % 2, n % 2)))
  }

  function MinFold(start: Vec3, s: seq<Vec3>): Vec3
  {
    if |s| == 0 then start else VMin(MinFold(start, s[..|s| - 1]), s[|s| - 1])
  }

  function MaxFold(start: Vec3, s: seq<Vec3>): Vec3
  {
    if |s| == 0 then start else VMax(MaxFold(start, s[..|s| - 1]), s[|s| - 1])
  }

  const MinStart := Vec3(FltMax, FltMax, FltMax)
  const MaxStart := Vec3(-FltMax, -FltMax, -FltMax)

  /** The innermost loop of the `rotate_y` constructor: fold one rotated corner
      into `minv`/`maxv`, one component at a time. */
  method IncludeCorner(minv: Vec3, maxv: Vec3, r: Vec3) returns (minv': Vec3, maxv': Vec3)
    ensures minv' == VMin(minv, r) && maxv' == VMax(maxv, r)
  {
    minv', maxv' := minv, maxv;
    var c := 0;
    while c < 3
      invariant 0 <= c <= 3
      invariant forall d :: 0 <= d < c ==> At(minv', d) == StdMin(At(minv, d), At(r, d))
      invariant forall d :: 0 <= d < c ==> At(maxv', d) == StdMax(At(maxv, d), At(r, d))
      invariant forall d :: c <= d < 3 ==> At(minv', d) == At(minv, d) && At(maxv', d) == At(maxv, d)
    {
      maxv' := With(maxv', c, StdMax(At(maxv', c), At(r, c)));
      minv' := With(minv', c, StdMin(At(minv', c), At(r, c)));
      c := c + 1;
    }
    assert At(minv', 0) == minv'.x && At(minv', 1) == minv'.y && At(minv', 2) == minv'.z;
    assert At(maxv', 0) == maxv'.x && At(maxv', 1) == maxv'.y && At(maxv', 2) == maxv'.z;
  }

  lemma FoldStep(start: Vec3, s: seq<Vec3>, n: nat)
    requires n < |s|
    ensures MinFold(start, s[..n + 1]) == VMin(MinFold(start, s[..n]), s[n])
    ensures MaxFold(start, s[..n + 1]) == VMax(MaxFold(start, s[..n]), s[n])
  {
    assert s[..n + 1][..n] == s[..n];
  }

  lemma CornerAt(b: Aabb, sinTheta: real, cosTheta: real, i: int, j: int, k: int)
    requires 0 <= i < 2 && 0 <= j < 2 && 0 <= k < 2
    ensures RotatedCorners(b, sinTheta, cosTheta)[4 * i + 2 * j + k] == RotateAboutY(sinTheta, cosTheta, Corner(b, i, j, k))
  {
    var n := 4 * i + 2 * j + k;
    assert n / 4 == i && (n / 2) % 2 == j && n % 2 == k;
  }

  /** The body of the three corner loops of the `rotate_y` constructor: select
      corner (i, j, k), rotate it, and fold it into `minv`/`maxv`. */
  method AbsorbCorner(b: Aabb, sinTheta: real, cosTheta: real, i: int, j: int, k: int, minv: Vec3, maxv: Vec3)
    returns (minv': Vec3, maxv': Vec3)
    requires 0 <= i < 2 && 0 <= j < 2 && 0 <= k < 2
    requires minv == MinFold(MinStart, RotatedCorners(b, sinTheta, cosTheta)[..4 * i + 2 * j + k])
    requires maxv == MaxFold(MaxStart, RotatedCorners(b, sinTheta, cosTheta)[..4 * i + 2 * j + k])
    ensures minv' == MinFold(MinStart, RotatedCorners(b, sinTheta, cosTheta)[..4 * i + 2 * j + k + 1])
    ensures maxv' == MaxFold(MaxStart, RotatedCorners(b, sinTheta, cosTheta)[..4 * i + 2 * j + k + 1])
  {
    var r := RotateAboutY(sinTheta, cosTheta, Corner(b, i, j, k));
    ghost var corners, n := RotatedCorners(b, sinTheta, cosTheta), 4 * i + 2 * j + k;
    CornerAt(b, sinTheta, cosTheta, i, j, k);
    FoldStep(MinStart, corners, n);
    FoldStep(MaxStart, corners, n);
    minv', maxv' := IncludeCorner(minv, maxv, r);
  }

  /** The corner loops of the `rotate_y` constructor: `minv`/`maxv` start at
      the float extremes and absorb the eight rotated corners in turn. */
  method RotatedExtent(b: Aabb, sinTheta: real, cosTheta: real) returns (minv: Vec3, maxv: Vec3)
    ensures minv == MinFold(MinStart, RotatedCorners(b, sinTheta, cosTheta))
    ensures maxv == MaxFold(MaxStart, RotatedCorners(b, sinTheta, cosTheta))
  {
    ghost var corners := RotatedCorners(b, sinTheta, cosTheta);
    minv := MinStart;
    maxv := MaxStart;
    var i := 0;
    while i < 2
      invariant 0 <= i <= 2
      invariant minv == MinFold(MinStart, corners[..4 * i])
      invariant maxv == MaxFold(MaxStart, corners[..4 * i])
    {
      var j := 0;
      while j < 2
        invariant 0 <= j <= 2
        invariant minv == MinFold(MinStart, corners[..4 * i + 2 * j])
        invariant maxv == MaxFold(MaxStart, corners[..4 * i + 2 * j])
      {
        var k := 0;
        while k < 2
          invariant 0 <= k <= 2
          invariant minv == MinFold(MinStart, corners[..4 * i + 2 * j + k])
          invariant maxv == MaxFold(MaxStart, corners[..4 * i + 2 * j + k])
        {
          minv, maxv := AbsorbCorner(b, sinTheta, cosTheta, i, j, k, minv, maxv);
          k := k + 1;
        }
        j := j + 1;
      }
      i := i + 1;
    }
    assert corners[..8] == corners;
  }

  /** The fold is below the start and below every element. */
  lemma {:induction false} MinFoldIsLower(start: Vec3, s: seq<Vec3>)
    ensures Below(MinFold(start, s), start)
    ensures forall n :: 0 <= n < |s| ==> Below(MinFold(start, s), s[n])
  {
    if |s| > 0 {
      var init := s[..|s| - 1];
      MinFoldIsLower(start, init);
      assert forall n :: 0 <= n < |init| ==> init[n] == s[n];
    }
  }

  /** The fold is above the start and above every element. */
  lemma {:induction false} MaxFoldIsUpper(start: Vec3, s: seq<Vec3>)
    ensures Below(start, MaxFold(start, s))
    ensures forall n :: 0 <= n < |s| ==> Below(s[n], MaxFold(start, s))
  {
    if |s| > 0 {
      var init := s[..|s| - 1];
      MaxFoldIsUpper(start, init);
      assert forall n :: 0 <= n < |init| ==> init[n] == s[n];
    }
  }

  lemma {:induction false} MinFoldYBound(start: Vec3, s: seq<Vec3>, lo: real)
    requires lo <= start.y
    requires forall n :: 0 <= n < |s| ==> lo <= s[n].y
    ensures lo <= MinFold(start, s).y
  {
    if |s| > 0 {
      MinFoldYBound(start, s[..|s| - 1], lo);
    }
  }

  /** When some element attains the least y and the start is no lower, the
      fold's y is exactly that value. */
  lemma {:induction false} MinFoldY(start: Vec3, s: seq<Vec3>, lo: real, m: nat)
    requires m < |s| && s[m].y == lo && lo <= start.y
    requires forall n :: 0 <= n < |s| ==> lo <= s[n].y
    ensures MinFold(start, s).y == lo
  {
    if m == |s| - 1 {
      MinFoldYBound(start, s[..|s| - 1], lo);
    } else {
      MinFoldY(start, s[..|s| - 1], lo, m);
    }
  }

  lemma {:induction false} MaxFoldYBound(start: Vec3, s: seq<Vec3>, hi: real)
    requires start.y <= hi
    requires forall n :: 0 <= n < |s| ==> s[n].y <= hi
    ensures MaxFold(start, s).y <= hi
  {
    if |s| > 0 {
      MaxFoldYBound(start, s[..|s| - 1], hi);
    }
  }

  lemma {:induction false} MaxFoldY(start: Vec3, s: seq<Vec3>, hi: real, m: nat)
    requires m < |s| && s[m].y == hi && start.y <= hi
    requires forall n :: 0 <= n < |s| ==> s[n].y <= hi
    ensures MaxFold(start, s).y == hi
  {
    if m == |s| - 1 {
      MaxFoldYBound(start, s[..|s| - 1], hi);
    } else {
      MaxFoldY(start, s[..|s| - 1], hi, m);
    }
  }

  /** The rotated box contains every rotated corner. */
  lemma RotatedExtentContainsCorners(b: Aabb, sinTheta: real, cosTheta: real)
    ensures var corners := RotatedCorners(b, sinTheta, cosTheta);
      forall n :: 0 <= n < 8 ==>
        Below(MinFold(MinStart, corners), corners[n]) && Below(corners[n], MaxFold(MaxStart, corners))
  {
    var corners := RotatedCorners(b, sinTheta, cosTheta);
    MinFoldIsLower(MinStart, corners);
    MaxFoldIsUpper(MaxStart, corners);
  }

  /** Rotation about y leaves the y extent of a well-formed box within float
      range exactly as it was. */
  lemma RotatedExtentKeepsY(b: Aabb, sinTheta: real, cosTheta: real)
    requires -FltMax <= b.min.y <= b.max.y <= FltMax
    ensures MinFold(MinStart, RotatedCorners(b, sinTheta, cosTheta)).y == b.min.y
    ensures MaxFold(MaxStart, RotatedCorners(b, sinTheta, cosTheta)).y == b.max.y
  {
    var corners := RotatedCorners(b, sinTheta, cosTheta);
    forall n | 0 <= n < 8
      ensures b.min.y <= corners[n].y <= b.max.y
    {
      var j := (n / 2) % 2;
      assert j == 0 || j == 1;
      assert corners[n].y == j as real * b.max.y + (1 - j) as real * b.min.y;
    }
    CornerAt(b, sinTheta, cosTheta, 0, 0, 0);
    CornerAt(b, sinTheta, cosTheta, 1, 1, 1);
    MinFoldY(MinStart, corners, b.min.y, 0);
    MaxFoldY(MaxStart, corners, b.max.y, 7);
  }

  /** The state the `rotate_y` constructor leaves behind that the model covers:
      the sine and cosine it was built with and the box it computed once. */
  datatype RotateY = RotateY(sinTheta: real, cosTheta: real, bbox: Option<Aabb>)

  /** The `rotate_y` constructor, with `sin`/`cos` of the angle given: it asks the
      child for its box on [0, 1] and, if there is one, replaces it by the
      extent of its rotated corners. */
  method NewRotateY(child: BoxFn, sinTheta: real, cosTheta: real) returns (rot: RotateY)
    ensures rot.sinTheta == sinTheta && rot.cosTheta == cosTheta
    ensures rot.bbox.Some? <==> child(0.0, 1.0).Some?
    ensures rot.bbox.Some? ==>
      var corners := RotatedCorners(child(0.0, 1.0).value, sinTheta, cosTheta);
      rot.bbox.value == Aabb(MinFold(MinStart, corners), MaxFold(MaxStart, corners))
  {
    var hasbox := child(0.0, 1.0);
    if hasbox.Some? {
      var minv, maxv := RotatedExtent(hasbox.value, sinTheta, cosTheta);
      rot := RotateY(sinTheta, cosTheta, Some(Aabb(minv, maxv)));
    } else {
      rot := RotateY(sinTheta, cosTheta, None);
    }
  }

  /** `rotate_y::bounding_box`: the box and flag computed once by the constructor,
      whatever the time interval. */
  function RotateYBoundingBox(rot: RotateY, t0: real, t1: real): (b: Option<Aabb>)
    ensures b == rot.bbox
  {
    rot.bbox
  }
}
