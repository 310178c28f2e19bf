/** Axis-aligned bounding boxes and their union, `surrounding_box`.
    The slab test `aabb::hit` is not part of this model. */
module Aabbs {
  import opened Vec
  import opened Common

  /** `aabb(a, b)` stores its corners unchanged; `min()` and `max()` read them back. */
  datatype Aabb = Aabb(min: Vec3, max: Vec3)

  /** Componentwise `a <= b`. */
  predicate Below(a: Vec3, b: Vec3) {
    a.x <= b.x && a.y <= b.y && a.z <= b.z
  }

  /** Every axis has `min <= max`. */
  predicate WellFormed(b: Aabb) {
    Below(b.min, b.max)
  }

  /** `outer` reaches at least as far as `inner` on every side (no well-formedness assumed). */
  predicate Contains(outer: Aabb, inner: Aabb) {
    Below(outer.min, inner.min) && Below(inner.max, outer.max)
  }

  /** `surrounding_box`: componentwise `ffmin` of the mins and `ffmax` of the maxes. */
  function SurroundingBox(a0: Aabb, a1: Aabb): (r: Aabb)
    ensures Contains(r, a0) && Contains(r, a1)
  {
    var small := Vec3(FfMin(a0.min.x, a1.min.x), FfMin(a0.min.y, a1.min.y), FfMin(a0.min.z, a1.min.z));
    var big := Vec3(FfMax(a0.max.x, a1.max.x), FfMax(a0.max.y, a1.max.y), FfMax(a0.max.z, a1.max.z));
    Aabb(small, big)
  }

  /** The union is the smallest box containing both inputs. */
  lemma SurroundingBoxIsLeast(a0: Aabb, a1: Aabb, c: Aabb)
    requires Contains(c, a0) && Contains(c, a1)
    ensures Contains(c, SurroundingBox(a0, a1))
  {
  }

  lemma SurroundingBoxCommutes(a0: Aabb, a1: Aabb)
    ensures SurroundingBox(a0, a1) == SurroundingBox(a1, a0)
  {
  }

  lemma SurroundingBoxAssociates(a0: Aabb, a1: Aabb, a2: Aabb)
    ensures SurroundingBox(SurroundingBox(a0, a1), a2) == SurroundingBox(a0, SurroundingBox(a1, a2))
  {
  }

  lemma SurroundingBoxIdempotent(a: Aabb)
    ensures SurroundingBox(a, a) == a
  {
  }

  lemma SurroundingBoxWellFormed(a0: Aabb, a1: Aabb)
    requires WellFormed(a0) && WellFormed(a1)
    ensures WellFormed(SurroundingBox(a0, a1))
  {
  }

  /** Containment is transitive, so a box containing a union contains both inputs. */
  lemma ContainsTransitive(a: Aabb, b: Aabb, c: Aabb)
    requires Contains(a, b) && Contains(b, c)
    ensures Contains(a, c)
  {
  }
}
