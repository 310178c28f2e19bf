/** `ffmin`/`ffmax` and the two rejection samplers of the renderer's common header.
    `rand_float` is an oracle: a sampler reads its values from a finite sequence. */
module Common {
  import opened Wrappers
  import opened Vec

  /** `ffmin`: `a < b ? a : b`. */
  function FfMin(a: real, b: real): (r: real)
    ensures r == a || r == b
    ensures r <= a && r <= b
  {
    if a < b then a else b
  }

  /** `ffmax`: `a > b ? a : b`. */
  function FfMax(a: real, b: real): (r: real)
    ensures r == a || r == b
    ensures r >= a && r >= b
  {
    if a > b then a else b
  }

  /** A value of `rand_float`, which is documented to lie in [0, 1). */
  type Draw = r: real | 0.0 <= r < 1.0

  /** A vector of squared length below 1 has every component in (-1, 1). */
  lemma InsideUnitBall(v: Vec3)
    requires Norm(v) < 1.0
    ensures -1.0 < v.x < 1.0 && -1.0 < v.y < 1.0 && -1.0 < v.z < 1.0
  {
    assert Norm(v) == v.x * v.x + v.y * v.y + v.z * v.z;
    assert v.x * v.x >= 0.0 && v.y * v.y >= 0.0 && v.z * v.z >= 0.0;
    assert v.x * v.x < 1.0 && v.y * v.y < 1.0 && v.z * v.z < 1.0;
  }

  /** One pass of the body of `random_in_unit_sphere`. The y component subtracts
      `0/5`, an integer division whose value is 0, so y starts in [0, 2). */
  function SphereCandidate(a: Draw, b: Draw, c: Draw): (p: Vec3)
    ensures -1.0 <= p.x < 1.0 && 0.0 <= p.y < 2.0 && -1.0 <= p.z < 1.0
  {
    Scale(2.0, Vec3(a - 0.5, b - (0 / 5) as real, c - 0.5))
  }

  /** What `random_in_unit_sphere` returns when `rand_float` yields `draws` in order:
      the first candidate whose length is below 1 (the exit test `length() >= 1`
      is taken on the squared length, which agrees for non-negative reals), or
      None when the draws run out before a candidate is accepted. */
  function SphereSample(draws: seq<Draw>): (o: Option<Vec3>)
    ensures o.Some? ==> Norm(o.value) < 1.0
    ensures o.Some? ==> -1.0 < o.value.x < 1.0 && 0.0 <= o.value.y < 1.0 && -1.0 < o.value.z < 1.0
    decreases |draws|
  {
    if |draws| < 3 then None
    else
      var p := SphereCandidate(draws[0], draws[1], draws[2]);
      if Norm(p) >= 1.0 then SphereSample(draws[3..])
      else
        InsideUnitBall(p);
        Some(p)
  }

  /** `random_in_unit_sphere`: the do-while loop, reading three draws per candidate. */
  method RandomInUnitSphere(draws: seq<Draw>) returns (p: Option<Vec3>)
    ensures p == SphereSample(draws)
  {
    var i := 0;
    while i + 3 <= |draws|
      invariant 0 <= i <= |draws|
      invariant SphereSample(draws[i..]) == SphereSample(draws)
      decreases |draws| - i
    {
      var candidate := SphereCandidate(draws[i], draws[i + 1], draws[i + 2]);
      if Norm(candidate) < 1.0 {
        return Some(candidate);
      }
      assert draws[i..][3..] == draws[i + 3..];
      i := i + 3;
    }
    return None;
  }

  /** One pass of the body of `random_in_unit_disk`. */
  function DiskCandidate(a: Draw, b: Draw): (p: Vec3)
    ensures -1.0 <= p.x < 1.0 && -1.0 <= p.y < 1.0 && p.z == 0.0
  {
    Scale(2.0, Vec3(a - 0.5, b - 0.5, 0.0))
  }

  /** What `random_in_unit_disk` returns when `rand_float` yields `draws` in order. */
  function DiskSample(draws: seq<Draw>): (o: Option<Vec3>)
    ensures o.Some? ==> o.value.z == 0.0 && o.value.x * o.value.x + o.value.y * o.value.y < 1.0
    decreases |draws|
  {
    if |draws| < 2 then None
    else
      var p := DiskCandidate(draws[0], draws[1]);
      if Dot(p, p) >= 1.0 then DiskSample(draws[2..]) else Some(p)
  }

  /** `random_in_unit_disk`: the do-while loop, reading two draws per candidate. */
  method RandomInUnitDisk(draws: seq<Draw>) returns (p: Option<Vec3>)
    ensures p == DiskSample(draws)
  {
    var i := 0;
    while i + 2 <= |draws|
      invariant 0 <= i <= |draws|
      invariant DiskSample(draws[i..]) == DiskSample(draws)
      decreases |draws| - i
    {
      var candidate := DiskCandidate(draws[i], draws[i + 1]);
      if Dot(candidate, candidate) < 1.0 {
        return Some(candidate);
      }
      assert draws[i..][2..] == draws[i + 2..];
      i := i + 2;
    }
    return None;
  }

  /** The conversion of a float to `int`, which truncates toward zero. */
  function Trunc(r: real): (i: int)
    ensures 0.0 <= r ==> 0 <= i && i as real <= r < i as real + 1.0
    ensures r < 0.0 ==> i <= 0 && i as real - 1.0 < r <= i as real
  {
    if r >= 0.0 then r.Floor else -((-r).Floor)
  }
}
