/** The path integrator `color` and the pixel loop of `main`. The world and
    the materials are given as functions: `world` is `hitable::hit`, and
    `scatter(depth, r, rec)` is `rec.mat_ptr->scatter` with the random draws
    made at that depth. `unit_vector`, `sqrt` and the camera's sampled
    colours are given as well. */
module Render {
  import opened Wrappers
  import opened Vec
  import opened Common
  import opened Hitables
  import opened Materials

  /** The interval `color` queries the world on. */
  const TMin: real := 0.001
  const TMax: real := 1000000000.0

  /** `color` scatters only while `depth < 50`. */
  const MaxDepth: nat := 50

  type ScatterFn<!M> = (nat, Ray, HitRecord<M>) -> Option<Scattered>

  /** The sky: white blended into (0.5, 0.7, 1.0) by `t = 0.5 * (y + 1)` of
      the unit direction. */
  function Background(unit: Vec3): Vec3
  {
    var t := 0.5 * (unit.y + 1.0);
    Add(Scale(1.0 - t, One), Scale(t, Vec3(0.5, 0.7, 1.0)))
  }

  /** `color(r, world, depth)`: a hit scatters while depth < 50 and returns
      the attenuation times the colour of the scattered ray; a hit that does
      not scatter is black; a miss is the sky. */
  function Color<M>(world: HitFn<M>, scatter: ScatterFn<M>, unit: Vec3 -> Vec3, r: Ray, depth: nat): Vec3
    decreases MaxDepth - depth
  {
    match world(r, TMin, TMax)
    case None => Background(unit(r.direction))
    case Some(rec) =>
      if depth < MaxDepth then
        match scatter(depth, r, rec)
        case Some(s) => Mul(s.attenuation, Color(world, scatter, unit, s.ray, depth + 1))
        case None => Zero
      else Zero
  }

  /** How a light path ends: it leaves the scene under the sky, or a hit
      absorbs it. */
  datatype End = Escaped(sky: Vec3) | Absorbed

  /** A light path: the attenuations met in order, how it ends, and how many
      times it queries the world and calls `scatter`. */
  datatype Path = Path(attenuations: seq<Vec3>, end: End, queries: nat, scatters: nat)

  /** The path `color` follows from `r` at `depth`. */
  function Trace<M>(world: HitFn<M>, scatter: ScatterFn<M>, unit: Vec3 -> Vec3, r: Ray, depth: nat): (p: Path)
    decreases MaxDepth - depth
  {
    match world(r, TMin, TMax)
    case None => Path([], Escaped(Background(unit(r.direction))), 1, 0)
    case Some(rec) =>
      if depth < MaxDepth then
        match scatter(depth, r, rec)
        case Some(s) =>
          var rest := Trace(world, scatter, unit, s.ray, depth + 1);
          Path([s.attenuation] + rest.attenuations, rest.end, rest.queries + 1, rest.scatters + 1)
        case None => Path([], Absorbed, 1, 1)
      else Path([], Absorbed, 1, 0)
  }

  /** The componentwise product of a sequence of colours. */
  function Product(s: seq<Vec3>): Vec3
  {
    if |s| == 0 then One else Mul(s[0], Product(s[1..]))
  }

  // ---------------------------------------------------------------- properties

  /** A path from `depth` queries the world once per attenuation plus once,
      and calls `scatter` at most `50 - depth` times: from a camera ray, at
      most 51 queries and 50 scatter calls. */
  lemma {:induction false} TraceBounds<M>(world: HitFn<M>, scatter: ScatterFn<M>, unit: Vec3 -> Vec3, r: Ray, depth: nat)
    requires depth <= MaxDepth
    ensures var p := Trace(world, scatter, unit, r, depth);
      && p.queries == |p.attenuations| + 1
      && |p.attenuations| <= p.scatters <= MaxDepth - depth
      && p.queries <= MaxDepth - depth + 1
    decreases MaxDepth - depth
  {
    match world(r, TMin, TMax)
    case None =>
    case Some(rec) =>
      if depth < MaxDepth {
        match scatter(depth, r, rec)
        case Some(s) => TraceBounds(world, scatter, unit, s.ray, depth + 1);
        case None =>
      }
  }

  lemma MulAssociates(a: Vec3, b: Vec3, c: Vec3)
    ensures Mul(a, Mul(b, c)) == Mul(Mul(a, b), c)
  {
    assert a.x * (b.x * c.x) == (a.x * b.x) * c.x;
    assert a.y * (b.y * c.y) == (a.y * b.y) * c.y;
    assert a.z * (b.z * c.z) == (a.z * b.z) * c.z;
  }

  /** `color` is the product of the attenuations along the path times the
      sky where the path escapes, and black where a hit absorbs it; no
      emission is ever added. */
  lemma {:induction false} ColorIsProduct<M>(world: HitFn<M>, scatter: ScatterFn<M>, unit: Vec3 -> Vec3, r: Ray, depth: nat)
    ensures var p := Trace(world, scatter, unit, r, depth);
      Color(world, scatter, unit, r, depth) ==
        match p.end
        case Escaped(sky) => Mul(Product(p.attenuations), sky)
        case Absorbed => Zero
    decreases MaxDepth - depth
  {
    match world(r, TMin, TMax)
    case None =>
      var sky := Background(unit(r.direction));
      assert Mul(One, sky) == sky;
    case Some(rec) =>
      if depth < MaxDepth {
        match scatter(depth, r, rec)
        case Some(s) =>
          ColorIsProduct(world, scatter, unit, s.ray, depth + 1);
          var rest := Trace(world, scatter, unit, s.ray, depth + 1);
          var atts := [s.attenuation] + rest.attenuations;
          assert atts[1..] == rest.attenuations;
          if rest.end.Escaped? {
            MulAssociates(s.attenuation, Product(rest.attenuations), rest.end.sky);
          } else {
            assert Mul(s.attenuation, Zero) == Zero;
          }
        case None =>
      }
  }

  /** `color` looks at the world only on the interval (0.001, 1e9): two
      worlds that agree there give the same colour. */
  lemma {:induction false} ColorQueriesInterval<M>(w1: HitFn<M>, w2: HitFn<M>, scatter: ScatterFn<M>, unit: Vec3 -> Vec3, r: Ray, depth: nat)
    requires forall q :: w1(q, TMin, TMax) == w2(q, TMin, TMax)
    ensures Color(w1, scatter, unit, r, depth) == Color(w2, scatter, unit, r, depth)
    decreases MaxDepth - depth
  {
    match w1(r, TMin, TMax)
    case None =>
    case Some(rec) =>
      if depth < MaxDepth {
        match scatter(depth, r, rec)
        case Some(s) => ColorQueriesInterval(w1, w2, scatter, unit, s.ray, depth + 1);
        case None =>
      }
  }

  predicate InUnitCube(c: Vec3)
  {
    0.0 <= c.x <= 1.0 && 0.0 <= c.y <= 1.0 && 0.0 <= c.z <= 1.0
  }

  /** For a unit direction the sky lies between white and (0.5, 0.7, 1.0):
      white straight down, (0.5, 0.7, 1.0) straight up. */
  lemma BackgroundRange(unit: Vec3)
    requires -1.0 <= unit.y <= 1.0
    ensures var c := Background(unit);
      0.5 <= c.x <= 1.0 && 0.7 <= c.y <= 1.0 && c.z == 1.0 && InUnitCube(c)
    ensures unit.y == -1.0 ==> Background(unit) == One
    ensures unit.y == 1.0 ==> Background(unit) == Vec3(0.5, 0.7, 1.0)
  {
  }

  /** With attenuations in [0, 1] and unit directions, every colour lies in
      the unit cube. */
  lemma {:induction false} ColorInUnitCube<M>(world: HitFn<M>, scatter: ScatterFn<M>, unit: Vec3 -> Vec3, r: Ray, depth: nat)
    requires forall d, q, rec :: scatter(d, q, rec).Some? ==> InUnitCube(scatter(d, q, rec).value.attenuation)
    requires forall v :: -1.0 <= unit(v).y <= 1.0
    ensures InUnitCube(Color(world, scatter, unit, r, depth))
    decreases MaxDepth - depth
  {
    match world(r, TMin, TMax)
    case None =>
      BackgroundRange(unit(r.direction));
    case Some(rec) =>
      if depth < MaxDepth {
        match scatter(depth, r, rec)
        case Some(s) =>
          ColorInUnitCube(world, scatter, unit, s.ray, depth + 1);
          var a, c := s.attenuation, Color(world, scatter, unit, s.ray, depth + 1);
          UnitProduct(a.x, c.x);
          UnitProduct(a.y, c.y);
          UnitProduct(a.z, c.z);
        case None =>
      }
  }

  lemma UnitProduct(a: real, b: real)
    requires 0.0 <= a <= 1.0 && 0.0 <= b <= 1.0
    ensures 0.0 <= a * b <= 1.0
  {
    NonNegativeProduct(a, b);
    NonNegativeProduct(1.0 - a, b);
    assert a * b == b - (1.0 - a) * b;
  }

  lemma NonNegativeProduct(a: real, b: real)
    requires 0.0 <= a && 0.0 <= b
    ensures 0.0 <= a * b
  {
  }

  // ---------------------------------------------------------------- pixel loop

  /** A pixel as written to the image: three integers. */
  datatype Rgb = Rgb(r: int, g: int, b: int)

  /** The sum of the first `k` samples of pixel (i, j). */
  function SampleSum(sample: (int, int, int) -> Vec3, i: int, j: int, k: nat): Vec3
  {
    if k == 0 then Zero else Add(SampleSum(sample, i, j, k - 1), sample(i, j, k - 1))
  }

  /** The mean of `ns` samples, its per-channel square root, scaled by 255
      and truncated. */
  function Pixel(sample: (int, int, int) -> Vec3, sqrt: real -> real, ns: nat, i: int, j: int): Rgb
    requires ns >= 1
  {
    var sum := SampleSum(sample, i, j, ns);
    var mean := Vec3(sum.x / ns as real, sum.y / ns as real, sum.z / ns as real);
    var gamma := Vec3(sqrt(mean.x), sqrt(mean.y), sqrt(mean.z));
    Rgb(Trunc(255.0 * gamma.x), Trunc(255.0 * gamma.y), Trunc(255.0 * gamma.z))
  }

  /** Row `j`: columns 0 to nx - 1. */
  function Row(sample: (int, int, int) -> Vec3, sqrt: real -> real, nx: nat, ns: nat, j: int): (row: seq<Rgb>)
    requires ns >= 1
    ensures |row| == nx
  {
    seq(nx, i requires 0 <= i < nx => Pixel(sample, sqrt, ns, i, j))
  }

  /** The first `m` rows written, from the top row `ny - 1` downward. */
  function Rows(sample: (int, int, int) -> Vec3, sqrt: real -> real, nx: nat, ny: nat, ns: nat, m: nat): (image: seq<Rgb>)
    requires ns >= 1 && m <= ny
    ensures |image| == m * nx
  {
    if m == 0 then [] else Rows(sample, sqrt, nx, ny, ns, m - 1) + Row(sample, sqrt, nx, ns, ny - m)
  }

  /** The body of the column loop: `ns` samples summed, divided by `ns`,
      square-rooted per channel, scaled by 255 and truncated. */
  method ShadePixel(sample: (int, int, int) -> Vec3, sqrt: real -> real, ns: nat, i: int, j: int) returns (p: Rgb)
    requires ns >= 1
    ensures p == Pixel(sample, sqrt, ns, i, j)
  {
    var totalCol := Zero;
    for k := 0 to ns
      invariant totalCol == SampleSum(sample, i, j, k)
    {
      totalCol := Add(totalCol, sample(i, j, k));
    }
    totalCol := Vec3(totalCol.x / ns as real, totalCol.y / ns as real, totalCol.z / ns as real);
    totalCol := Vec3(sqrt(totalCol.x), sqrt(totalCol.y), sqrt(totalCol.z));
    p := Rgb(Trunc(255.0 * totalCol.x), Trunc(255.0 * totalCol.y), Trunc(255.0 * totalCol.z));
  }

  /** The pixel loop of `main`: rows from `ny - 1` down to 0, columns from 0
      to `nx - 1`; `processed` counts the rays, `ns * nx` per row. */
  method RenderImage(nx: nat, ny: nat, ns: nat, sample: (int, int, int) -> Vec3, sqrt: real -> real)
      returns (image: seq<Rgb>, processed: int)
    requires ns >= 1
    ensures image == Rows(sample, sqrt, nx, ny, ns, ny)
    ensures |image| == nx * ny
    ensures processed == nx * ny * ns
  {
    image, processed := [], 0;
    ghost var perRow := ns * nx;
    ghost var done: nat := 0;
    var j := ny - 1;
    while j >= 0
      invariant -1 <= j < ny && done == ny - 1 - j
      invariant image == Rows(sample, sqrt, nx, ny, ns, done)
      invariant processed == done * perRow
      decreases j
    {
      var row := RenderRow(sample, sqrt, nx, ns, j);
      image := image + row;
      processed := processed + ns * nx;
      MulStep(done, perRow);
      done := done + 1;
      j := j - 1;
    }
    RayCount(nx, ny, ns);
  }

  /** One row of the pixel loop: columns 0 to `nx - 1` of row `j`. */
  method RenderRow(sample: (int, int, int) -> Vec3, sqrt: real -> real, nx: nat, ns: nat, j: int)
      returns (row: seq<Rgb>)
    requires ns >= 1
    ensures row == Row(sample, sqrt, nx, ns, j)
  {
    row := [];
    for i := 0 to nx
      invariant row == Row(sample, sqrt, nx, ns, j)[..i]
    {
      var p := ShadePixel(sample, sqrt, ns, i, j);
      row := row + [p];
    }
  }

  lemma MulStep(m: nat, a: int)
    ensures (m + 1) * a == m * a + a
  {
  }

  lemma RayCount(nx: nat, ny: nat, ns: nat)
    ensures ny * (ns * nx) == nx * ny * ns && ny * nx == nx * ny
  {
  }

  /** Pixel (i, j) is the `(ny - 1 - j) * nx + i`-th triple written. */
  lemma {:induction false} RowsIndex(sample: (int, int, int) -> Vec3, sqrt: real -> real, nx: nat, ny: nat, ns: nat, m: nat, i: nat, j: nat)
    requires ns >= 1 && m <= ny && i < nx && ny - m <= j < ny
    ensures (ny - 1 - j) * nx + i < |Rows(sample, sqrt, nx, ny, ns, m)|
    ensures Rows(sample, sqrt, nx, ny, ns, m)[(ny - 1 - j) * nx + i] == Pixel(sample, sqrt, ns, i, j)
    decreases m
  {
    var prev := Rows(sample, sqrt, nx, ny, ns, m - 1);
    if j == ny - m {
      assert |prev| == (ny - 1 - j) * nx;
    } else {
      RowsIndex(sample, sqrt, nx, ny, ns, m - 1, i, j);
    }
  }

  /** Samples in the unit cube and a square root that keeps [0, 1] give
      pixel values in [0, 255]. */
  lemma PixelInRange(sample: (int, int, int) -> Vec3, sqrt: real -> real, ns: nat, i: int, j: int)
    requires ns >= 1
    requires forall k :: 0 <= k < ns ==> InUnitCube(sample(i, j, k))
    requires forall x :: 0.0 <= x <= 1.0 ==> 0.0 <= sqrt(x) <= 1.0
    ensures var p := Pixel(sample, sqrt, ns, i, j);
      0 <= p.r <= 255 && 0 <= p.g <= 255 && 0 <= p.b <= 255
  {
    SampleSumBounds(sample, i, j, ns);
    var sum := SampleSum(sample, i, j, ns);
    MeanInUnit(sum.x, ns);
    MeanInUnit(sum.y, ns);
    MeanInUnit(sum.z, ns);
  }

  lemma {:induction false} SampleSumBounds(sample: (int, int, int) -> Vec3, i: int, j: int, k: nat)
    requires forall q :: 0 <= q < k ==> InUnitCube(sample(i, j, q))
    ensures var s := SampleSum(sample, i, j, k);
      0.0 <= s.x <= k as real && 0.0 <= s.y <= k as real && 0.0 <= s.z <= k as real
  {
    if k > 0 {
      SampleSumBounds(sample, i, j, k - 1);
    }
  }

  lemma MeanInUnit(s: real, n: nat)
    requires n >= 1 && 0.0 <= s <= n as real
    ensures 0.0 <= s / n as real <= 1.0
  {
  }
}
