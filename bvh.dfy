/** `bvh_node`: construction over a caller's array of primitives, which it
    sorts in place along a randomly drawn axis, and nearest-hit traversal. */
module Bvh {
  import opened Wrappers
  import opened Vec
  import opened Common
  import opened Aabbs
  import opened Hitables

  /** What the constructor needs from outside: each primitive's
      `bounding_box`, taken to succeed, the time interval it builds for, and
      the `rand_float` draws, one per node in construction order. */
  datatype Config<!P> = Config(primBox: (P, real, real) -> Aabb, t0: real, t1: real, rand: nat -> Draw)

  /** A child slot of a node: a primitive of the caller's array, or a node
      built by a recursive constructor call. */
  datatype Child<P> = Leaf(prim: P) | Inner(node: Node<P>)
  datatype Node<P> = Node(left: Child<P>, right: Child<P>, box: Aabb)

  /** `int(3 * rand_float())`: the axis a node sorts on. */
  function Axis(r: Draw): (axis: nat)
    ensures axis < 3
  {
    (3.0 * r).Floor
  }

  /** The key `compare_box_x`, `compare_box_y` and `compare_box_z` compare:
      the min corner's coordinate on the axis of the box queried at (0, 0). */
  function Key<P>(cfg: Config<P>, axis: nat, p: P): real
    requires axis < 3
  {
    At(cfg.primBox(p, 0.0, 0.0).min, axis)
  }

  /** `compare_box_x/y/z`: strict less-than on the key. */
  function Less<P>(cfg: Config<P>, axis: nat, p: P, q: P): (b: bool)
    requires axis < 3
  {
    Key(cfg, axis, p) < Key(cfg, axis, q)
  }

  /** The comparators are strict weak orders, the contract `std::sort`
      demands of its comparator. */
  lemma LessIsStrictWeakOrder<P>(cfg: Config<P>, axis: nat, p: P, q: P, o: P)
    requires axis < 3
    ensures !Less(cfg, axis, p, p)
    ensures Less(cfg, axis, p, q) && Less(cfg, axis, q, o) ==> Less(cfg, axis, p, o)
    ensures !Less(cfg, axis, p, q) && !Less(cfg, axis, q, p) && !Less(cfg, axis, q, o) && !Less(cfg, axis, o, q)
      ==> !Less(cfg, axis, p, o) && !Less(cfg, axis, o, p)
  {
  }

  ghost predicate SortedOn<P>(s: seq<P>, cfg: Config<P>, axis: nat)
    requires axis < 3
  {
    forall a, b :: 0 <= a < b < |s| ==> Key(cfg, axis, s[a]) <= Key(cfg, axis, s[b])
  }

  /** No element of the first `h` has a larger key than an element after them. */
  ghost predicate SplitOrdered<P>(s: seq<P>, h: nat, cfg: Config<P>, axis: nat)
    requires h <= |s| && axis < 3
  {
    forall i, j :: 0 <= i < h <= j < |s| ==> Key(cfg, axis, s[i]) <= Key(cfg, axis, s[j])
  }

  // ------------------------------------------------------------ sorting

  /** `b` is `a` permuted, with every position outside [lo, hi) unchanged. */
  ghost predicate Permuted<P>(a: seq<P>, b: seq<P>, lo: nat, hi: nat)
  {
    && |a| == |b|
    && multiset(a) == multiset(b)
    && (forall i :: 0 <= i < |a| && !(lo <= i < hi) ==> a[i] == b[i])
  }

  /** Under `Permuted`, the segment itself is permuted and the rest is equal. */
  lemma SegmentPermuted<P>(a: seq<P>, b: seq<P>, lo: nat, hi: nat)
    requires lo <= hi <= |a| && Permuted(a, b, lo, hi)
    ensures multiset(a[lo..hi]) == multiset(b[lo..hi])
    ensures a[..lo] == b[..lo] && a[hi..] == b[hi..]
  {
    assert a[..lo] == b[..lo];
    assert a[hi..] == b[hi..];
    assert a == a[..lo] + a[lo..hi] + a[hi..];
    assert b == b[..lo] + b[lo..hi] + b[hi..];
    var rest := multiset(a[..lo]) + multiset(a[hi..]);
    assert multiset(a) == multiset(a[lo..hi]) + rest;
    assert multiset(b) == multiset(b[lo..hi]) + rest;
    assert multiset(a[lo..hi]) == multiset(a) - rest;
  }

  method Swap<P>(l: array<P>, a: nat)
    requires 0 < a < l.Length
    modifies l
    ensures l[..] == old(l[..])[a - 1 := old(l[a])][a := old(l[a - 1])]
    ensures Permuted(old(l[..]), l[..], a - 1, a + 1)
  {
    l[a - 1], l[a] := l[a], l[a - 1];
  }

  /** The state of the insertion of `s[i]` into the sorted `s[lo..i]` while
      it sits at `j`: the segment without position `j` is sorted, nothing
      left of `j` is above anything right of it, and the moving element is
      below everything right of it. */
  ghost predicate Inserting<P>(s: seq<P>, lo: nat, j: nat, i: nat, cfg: Config<P>, axis: nat)
    requires lo <= j <= i < |s| && axis < 3
  {
    && (forall a, b :: lo <= a < b <= i && a != j && b != j ==> Key(cfg, axis, s[a]) <= Key(cfg, axis, s[b]))
    && (forall a, b :: lo <= a < j < b <= i ==> Key(cfg, axis, s[a]) <= Key(cfg, axis, s[b]))
    && (forall b :: j < b <= i ==> Key(cfg, axis, s[j]) <= Key(cfg, axis, s[b]))
  }

  lemma InsertingStart<P>(s: seq<P>, lo: nat, i: nat, cfg: Config<P>, axis: nat)
    requires lo <= i < |s| && axis < 3
    requires SortedOn(s[lo..i], cfg, axis)
    ensures Inserting(s, lo, i, i, cfg, axis)
  {
    forall a, b | lo <= a < b < i
      ensures Key(cfg, axis, s[a]) <= Key(cfg, axis, s[b])
    {
      assert s[lo..i][a - lo] == s[a] && s[lo..i][b - lo] == s[b];
    }
  }

  lemma InsertingSwap<P>(s: seq<P>, lo: nat, j: nat, i: nat, cfg: Config<P>, axis: nat)
    requires lo < j <= i < |s| && axis < 3
    requires Inserting(s, lo, j, i, cfg, axis)
    requires Key(cfg, axis, s[j]) < Key(cfg, axis, s[j - 1])
    ensures Inserting(s[j - 1 := s[j]][j := s[j - 1]], lo, j - 1, i, cfg, axis)
  {
  }

  lemma InsertingDone<P>(s: seq<P>, lo: nat, j: nat, i: nat, cfg: Config<P>, axis: nat)
    requires lo <= j <= i < |s| && axis < 3
    requires Inserting(s, lo, j, i, cfg, axis)
    requires j == lo || Key(cfg, axis, s[j - 1]) <= Key(cfg, axis, s[j])
    ensures SortedOn(s[lo..i + 1], cfg, axis)
  {
    forall a, b | lo <= a < b <= i
      ensures Key(cfg, axis, s[a]) <= Key(cfg, axis, s[b])
    {
      if b == j && a < j - 1 {
        assert Key(cfg, axis, s[a]) <= Key(cfg, axis, s[j - 1]);
      }
    }
  }

  /** One step of the sort: moves `l[i]` left past every element with a
      larger key, so that `l[lo..i+1]` is sorted. */
  method InsertLast<P>(l: array<P>, lo: nat, i: nat, cfg: Config<P>, axis: nat)
    requires lo <= i < l.Length && axis < 3
    requires SortedOn(l[..][lo..i], cfg, axis)
    modifies l
    ensures SortedOn(l[..][lo..i + 1], cfg, axis)
    ensures Permuted(old(l[..]), l[..], lo, i + 1)
  {
    InsertingStart(l[..], lo, i, cfg, axis);
    var j := i;
    while j > lo && Key(cfg, axis, l[j]) < Key(cfg, axis, l[j - 1])
      invariant lo <= j <= i
      invariant Inserting(l[..], lo, j, i, cfg, axis)
      invariant Permuted(old(l[..]), l[..], lo, i + 1)
    {
      InsertingSwap(l[..], lo, j, i, cfg, axis);
      Swap(l, j);
      j := j - 1;
    }
    InsertingDone(l[..], lo, j, i, cfg, axis);
  }

  /** `std::sort(l + lo, l + hi, compare_box_…)`: sorts the segment by the
      key, permuting it in place and leaving the rest of the array alone. */
  method SortByAxis<P>(l: array<P>, lo: nat, hi: nat, cfg: Config<P>, axis: nat)
    requires lo <= hi <= l.Length && axis < 3
    modifies l
    ensures SortedOn(l[..][lo..hi], cfg, axis)
    ensures Permuted(old(l[..]), l[..], lo, hi)
  {
    if lo == hi {
      return;
    }
    var i := lo + 1;
    while i < hi
      invariant lo < i <= hi
      invariant SortedOn(l[..][lo..i], cfg, axis)
      invariant Permuted(old(l[..]), l[..], lo, hi)
    {
      InsertLast(l, lo, i, cfg, axis);
      i := i + 1;
    }
  }

  // ------------------------------------------------------- construction

  /** The number of constructor calls, hence of draws, for a range of `n`. */
  function NodeCount(n: nat): (c: nat)
    requires n >= 1
    ensures c >= 1
  {
    if n <= 2 then 1 else 1 + NodeCount(n / 2) + NodeCount(n - n / 2)
  }

  lemma NodeCountSplits(n: nat)
    requires n > 2
    ensures NodeCount(n) == 1 + NodeCount(n / 2) + NodeCount(n - n / 2)
  {
  }

  /** The box a child reports for the construction interval. */
  function ChildBox<P>(c: Child<P>, cfg: Config<P>): Aabb
  {
    match c
    case Leaf(p) => cfg.primBox(p, cfg.t0, cfg.t1)
    case Inner(node) => node.box
  }

  /** `node` is what the constructor builds over the range whose final
      contents are `s`, drawing its axis from `rand(k)`:
      - one element: both children are it; two: left and right are the two
        in order; more: the children are nodes over the first half (rounded
        down) and the rest, drawing after this node and the left subtree;
      - its box is the union of its children's boxes;
      - when the axis is x or y, no element of the first half has a larger
        key than one of the second. */
  ghost predicate Built<P>(node: Node<P>, s: seq<P>, k: nat, cfg: Config<P>)
    decreases |s|
  {
    && |s| >= 1
    && node.box == SurroundingBox(ChildBox(node.left, cfg), ChildBox(node.right, cfg))
    && (Axis(cfg.rand(k)) < 2 ==> SplitOrdered(s, |s| / 2, cfg, Axis(cfg.rand(k))))
    && (if |s| == 1 then node.left == Leaf(s[0]) && node.right == Leaf(s[0])
        else if |s| == 2 then node.left == Leaf(s[0]) && node.right == Leaf(s[1])
        else
          && node.left.Inner? && node.right.Inner?
          && Built(node.left.node, s[..|s| / 2], k + 1, cfg)
          && Built(node.right.node, s[|s| / 2..], k + 1 + NodeCount(|s| / 2), cfg))
  }

  /** `Built`, unfolded one level less where it appears in a contract. */
  ghost predicate BuiltOver<P>(node: Node<P>, s: seq<P>, k: nat, cfg: Config<P>)
  {
    Built(node, s, k, cfg)
  }

  lemma SortedSplits<P>(s: seq<P>, h: nat, cfg: Config<P>, axis: nat)
    requires h <= |s| && axis < 3 && SortedOn(s, cfg, axis)
    ensures SplitOrdered(s, h, cfg, axis)
  {
  }

  /** Permuting within each half keeps the halves ordered. */
  lemma SplitOrderedKept<P>(s: seq<P>, t: seq<P>, h: nat, cfg: Config<P>, axis: nat)
    requires h <= |s| == |t| && axis < 3 && SplitOrdered(s, h, cfg, axis)
    requires multiset(t[..h]) == multiset(s[..h]) && multiset(t[h..]) == multiset(s[h..])
    ensures SplitOrdered(t, h, cfg, axis)
  {
    forall i, j | 0 <= i < h <= j < |t|
      ensures Key(cfg, axis, t[i]) <= Key(cfg, axis, t[j])
    {
      assert t[i] == t[..h][i] && t[j] == t[h..][j - h];
      assert t[i] in multiset(s[..h]) && t[j] in multiset(s[h..]);
      var a :| 0 <= a < h && s[..h][a] == t[i];
      var b :| 0 <= b < |s| - h && s[h..][b] == t[j];
      assert s[a] == t[i] && s[h + b] == t[j];
    }
  }

  /** The sort at the head of the constructor: x for axis 0, y for axis 1,
      and nothing for axis 2, because the branch meant for z retests
      `axis == 1` and is never taken. */
  method SortForAxis<P>(l: array<P>, lo: nat, n: nat, cfg: Config<P>, axis: nat)
    requires lo + n <= l.Length && axis < 3
    modifies l
    ensures axis < 2 ==> SortedOn(l[..][lo..lo + n], cfg, axis)
    ensures axis < 2 ==> SplitOrdered(l[..][lo..lo + n], n / 2, cfg, axis)
    ensures axis == 2 ==> l[..] == old(l[..])
    ensures Permuted(old(l[..]), l[..], lo, lo + n)
  {
    if axis == 0 {
      SortByAxis(l, lo, lo + n, cfg, 0);
    } else if axis == 1 {
      SortByAxis(l, lo, lo + n, cfg, 1);
    } else if axis == 1 {
      assert false;
    }
    if axis < 2 {
      SortedSplits(l[..][lo..lo + n], n / 2, cfg, axis);
    }
  }

  /** The `bvh_node` constructor over `l[lo..lo+n]`: it sorts the range
      along the drawn axis, then builds the children. The range ends up
      permuted, the rest of the array is untouched, and `next` is the index
      of the first draw it did not use. With `n == 0` the source recurses on
      the empty range forever, hence `n >= 1`. */
  method Build<P>(l: array<P>, lo: nat, n: nat, cfg: Config<P>, k: nat) returns (node: Node<P>, next: nat, ghost built: seq<P>)
    requires 1 <= n && lo + n <= l.Length
    modifies l
    ensures built == l[..][lo..lo + n] && BuiltOver(node, built, k, cfg)
    ensures Permuted(old(l[..]), l[..], lo, lo + n)
    ensures next == k + NodeCount(n)
    decreases n, 2
  {
    var axis := Axis(cfg.rand(k));
    SortForAxis(l, lo, n, cfg, axis);
    if n == 1 {
      var p := l[lo];
      node := Node(Leaf(p), Leaf(p), SurroundingBox(cfg.primBox(p, cfg.t0, cfg.t1), cfg.primBox(p, cfg.t0, cfg.t1)));
      next := k + 1;
      built := l[..][lo..lo + n];
      assert built == [p];
    } else if n == 2 {
      var p, q := l[lo], l[lo + 1];
      node := Node(Leaf(p), Leaf(q), SurroundingBox(cfg.primBox(p, cfg.t0, cfg.t1), cfg.primBox(q, cfg.t0, cfg.t1)));
      next := k + 1;
      built := l[..][lo..lo + n];
      assert built == [p, q];
    } else {
      node, next, built := BuildChildren(l, lo, n, cfg, k, axis);
    }
  }

  /** The `n > 2` branch of the constructor: two recursive constructions,
      on the first `n / 2` elements and on the rest. */
  method BuildChildren<P>(l: array<P>, lo: nat, n: nat, cfg: Config<P>, k: nat, axis: nat)
    returns (node: Node<P>, next: nat, ghost built: seq<P>)
    requires 2 < n && lo + n <= l.Length && axis == Axis(cfg.rand(k))
    requires axis < 2 ==> SplitOrdered(l[..][lo..lo + n], n / 2, cfg, axis)
    modifies l
    ensures built == l[..][lo..lo + n] && BuiltOver(node, built, k, cfg)
    ensures Permuted(old(l[..]), l[..], lo, lo + n)
    ensures next == k + NodeCount(n)
    decreases n, 1
  {
    var h := n / 2;
    ghost var before := l[..];
    var left, k1, leftBuilt := Build(l, lo, h, cfg, k + 1);
    node, next, built := BuildRight(l, lo, n, cfg, k, left, k1, before, leftBuilt);
  }

  /** The second recursive construction of the `n > 2` branch, on the
      elements after the first `n / 2`, and the node over both. */
  method BuildRight<P>(l: array<P>, lo: nat, n: nat, cfg: Config<P>, k: nat,
                       left: Node<P>, k1: nat, ghost before: seq<P>, ghost leftBuilt: seq<P>)
    returns (node: Node<P>, next: nat, ghost built: seq<P>)
    requires 2 < n && lo + n <= l.Length == |before|
    requires Axis(cfg.rand(k)) < 2 ==> SplitOrdered(before[lo..lo + n], n / 2, cfg, Axis(cfg.rand(k)))
    requires Permuted(before, l[..], lo, lo + n / 2)
    requires leftBuilt == l[..][lo..lo + n / 2] && BuiltOver(left, leftBuilt, k + 1, cfg)
    requires k1 == k + 1 + NodeCount(n / 2)
    modifies l
    ensures built == l[..][lo..lo + n] && BuiltOver(node, built, k, cfg)
    ensures Permuted(before, l[..], lo, lo + n)
    ensures next == k + NodeCount(n)
    decreases n, 0
  {
    var h := n / 2;
    ghost var mid := l[..];
    var right, k2, rightBuilt := Build(l, lo + h, n - h, cfg, k1);
    node := Node(Inner(left), Inner(right), SurroundingBox(left.box, right.box));
    next := k2;
    NodeCountSplits(n);
    built := l[..][lo..lo + n];
    ChildrenBuilt(before, mid, l[..], lo, h, n, node, k, k1, cfg, leftBuilt, rightBuilt, built);
  }

  /** What the `n > 2` branch establishes from its two recursive constructions. */
  lemma ChildrenBuilt<P>(before: seq<P>, mid: seq<P>, after: seq<P>, lo: nat, h: nat, n: nat,
                         node: Node<P>, k: nat, k1: nat, cfg: Config<P>,
                         leftBuilt: seq<P>, rightBuilt: seq<P>, built: seq<P>)
    requires 2 < n && h == n / 2 && lo + n <= |before|
    requires Permuted(before, mid, lo, lo + h) && Permuted(mid, after, lo + h, lo + h + (n - h))
    requires Axis(cfg.rand(k)) < 2 ==> SplitOrdered(before[lo..lo + n], h, cfg, Axis(cfg.rand(k)))
    requires node.left.Inner? && node.right.Inner?
    requires node.box == SurroundingBox(node.left.node.box, node.right.node.box)
    requires leftBuilt == mid[lo..lo + h] && BuiltOver(node.left.node, leftBuilt, k + 1, cfg)
    requires rightBuilt == after[lo + h..lo + h + (n - h)] && BuiltOver(node.right.node, rightBuilt, k1, cfg)
    requires k1 == k + 1 + NodeCount(h)
    requires built == after[lo..lo + n]
    ensures BuiltOver(node, built, k, cfg)
    ensures Permuted(before, after, lo, lo + n)
  {
    HalvesPermuted(before, mid, after, lo, h, n);
    if Axis(cfg.rand(k)) < 2 {
      SplitOrderedKept(before[lo..lo + n], built, h, cfg, Axis(cfg.rand(k)));
    }
    BuiltFromHalves(node, built, h, k, k1, cfg);
  }

  /** Permuting the first half and then the second permutes the whole range;
      the final range splits into the first half as it was after the first
      step and the second half as it is now. */
  lemma HalvesPermuted<P>(before: seq<P>, mid: seq<P>, after: seq<P>, lo: nat, h: nat, n: nat)
    requires h <= n && lo + n <= |before|
    requires Permuted(before, mid, lo, lo + h) && Permuted(mid, after, lo + h, lo + n)
    ensures Permuted(before, after, lo, lo + n)
    ensures after[lo..lo + n][..h] == mid[lo..lo + h]
    ensures after[lo..lo + n][h..] == after[lo + h..lo + h + (n - h)]
    ensures multiset(after[lo..lo + n][..h]) == multiset(before[lo..lo + n][..h])
    ensures multiset(after[lo..lo + n][h..]) == multiset(before[lo..lo + n][h..])
  {
    SegmentPermuted(mid, after, lo + h, lo + n);
    assert after[lo..lo + n][..h] == after[lo..lo + h];
    assert after[lo..lo + h] == mid[lo..lo + h];
    SegmentPermuted(before, mid, lo, lo + h);
    assert before[lo..lo + n][..h] == before[lo..lo + h];
    assert before[lo..lo + n][h..] == before[lo + h..lo + n];
    assert mid[lo + h..lo + n] == before[lo + h..lo + n];
  }

  /** A node whose children were built over the two halves of `s`, with the
      union box and, for x and y, ordered halves, is built over `s`. */
  lemma BuiltFromHalves<P>(node: Node<P>, s: seq<P>, h: nat, k: nat, k1: nat, cfg: Config<P>)
    requires |s| > 2 && h == |s| / 2
    requires node.left.Inner? && node.right.Inner?
    requires node.box == SurroundingBox(node.left.node.box, node.right.node.box)
    requires BuiltOver(node.left.node, s[..h], k + 1, cfg)
    requires BuiltOver(node.right.node, s[h..], k1, cfg)
    requires k1 == k + 1 + NodeCount(h)
    requires Axis(cfg.rand(k)) < 2 ==> SplitOrdered(s, h, cfg, Axis(cfg.rand(k)))
    ensures BuiltOver(node, s, k, cfg)
  {
  }

  // ---------------------------------------------------------- the built tree

  /** The primitives at the leaves, left to right; a one-element range
      contributes its primitive twice, once per child. */
  function Leaves<P>(node: Node<P>): seq<P>
    decreases node
  {
    ChildLeaves(node.left) + ChildLeaves(node.right)
  }

  function ChildLeaves<P>(c: Child<P>): seq<P>
    decreases c
  {
    match c
    case Leaf(p) => [p]
    case Inner(node) => Leaves(node)
  }

  /** The leaf sequence a construction over `s` produces: each range is
      split as the constructor splits it, and a one-element range stands
      for its element twice. */
  ghost function Spread<P>(s: seq<P>): seq<P>
    requires |s| >= 1
    decreases |s|
  {
    if |s| == 1 then [s[0], s[0]]
    else if |s| == 2 then s
    else Spread(s[..|s| / 2]) + Spread(s[|s| / 2..])
  }

  /** `Spread` holds exactly the elements of `s`, each kept in place. */
  lemma {:induction false} SpreadElements<P>(s: seq<P>)
    requires |s| >= 1
    ensures forall p :: p in Spread(s) <==> p in s
    decreases |s|
  {
    if |s| > 2 {
      var h := |s| / 2;
      SpreadElements(s[..h]);
      SpreadElements(s[h..]);
      assert s == s[..h] + s[h..];
    }
  }

  /** A tree built over `s` has the leaves that `s` spreads into: the
      final contents of the range, in order. */
  lemma {:induction false} BuiltLeaves<P>(node: Node<P>, s: seq<P>, k: nat, cfg: Config<P>)
    requires Built(node, s, k, cfg)
    ensures Leaves(node) == Spread(s)
    ensures forall p :: p in Leaves(node) <==> p in s
    decreases |s|
  {
    if |s| > 2 {
      BuiltLeaves(node.left.node, s[..|s| / 2], k + 1, cfg);
      BuiltLeaves(node.right.node, s[|s| / 2..], k + 1 + NodeCount(|s| / 2), cfg);
    }
    SpreadElements(s);
  }

  /** A built node's box contains the box, over the construction interval,
      of every primitive of its range. */
  lemma {:induction false} BuiltBoxContains<P>(node: Node<P>, s: seq<P>, k: nat, cfg: Config<P>)
    requires Built(node, s, k, cfg)
    ensures Contains(node.box, ChildBox(node.left, cfg)) && Contains(node.box, ChildBox(node.right, cfg))
    ensures forall p :: p in s ==> Contains(node.box, cfg.primBox(p, cfg.t0, cfg.t1))
    decreases |s|
  {
    if |s| > 2 {
      var h := |s| / 2;
      var left, right := node.left.node, node.right.node;
      BuiltBoxContains(left, s[..h], k + 1, cfg);
      BuiltBoxContains(right, s[h..], k + 1 + NodeCount(h), cfg);
      forall p | p in s
        ensures Contains(node.box, cfg.primBox(p, cfg.t0, cfg.t1))
      {
        assert s == s[..h] + s[h..];
        if p in s[..h] {
          ContainsTransitive(node.box, left.box, cfg.primBox(p, cfg.t0, cfg.t1));
        } else {
          ContainsTransitive(node.box, right.box, cfg.primBox(p, cfg.t0, cfg.t1));
        }
      }
    }
  }

  // ---------------------------------------------------------------- queries

  /** `bvh_node::bounding_box`: succeeds with the box stored at construction,
      whatever the interval asked for. */
  function NodeBoundingBox<P>(node: Node<P>, t0: real, t1: real): (b: Option<Aabb>)
    ensures b.Some? && b.value == node.box
  {
    Some(node.box)
  }

  /** The selection at the end of `bvh_node::hit` between the children's
      results: the smaller `t`, the right one on a tie. */
  function Closer<M>(left: Option<HitRecord<M>>, right: Option<HitRecord<M>>): (o: Option<HitRecord<M>>)
    ensures o.Some? <==> left.Some? || right.Some?
    ensures o.Some? ==> o == left || o == right
    ensures o.Some? && left.Some? ==> o.value.t <= left.value.t
    ensures o.Some? && right.Some? ==> o.value.t <= right.value.t
    ensures left.Some? && right.Some? && left.value.t == right.value.t ==> o == right
  {
    match (left, right)
    case (Some(a), Some(b)) => if a.t < b.t then left else right
    case (Some(_), None) => left
    case (None, _) => right
  }

  /** `bvh_node::hit`. `boxHit` is `aabb::hit`, the slab test, and `primHit`
      the primitives' `hit`; both are given. A missed box answers None
      without asking the children. */
  function Hit<P, M>(node: Node<P>, boxHit: (Aabb, Ray, real, real) -> bool,
                     primHit: (P, Ray, real, real) -> Option<HitRecord<M>>,
                     r: Ray, tMin: real, tMax: real): (o: Option<HitRecord<M>>)
    ensures !boxHit(node.box, r, tMin, tMax) ==> o.None?
    decreases node
  {
    if !boxHit(node.box, r, tMin, tMax) then None
    else Closer(ChildHit(node.left, boxHit, primHit, r, tMin, tMax), ChildHit(node.right, boxHit, primHit, r, tMin, tMax))
  }

  function ChildHit<P, M>(c: Child<P>, boxHit: (Aabb, Ray, real, real) -> bool,
                          primHit: (P, Ray, real, real) -> Option<HitRecord<M>>,
                          r: Ray, tMin: real, tMax: real): Option<HitRecord<M>>
    decreases c
  {
    match c
    case Leaf(p) => primHit(p, r, tMin, tMax)
    case Inner(node) => Hit(node, boxHit, primHit, r, tMin, tMax)
  }

  /** Whatever the boxes, a reported hit is some leaf's own record. */
  lemma {:induction false} HitFromLeaf<P, M>(node: Node<P>, boxHit: (Aabb, Ray, real, real) -> bool,
                                             primHit: (P, Ray, real, real) -> Option<HitRecord<M>>,
                                             r: Ray, tMin: real, tMax: real)
    ensures var o := Hit(node, boxHit, primHit, r, tMin, tMax);
      o.Some? ==> exists p :: p in Leaves(node) && primHit(p, r, tMin, tMax) == o
    decreases node
  {
    var o := Hit(node, boxHit, primHit, r, tMin, tMax);
    if o.Some? {
      var lo := ChildHit(node.left, boxHit, primHit, r, tMin, tMax);
      if o == lo {
        ChildHitFromLeaf(node.left, boxHit, primHit, r, tMin, tMax);
        var p :| p in ChildLeaves(node.left) && primHit(p, r, tMin, tMax) == o;
        assert p in Leaves(node);
      } else {
        ChildHitFromLeaf(node.right, boxHit, primHit, r, tMin, tMax);
        var p :| p in ChildLeaves(node.right) && primHit(p, r, tMin, tMax) == o;
        assert p in Leaves(node);
      }
    }
  }

  lemma {:induction false} ChildHitFromLeaf<P, M>(c: Child<P>, boxHit: (Aabb, Ray, real, real) -> bool,
                                                  primHit: (P, Ray, real, real) -> Option<HitRecord<M>>,
                                                  r: Ray, tMin: real, tMax: real)
    ensures var o := ChildHit(c, boxHit, primHit, r, tMin, tMax);
      o.Some? ==> exists p :: p in ChildLeaves(c) && primHit(p, r, tMin, tMax) == o
    decreases c
  {
    match c
    case Leaf(p) =>
      assert p in ChildLeaves(c);
    case Inner(node) =>
      HitFromLeaf(node, boxHit, primHit, r, tMin, tMax);
  }

  /** The boxes are faithful for this query: wherever the slab test rejects
      a node's box, no primitive below that node is hit. */
  ghost predicate Conservative<P, M>(node: Node<P>, boxHit: (Aabb, Ray, real, real) -> bool,
                                     primHit: (P, Ray, real, real) -> Option<HitRecord<M>>,
                                     r: Ray, tMin: real, tMax: real)
    decreases node
  {
    && (!boxHit(node.box, r, tMin, tMax) ==> forall p :: p in Leaves(node) ==> primHit(p, r, tMin, tMax).None?)
    && (node.left.Inner? ==> Conservative(node.left.node, boxHit, primHit, r, tMin, tMax))
    && (node.right.Inner? ==> Conservative(node.right.node, boxHit, primHit, r, tMin, tMax))
  }

  /** With faithful boxes the traversal finds the nearest hit: it reports a
      hit exactly when some leaf is hit, and its `t` is no larger than the
      `t` of any leaf's hit. */
  lemma {:induction false} HitIsNearest<P, M>(node: Node<P>, boxHit: (Aabb, Ray, real, real) -> bool,
                                              primHit: (P, Ray, real, real) -> Option<HitRecord<M>>,
                                              r: Ray, tMin: real, tMax: real)
    requires Conservative(node, boxHit, primHit, r, tMin, tMax)
    ensures var o := Hit(node, boxHit, primHit, r, tMin, tMax);
      && (o.Some? <==> exists p :: p in Leaves(node) && primHit(p, r, tMin, tMax).Some?)
      && (forall p :: p in Leaves(node) && primHit(p, r, tMin, tMax).Some? ==> o.Some? && o.value.t <= primHit(p, r, tMin, tMax).value.t)
    decreases node
  {
    var o := Hit(node, boxHit, primHit, r, tMin, tMax);
    HitFromLeaf(node, boxHit, primHit, r, tMin, tMax);
    if boxHit(node.box, r, tMin, tMax) {
      ChildHitIsNearest(node.left, boxHit, primHit, r, tMin, tMax);
      ChildHitIsNearest(node.right, boxHit, primHit, r, tMin, tMax);
    }
  }

  lemma {:induction false} ChildHitIsNearest<P, M>(c: Child<P>, boxHit: (Aabb, Ray, real, real) -> bool,
                                                   primHit: (P, Ray, real, real) -> Option<HitRecord<M>>,
                                                   r: Ray, tMin: real, tMax: real)
    requires c.Inner? ==> Conservative(c.node, boxHit, primHit, r, tMin, tMax)
    ensures var o := ChildHit(c, boxHit, primHit, r, tMin, tMax);
      forall p :: p in ChildLeaves(c) && primHit(p, r, tMin, tMax).Some? ==> o.Some? && o.value.t <= primHit(p, r, tMin, tMax).value.t
    decreases c
  {
    match c
    case Leaf(p) =>
    case Inner(node) =>
      HitIsNearest(node, boxHit, primHit, r, tMin, tMax);
  }
}
