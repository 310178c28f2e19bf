/** `constant_texture` and `checker_texture`. `sin` is the C library function,
    taken as given. */
module Textures {
  import opened Vec

  /** A texture tree: a constant colour, or a checker choosing between two
      sub-textures. */
  datatype Texture = Constant(color: Vec3) | Checker(even: Texture, odd: Texture)

  /** `checker_texture(t0, t1)`: the first argument is the even texture, the
      second the odd one. */
  function NewChecker(t0: Texture, t1: Texture): (t: Texture)
    ensures t.Checker? && t.even == t0 && t.odd == t1
  {
    Checker(t0, t1)
  }

  /** The product of sines whose sign picks the checker square. */
  function Sines(sin: real -> real, p: Vec3): real
  {
    sin(10.0 * p.x) * sin(10.0 * p.y) * sin(10.0 * p.z)
  }

  /** `texture::value(u, v, p)`. */
  function Value(t: Texture, sin: real -> real, u: real, v: real, p: Vec3): Vec3
    decreases t
  {
    match t
    case Constant(c) => c
    case Checker(even, odd) =>
      if Sines(sin, p) < 0.0 then Value(odd, sin, u, v, p) else Value(even, sin, u, v, p)
  }

  /** The colours at the leaves of a texture tree. */
  function Colors(t: Texture): set<Vec3>
    decreases t
  {
    match t
    case Constant(c) => {c}
    case Checker(even, odd) => Colors(even) + Colors(odd)
  }

  /** A constant texture ignores `u`, `v` and `p`. */
  lemma ConstantIgnoresCoordinates(c: Vec3, sin: real -> real, u: real, v: real, p: Vec3, u': real, v': real, p': Vec3)
    ensures Value(Constant(c), sin, u, v, p) == c == Value(Constant(c), sin, u', v', p')
  {
  }

  /** A checker answers with its odd sub-texture, queried at the same
      (u, v, p), exactly when the product of sines is negative, and with its
      even one otherwise, zero included. */
  lemma CheckerSelects(even: Texture, odd: Texture, sin: real -> real, u: real, v: real, p: Vec3)
    ensures Sines(sin, p) >= 0.0 ==> Value(NewChecker(even, odd), sin, u, v, p) == Value(even, sin, u, v, p)
    ensures Sines(sin, p) < 0.0 ==> Value(NewChecker(even, odd), sin, u, v, p) == Value(odd, sin, u, v, p)
  {
  }

  /** Whatever the coordinates, a texture answers with one of its leaf colours. */
  lemma {:induction false} ValueIsLeafColor(t: Texture, sin: real -> real, u: real, v: real, p: Vec3)
    ensures Value(t, sin, u, v, p) in Colors(t)
    decreases t
  {
    match t
    case Constant(c) =>
    case Checker(even, odd) =>
      ValueIsLeafColor(even, sin, u, v, p);
      ValueIsLeafColor(odd, sin, u, v, p);
  }
}
