/** `split(str, delim)` of the Wavefront loader: the pieces between
    occurrences of the delimiter, found left to right with
    `find_first_of`. */
module ObjSplit {
  import opened Wrappers

  /** `str.find_first_of(delim, from)`: the first position at or after `from`
      holding the delimiter, or None (`npos`). */
  function FindFrom(s: string, d: char, from: nat): (r: Option<nat>)
    ensures r.Some? ==> from <= r.value < |s| && s[r.value] == d
    ensures r.Some? ==> forall j :: from <= j < r.value ==> s[j] != d
    ensures r.None? ==> forall j :: from <= j < |s| ==> s[j] != d
    decreases |s| - from
  {
    if from >= |s| then None
    else if s[from] == d then Some(from)
    else FindFrom(s, d, from + 1)
  }

  /** The pieces `split` pushes once `current` has reached `from`. */
  function SplitFrom(s: string, d: char, from: nat): (r: seq<string>)
    requires from <= |s|
    ensures |r| >= 1
    decreases |s| - from
  {
    match FindFrom(s, d, from)
    case None => [s[from..]]
    case Some(i) => [s[from..i]] + SplitFrom(s, d, i + 1)
  }

  function Split(s: string, d: char): (r: seq<string>)
    ensures |r| >= 1
  {
    SplitFrom(s, d, 0)
  }

  /** `split`: the while loop pushes the piece before each delimiter it finds
      and moves past it; the rest of the string is the last piece. */
  method SplitLoop(str: string, delim: char) returns (res: seq<string>)
    ensures res == Split(str, delim)
  {
    res := [];
    var current := 0;
    var found := FindFrom(str, delim, current);
    while found.Some?
      invariant current <= |str|
      invariant found == FindFrom(str, delim, current)
      invariant res + SplitFrom(str, delim, current) == Split(str, delim)
      decreases |str| - current
    {
      res := res + [str[current..found.value]];
      current := found.value + 1;
      found := FindFrom(str, delim, current);
    }
    res := res + [str[current..]];
  }

  /** The number of occurrences of `d` in `s`. */
  function Count(s: string, d: char): nat
  {
    multiset(s)[d]
  }

  /** The pieces joined back together with the delimiter between them. */
  function Join(pieces: seq<string>, d: char): string
    requires |pieces| >= 1
  {
    if |pieces| == 1 then pieces[0] else pieces[0] + [d] + Join(pieces[1..], d)
  }

  /** Each cut removes one delimiter: one piece more than delimiters. */
  lemma {:induction false} SplitFromCount(s: string, d: char, from: nat)
    requires from <= |s|
    ensures |SplitFrom(s, d, from)| == Count(s[from..], d) + 1
    decreases |s| - from
  {
    match FindFrom(s, d, from)
    case None =>
      assert d !in s[from..];
    case Some(i) =>
      SplitFromCount(s, d, i + 1);
      CountAround(s, d, from, i);
  }

  /** No piece holds the delimiter. */
  lemma {:induction false} SplitFromFree(s: string, d: char, from: nat)
    requires from <= |s|
    ensures forall k :: 0 <= k < |SplitFrom(s, d, from)| ==> d !in SplitFrom(s, d, from)[k]
    decreases |s| - from
  {
    match FindFrom(s, d, from)
    case None =>
      assert d !in s[from..];
    case Some(i) =>
      SplitFromFree(s, d, i + 1);
      assert d !in s[from..i];
      assert SplitFrom(s, d, from) == [s[from..i]] + SplitFrom(s, d, i + 1);
  }

  /** Joining the pieces with the delimiter gives the input back. */
  lemma {:induction false} SplitFromJoin(s: string, d: char, from: nat)
    requires from <= |s|
    ensures Join(SplitFrom(s, d, from), d) == s[from..]
    decreases |s| - from
  {
    match FindFrom(s, d, from)
    case None =>
    case Some(i) =>
      SplitFromJoin(s, d, i + 1);
      var rest := SplitFrom(s, d, i + 1);
      var pieces := [s[from..i]] + rest;
      assert SplitFrom(s, d, from) == pieces;
      assert pieces[1..] == rest;
      assert s[from..] == s[from..i] + [d] + s[i + 1..];
  }

  /** Cutting `s[from..]` at the first delimiter, at `i`. */
  lemma CountAround(s: string, d: char, from: nat, i: nat)
    requires from <= i < |s| && s[i] == d && forall j :: from <= j < i ==> s[j] != d
    ensures Count(s[from..], d) == Count(s[i + 1..], d) + 1
  {
    assert d !in s[from..i];
    assert s[from..] == s[from..i] + [d] + s[i + 1..];
    assert multiset(s[from..]) == multiset(s[from..i]) + multiset([d]) + multiset(s[i + 1..]);
  }

  /** `split` gives one more piece than there are delimiters, no piece holds
      the delimiter, and joining the pieces with it gives the input back. */
  lemma SplitFacts(s: string, d: char)
    ensures |Split(s, d)| == Count(s, d) + 1
    ensures forall k :: 0 <= k < |Split(s, d)| ==> d !in Split(s, d)[k]
    ensures Join(Split(s, d), d) == s
  {
    SplitFromCount(s, d, 0);
    SplitFromFree(s, d, 0);
    SplitFromJoin(s, d, 0);
    assert s[0..] == s;
  }

  /** The empty string splits into one empty piece. */
  lemma SplitEmpty(d: char)
    ensures Split("", d) == [""]
  {
  }

  /** Finding in `a + b` past `a` is finding in `b`, shifted by `|a|`. */
  lemma {:induction false} FindFromShift(a: string, b: string, d: char, from: nat)
    requires from <= |b|
    ensures FindFrom(a + b, d, |a| + from) ==
      (match FindFrom(b, d, from) case None => None case Some(i) => Some(|a| + i))
    decreases |b| - from
  {
    if from < |b| && b[from] != d {
      FindFromShift(a, b, d, from + 1);
    }
  }

  /** Splitting `a + b` past `a` is splitting `b`. */
  lemma {:induction false} SplitFromShift(a: string, b: string, d: char, from: nat)
    requires from <= |b|
    ensures SplitFrom(a + b, d, |a| + from) == SplitFrom(b, d, from)
    decreases |b| - from
  {
    FindFromShift(a, b, d, from);
    match FindFrom(b, d, from)
    case None =>
      assert (a + b)[|a| + from..] == b[from..];
    case Some(i) =>
      SplitFromShift(a, b, d, i + 1);
      assert (a + b)[|a| + from..|a| + i] == b[from..i];
  }

  /** Pieces free of the delimiter, joined with it, split back into
      themselves; in particular adjacent delimiters give empty pieces. */
  lemma {:induction false} SplitJoin(pieces: seq<string>, d: char)
    requires |pieces| >= 1
    requires forall k :: 0 <= k < |pieces| ==> d !in pieces[k]
    ensures Split(Join(pieces, d), d) == pieces
  {
    var p := pieces[0];
    if |pieces| == 1 {
      assert FindFrom(p, d, 0) == None;
      assert p[0..] == p;
    } else {
      SplitJoin(pieces[1..], d);
      SplitCons(p, Join(pieces[1..], d), d);
      assert pieces == [p] + pieces[1..];
    }
  }

  /** A first piece free of the delimiter is split off whole. */
  lemma SplitCons(p: string, rest: string, d: char)
    requires d !in p
    ensures Split(p + [d] + rest, d) == [p] + Split(rest, d)
  {
    var t := p + [d] + rest;
    assert FindFrom(t, d, 0) == Some(|p|) by {
      assert forall j :: 0 <= j < |p| ==> t[j] == p[j];
      assert t[|p|] == d;
      FindFromFirst(t, d, 0, |p|);
    }
    assert t[0..|p|] == p;
    SplitFromShift(p + [d], rest, d, 0);
  }

  /** `FindFrom` stops at the first delimiter. */
  lemma {:induction false} FindFromFirst(s: string, d: char, from: nat, i: nat)
    requires from <= i < |s| && s[i] == d
    requires forall j :: from <= j < i ==> s[j] != d
    ensures FindFrom(s, d, from) == Some(i)
    decreases i - from
  {
    if from < i {
      FindFromFirst(s, d, from + 1, i);
    }
  }

  /** `a//c` splits on `/` into `a`, the empty piece and `c`: the shape
      the face parser recognises as vertex and normal. */
  lemma SplitDoubleSlash(a: string, c: string)
    requires '/' !in a && '/' !in c
    ensures Split(a + "//" + c, '/') == [a, "", c]
  {
    var pieces := [a, "", c];
    assert pieces[1..][1..] == [c];
    assert Join(pieces[1..], '/') == "" + ['/'] + c;
    assert Join(pieces, '/') == a + "//" + c;
    SplitJoin(pieces, '/');
  }
}
