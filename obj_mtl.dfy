/** `obj_material` and `load_mtl`: a line-driven reader of Wavefront material
    libraries. Opening files, `std::stof`/`std::stoi` and `stbi_load` are
    given through an `Io` value. */
module ObjMtl {
  import opened Wrappers
  import opened Vec
  import opened ObjSplit

  type Byte = b: int | 0 <= b < 256

  /** `obj_material`. */
  datatype ObjMaterial = ObjMaterial(
    name: string,
    ambient: Vec3,
    diffuse: Vec3,
    specular: Vec3,
    specularCoefficient: real,
    emissiveCoefficient: Vec3,
    shiness: real,
    dissolved: real,
    illum: int,
    texColor: seq<Byte>,
    texWidth: int,
    texHeight: int)

  const White := Vec3(1.0, 1.0, 1.0)

  /** `obj_material()` with its member initialisers, then named. */
  function DefaultMaterial(name: string): ObjMaterial
  {
    ObjMaterial(name, White, White, White, 0.0, White, 1.0, 1.0, 0, [], 0, 0)
  }

  /** What `stbi_load(path, &nx, &ny, &nn, STBI_rgb_alpha)` hands back:
      `nx * ny` pixels of four bytes each. */
  datatype Image = Image(width: nat, height: nat, pixels: seq<Byte>)
  type Rgba = img: Image | |img.pixels| == 4 * img.width * img.height witness Image(0, 0, [])

  /** The loaders' outside world: the lines of a file that opens, number
      parsing, and image decoding. */
  datatype Io = Io(
    files: string -> Option<seq<string>>,
    stof: string -> real,
    stoi: string -> int,
    loadImage: string -> Option<Rgba>)

  /** The loader's variables between lines: the output vector and the
      `last_material` slot. */
  datatype MtlState = MtlState(materials: seq<ObjMaterial>, pending: Option<ObjMaterial>)

  function PendingSeq(pending: Option<ObjMaterial>): (s: seq<ObjMaterial>)
    ensures |s| == if pending.Some? then 1 else 0
  {
    if pending.Some? then [pending.value] else []
  }

  /** The attributes a material line can set. */
  datatype Attr = Ns | Ni | Dissolve | Transparency | Illum | Ka | Kd | Ks | Ke | MapKd

  /** The keyword tests of the `load_mtl` if-chain after `newmtl`, in order.
      `Ni` is tested twice; the second test is never reached. */
  function Keyword(kw: string): Option<Attr>
  {
    if kw == "Ns" then Some(Ns)
    else if kw == "Ni" then Some(Ni)
    else if kw == "d" then Some(Dissolve)
    else if kw == "Tr" then Some(Transparency)
    else if kw == "Ni" then Some(Ni)
    else if kw == "illum" then Some(Illum)
    else if kw == "Ka" then Some(Ka)
    else if kw == "Kd" then Some(Kd)
    else if kw == "Ks" then Some(Ks)
    else if kw == "Ke" then Some(Ke)
    else if kw == "map_Kd" then Some(MapKd)
    else None
  }

  /** The token count an attribute line must have. */
  function Arity(a: Attr): nat
  {
    if a in {Ka, Kd, Ks, Ke} then 4 else 2
  }

  /** A line the loader skips: empty, or a comment. */
  predicate Skipped(line: string)
  {
    |line| == 0 || line[0] == '#'
  }

  /** What the loader reads without checking: `newmtl` takes the second token. */
  predicate MtlIndexable(line: string)
  {
    var v := Split(line, ' ');
    !Skipped(line) && v[0] == "newmtl" ==> |v| >= 2
  }

  function SetPending(st: MtlState, m: ObjMaterial): MtlState
  {
    st.(pending := Some(m))
  }

  function Triple(io: Io, v: seq<string>): Vec3
    requires |v| == 4
  {
    Vec3(io.stof(v[1]), io.stof(v[2]), io.stof(v[3]))
  }

  /** The write an attribute line makes to the pending material. An image
      that does not load leaves it as it is. */
  function Apply(m: ObjMaterial, a: Attr, v: seq<string>, io: Io): ObjMaterial
    requires |v| == Arity(a)
  {
    match a
    case Ns => m.(specularCoefficient := io.stof(v[1]))
    case Ni => m.(shiness := io.stof(v[1]))
    case Dissolve => m.(dissolved := io.stof(v[1]))
    case Transparency => m.(dissolved := 1.0 - io.stof(v[1]))
    case Illum => m.(illum := io.stoi(v[1]))
    case Ka => m.(ambient := Triple(io, v))
    case Kd => m.(diffuse := Triple(io, v))
    case Ks => m.(specular := Triple(io, v))
    case Ke => m.(emissiveCoefficient := Triple(io, v))
    case MapKd =>
      match io.loadImage(v[1])
      case None => m
      case Some(img) => m.(texColor := img.pixels, texWidth := img.width, texHeight := img.height)
  }

  /** An attribute branch: false without a pending material or with the
      wrong token count, otherwise the write. */
  function SetAttribute(st: MtlState, v: seq<string>, a: Attr, io: Io): Option<MtlState>
  {
    if st.pending.None? || |v| != Arity(a) then None
    else Some(SetPending(st, Apply(st.pending.value, a, v, io)))
  }

  /** One iteration of the `load_mtl` loop: the new state, or None where the
      function returns false. Unknown keywords are skipped. */
  function MtlLine(st: MtlState, line: string, io: Io): (o: Option<MtlState>)
    requires MtlIndexable(line)
  {
    if Skipped(line) then Some(st)
    else
      var v := Split(line, ' ');
      if v[0] == "newmtl" then
        Some(MtlState(st.materials + PendingSeq(st.pending), Some(DefaultMaterial(v[1]))))
      else
        match Keyword(v[0])
        case None => Some(st)
        case Some(a) => SetAttribute(st, v, a, io)
  }

  /** How a run of the loop ends: the return value and the vector. */
  datatype MtlResult = MtlResult(ok: bool, materials: seq<ObjMaterial>)

  predicate AllMtlIndexable(lines: seq<string>)
  {
    forall i :: 0 <= i < |lines| ==> MtlIndexable(lines[i])
  }

  /** The loop over `lines` from state `st`, then the final flush. */
  function MtlRun(st: MtlState, lines: seq<string>, io: Io): MtlResult
    requires AllMtlIndexable(lines)
    decreases |lines|
  {
    if |lines| == 0 then MtlResult(true, st.materials + PendingSeq(st.pending))
    else
      match MtlLine(st, lines[0], io)
      case None => MtlResult(false, st.materials)
      case Some(next) => MtlRun(next, lines[1..], io)
  }

  /** `load_mtl(path, materials)`: false with the vector untouched when the
      file does not open; otherwise the loop over its lines, appending to
      the caller's vector. */
  method LoadMtl(path: string, materials: seq<ObjMaterial>, io: Io) returns (ok: bool, out: seq<ObjMaterial>)
    requires io.files(path).Some? ==> AllMtlIndexable(io.files(path).value)
    ensures io.files(path).None? ==> !ok && out == materials
    ensures io.files(path).Some? ==> MtlResult(ok, out) == MtlRun(MtlState(materials, None), io.files(path).value, io)
  {
    var file := io.files(path);
    if file.None? {
      return false, materials;
    }
    var lines := file.value;
    out := materials;
    var lastMaterial: Option<ObjMaterial> := None;
    var i := 0;
    while i < |lines|
      invariant 0 <= i <= |lines|
      invariant MtlRun(MtlState(out, lastMaterial), lines[i..], io) == MtlRun(MtlState(materials, None), lines, io)
    {
      assert lines[i..][1..] == lines[i + 1..];
      var next := MtlLine(MtlState(out, lastMaterial), lines[i], io);
      if next.None? {
        return false, out;
      }
      out, lastMaterial := next.value.materials, next.value.pending;
      i := i + 1;
    }
    if lastMaterial.Some? {
      out := out + [lastMaterial.value];
    }
    ok := true;
  }

  // ---------------------------------------------------------------- properties

  /** Empty lines and comments change nothing. */
  lemma MtlSkipsBlankAndComment(st: MtlState, line: string, io: Io)
    requires Skipped(line)
    ensures MtlIndexable(line) && MtlLine(st, line, io) == Some(st)
  {
  }

  /** The keywords that set attributes, and their token counts: 4 for
      Ka/Kd/Ks/Ke, 2 for the rest. */
  lemma KeywordTable(kw: string)
    ensures Keyword(kw).Some? <==> kw in ["Ns", "Ni", "d", "Tr", "illum", "Ka", "Kd", "Ks", "Ke", "map_Kd"]
    ensures Keyword(kw).Some? ==> (Arity(Keyword(kw).value) == 4 <==> kw in ["Ka", "Kd", "Ks", "Ke"])
    ensures kw == "d" ==> Keyword(kw) == Some(Dissolve)
    ensures kw == "Tr" ==> Keyword(kw) == Some(Transparency)
    ensures kw == "map_Kd" ==> Keyword(kw) == Some(MapKd)
  {
  }

  /** A line fails exactly when it sets an attribute while no material is
      pending or with the wrong token count. */
  lemma MtlLineFails(st: MtlState, line: string, io: Io)
    requires MtlIndexable(line)
    ensures var v := Split(line, ' ');
      MtlLine(st, line, io).None? <==>
        !Skipped(line) && v[0] != "newmtl" && Keyword(v[0]).Some? && (st.pending.None? || |v| != Arity(Keyword(v[0]).value))
  {
  }

  /** `newmtl` flushes the pending material, if any, and starts a fresh one
      with default values, named by the second token. */
  lemma MtlNewmtl(st: MtlState, line: string, io: Io)
    requires MtlIndexable(line) && !Skipped(line) && Split(line, ' ')[0] == "newmtl"
    ensures MtlLine(st, line, io) == Some(MtlState(st.materials + PendingSeq(st.pending), Some(DefaultMaterial(Split(line, ' ')[1]))))
  {
  }

  /** Every line other than `newmtl` leaves the vector alone and keeps the
      pending material's presence and name. */
  lemma MtlLineKeeps(st: MtlState, line: string, io: Io)
    requires MtlIndexable(line)
    requires Skipped(line) || Split(line, ' ')[0] != "newmtl"
    ensures var o := MtlLine(st, line, io);
      o.Some? ==> (o.value.materials == st.materials && o.value.pending.Some? == st.pending.Some? &&
        (st.pending.Some? ==> o.value.pending.value.name == st.pending.value.name))
  {
  }

  /** `d` stores its value in `dissolved`, and `Tr` stores one minus its value. */
  lemma MtlDissolve(st: MtlState, line: string, io: Io)
    requires !Skipped(line) && st.pending.Some?
    requires var v := Split(line, ' '); |v| == 2 && (v[0] == "d" || v[0] == "Tr")
    ensures MtlIndexable(line)
    ensures var v := Split(line, ' '); var o := MtlLine(st, line, io);
      o.Some? && o.value.pending.Some? &&
      o.value.pending.value.dissolved == (if v[0] == "d" then io.stof(v[1]) else 1.0 - io.stof(v[1]))
  {
  }

  /** Unknown keywords and `map_Kd` images that do not load are skipped; a
      loaded image sets the texture to `4 * nx * ny` bytes and its size. */
  lemma MtlTexture(st: MtlState, line: string, io: Io)
    requires MtlIndexable(line) && !Skipped(line)
    ensures var v := Split(line, ' ');
      Keyword(v[0]).None? && v[0] != "newmtl" ==> MtlLine(st, line, io) == Some(st)
    ensures var v := Split(line, ' ');
      v[0] == "map_Kd" && st.pending.Some? && |v| == 2 && io.loadImage(v[1]).None? ==> MtlLine(st, line, io) == Some(st)
    ensures var v := Split(line, ' ');
      v[0] == "map_Kd" && st.pending.Some? && |v| == 2 && io.loadImage(v[1]).Some? ==>
        var img, o := io.loadImage(v[1]).value, MtlLine(st, line, io);
        o.Some? && o.value.pending.Some? &&
        |o.value.pending.value.texColor| == 4 * img.width * img.height &&
        o.value.pending.value.texWidth == img.width && o.value.pending.value.texHeight == img.height
  {
  }

  function Names(ms: seq<ObjMaterial>): (names: seq<string>)
    ensures |names| == |ms|
    ensures forall i :: 0 <= i < |ms| ==> names[i] == ms[i].name
  {
    if |ms| == 0 then [] else Names(ms[..|ms| - 1]) + [ms[|ms| - 1].name]
  }

  lemma {:induction false} NamesAppend(a: seq<ObjMaterial>, b: seq<ObjMaterial>)
    ensures Names(a + b) == Names(a) + Names(b)
  {
  }

  /** The name a line gives a new material: the second token of a
      `newmtl` line. */
  function LineName(line: string): seq<string>
    requires MtlIndexable(line)
  {
    var v := Split(line, ' ');
    if !Skipped(line) && v[0] == "newmtl" then [v[1]] else []
  }

  /** The second tokens of the `newmtl` lines, in order. */
  function NewmtlNames(lines: seq<string>): seq<string>
    requires AllMtlIndexable(lines)
    decreases |lines|
  {
    if |lines| == 0 then [] else LineName(lines[0]) + NewmtlNames(lines[1..])
  }

  /** The names in the vector and the pending slot, in order. */
  function StateNames(st: MtlState): seq<string>
  {
    Names(st.materials + PendingSeq(st.pending))
  }

  /** A line that succeeds adds its `newmtl` name, if any, to the names held. */
  lemma MtlLineNames(st: MtlState, line: string, io: Io)
    requires MtlIndexable(line)
    ensures MtlLine(st, line, io).Some? ==> StateNames(MtlLine(st, line, io).value) == StateNames(st) + LineName(line)
  {
    if MtlLine(st, line, io).Some? {
      var next := MtlLine(st, line, io).value;
      if !Skipped(line) && Split(line, ' ')[0] == "newmtl" {
        MtlNewmtl(st, line, io);
        NamesAppend(st.materials + PendingSeq(st.pending), PendingSeq(next.pending));
      } else {
        MtlLineKeeps(st, line, io);
        NamesAppend(st.materials, PendingSeq(st.pending));
        NamesAppend(next.materials, PendingSeq(next.pending));
      }
    }
  }

  /** Whatever happens, the materials already in the vector stay in front. */
  lemma {:induction false} MtlRunExtends(st: MtlState, lines: seq<string>, io: Io)
    requires AllMtlIndexable(lines)
    ensures st.materials <= MtlRun(st, lines, io).materials
    decreases |lines|
  {
    if |lines| > 0 {
      match MtlLine(st, lines[0], io)
      case None =>
      case Some(next) =>
        MtlRunExtends(next, lines[1..], io);
        if Skipped(lines[0]) || Split(lines[0], ' ')[0] != "newmtl" {
          MtlLineKeeps(st, lines[0], io);
        }
    }
  }

  /** The first step of a run, and of the `newmtl` names, unfolded. */
  lemma MtlRunStep(st: MtlState, lines: seq<string>, io: Io)
    requires |lines| > 0 && AllMtlIndexable(lines)
    ensures AllMtlIndexable(lines[1..])
    ensures MtlLine(st, lines[0], io).None? ==> !MtlRun(st, lines, io).ok
    ensures MtlLine(st, lines[0], io).Some? ==>
      MtlRun(st, lines, io) == MtlRun(MtlLine(st, lines[0], io).value, lines[1..], io)
    ensures NewmtlNames(lines) == LineName(lines[0]) + NewmtlNames(lines[1..])
  {
  }

  /** On success the vector gains exactly one material per `newmtl` line, in
      file order and named by it, after the pending one. */
  lemma {:induction false} MtlRunNames(st: MtlState, lines: seq<string>, io: Io)
    requires AllMtlIndexable(lines)
    ensures var res := MtlRun(st, lines, io);
      res.ok ==> Names(res.materials) == StateNames(st) + NewmtlNames(lines)
    decreases |lines|
  {
    if |lines| > 0 {
      MtlRunStep(st, lines, io);
      var o := MtlLine(st, lines[0], io);
      if o.Some? {
        MtlRunNames(o.value, lines[1..], io);
      }
      MtlRunNamesStep(st, lines, io);
    }
  }

  /** The step of `MtlRunNames`: the names of the first line, then those of
      the rest. */
  lemma MtlRunNamesStep(st: MtlState, lines: seq<string>, io: Io)
    requires |lines| > 0 && AllMtlIndexable(lines)
    requires var o := MtlLine(st, lines[0], io);
      o.Some? ==>
        (var res := MtlRun(o.value, lines[1..], io);
         res.ok ==> Names(res.materials) == StateNames(o.value) + NewmtlNames(lines[1..]))
    ensures var res := MtlRun(st, lines, io);
      res.ok ==> Names(res.materials) == StateNames(st) + NewmtlNames(lines)
  {
    MtlRunStep(st, lines, io);
    var o := MtlLine(st, lines[0], io);
    if o.Some? {
      MtlLineNames(st, lines[0], io);
      Associative(StateNames(st), LineName(lines[0]), NewmtlNames(lines[1..]));
    }
  }

  lemma Associative<T>(a: seq<T>, b: seq<T>, c: seq<T>)
    ensures a + b + c == a + (b + c)
  {
  }

  /** `load_mtl` on a file that opens, into a vector `ms`: on success the
      vector is `ms` followed by one material per `newmtl` line, in order;
      on failure `ms` is still its prefix. */
  lemma LoadMtlAppends(ms: seq<ObjMaterial>, lines: seq<string>, io: Io)
    requires AllMtlIndexable(lines)
    ensures var res := MtlRun(MtlState(ms, None), lines, io);
      ms <= res.materials &&
      (res.ok ==> |res.materials| == |ms| + |NewmtlNames(lines)| && Names(res.materials[|ms|..]) == NewmtlNames(lines))
  {
    var res := MtlRun(MtlState(ms, None), lines, io);
    MtlRunExtends(MtlState(ms, None), lines, io);
    MtlRunNames(MtlState(ms, None), lines, io);
    assert ms + PendingSeq(None) == ms;
    if res.ok {
      assert res.materials == ms + res.materials[|ms|..];
      NamesAppend(ms, res.materials[|ms|..]);
    }
  }

  /** The texture buffer holds four bytes per texel of a `tex_width` by
      `tex_height` image. */
  predicate TexelsFit(m: ObjMaterial)
  {
    0 <= m.texWidth && 0 <= m.texHeight && |m.texColor| == 4 * m.texWidth * m.texHeight
  }

  predicate AllFit(ms: seq<ObjMaterial>)
  {
    forall i :: 0 <= i < |ms| ==> TexelsFit(ms[i])
  }

  /** Every material held, in the vector or pending, fits its buffer. */
  predicate StateFits(st: MtlState)
  {
    AllFit(st.materials + PendingSeq(st.pending))
  }

  /** An attribute write keeps the buffer fitting. */
  lemma ApplyFits(m: ObjMaterial, a: Attr, v: seq<string>, io: Io)
    requires |v| == Arity(a) && TexelsFit(m)
    ensures TexelsFit(Apply(m, a, v, io))
  {
  }

  /** A default material has no texture, and every line keeps the buffers
      fitting: `map_Kd` stores the `4 * nx * ny` bytes of a loaded image. */
  lemma MtlLineFits(st: MtlState, line: string, io: Io)
    requires MtlIndexable(line) && StateFits(st)
    ensures MtlLine(st, line, io).Some? ==> StateFits(MtlLine(st, line, io).value)
  {
    var o := MtlLine(st, line, io);
    if o.Some? && o.value != st {
      var all := st.materials + PendingSeq(st.pending);
      var v := Split(line, ' ');
      if v[0] == "newmtl" {
        assert o.value.materials + PendingSeq(o.value.pending) == all + [DefaultMaterial(v[1])];
      } else {
        var a := Keyword(v[0]).value;
        var m := st.pending.value;
        assert all == st.materials + [m];
        assert TexelsFit(m) by { assert all[|all| - 1] == m; }
        ApplyFits(m, a, v, io);
        var m' := Apply(m, a, v, io);
        assert o.value.materials + PendingSeq(o.value.pending) == st.materials + [m'];
        assert forall i :: 0 <= i < |st.materials| ==> (st.materials + [m'])[i] == all[i];
      }
    }
  }

  /** Starting from materials that fit, `load_mtl` hands back only materials
      that fit, whether it succeeds or fails. */
  lemma {:induction false} MtlRunFits(st: MtlState, lines: seq<string>, io: Io)
    requires AllMtlIndexable(lines) && StateFits(st)
    ensures AllFit(MtlRun(st, lines, io).materials)
    decreases |lines|
  {
    if |lines| == 0 {
    } else {
      MtlRunStep(st, lines, io);
      var o := MtlLine(st, lines[0], io);
      if o.Some? {
        MtlLineFits(st, lines[0], io);
        MtlRunFits(o.value, lines[1..], io);
      } else {
        assert st.materials <= st.materials + PendingSeq(st.pending);
      }
    }
  }
}
