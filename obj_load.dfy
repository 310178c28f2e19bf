/** `load_obj`: a line-driven reader of Wavefront object files into a
    `model` passed by reference. Opening files, `std::stof`/`std::stoi`,
    image decoding and `std::filesystem::path::parent_path` are given. */
module ObjLoad {
  import opened Wrappers
  import opened Vec
  import opened ObjSplit
  import opened ObjMtl

  /** `face`: three vertex indices, and texture-coordinate and normal
      indices that exist only once a token has supplied one. */
  datatype Face = Face(vertices: seq<int>, texCoords: Option<seq<int>>, normals: Option<seq<int>>)

  /** `obj`. */
  datatype Obj = Obj(name: string, materialName: string, faces: seq<Face>, smooth: bool)

  /** The contents of a `model`. */
  datatype Tables = Tables(
    vertices: seq<Vec3>,
    normals: seq<Vec3>,
    texCoords: seq<Vec3>,
    objects: seq<Obj>,
    materials: seq<ObjMaterial>)

  /** How `load_obj` ends: returning true, returning false, or stopping at the
      assertion of `vec3::operator[]` on index 3. */
  datatype Outcome = Loaded | Failed | Aborted

  /** `model`, whose vectors the loader pushes onto. */
  class Model {
    var vertices: seq<Vec3>
    var normals: seq<Vec3>
    var texCoords: seq<Vec3>
    var objects: seq<Obj>
    var materials: seq<ObjMaterial>

    function Contents(): Tables
      reads this
    {
      Tables(vertices, normals, texCoords, objects, materials)
    }

    constructor ()
      ensures Contents() == Tables([], [], [], [], [])
    {
      vertices, normals, texCoords, objects, materials := [], [], [], [], [];
    }
  }

  // ---------------------------------------------------------------- faces

  /** Three indices each, where present. */
  predicate FaceShaped(f: Face)
  {
    |f.vertices| == 3 &&
    (f.texCoords.Some? ==> |f.texCoords.value| == 3) &&
    (f.normals.Some? ==> |f.normals.value| == 3)
  }

  /** `face()`: vertex indices {0, 0, 0} and no other indices. */
  const NewFace := Face([0, 0, 0], None, None)

  /** The index vector, created as {0, 0, 0} on first use. */
  function Lazy(o: Option<seq<int>>): seq<int>
  {
    if o.None? then [0, 0, 0] else o.value
  }

  /** The writes one vertex token makes to slot `i`, by its shape: `a`,
      `a/b`, `a//c`, `a/b/c`; any other shape writes nothing. Indices are
      1-based in the file and stored minus one. */
  function FaceSlot(f: Face, i: nat, token: string, stoi: string -> int): (g: Face)
    requires FaceShaped(f) && i < 3
    ensures FaceShaped(g)
  {
    var sp := Split(token, '/');
    if |sp| == 1 then
      f.(vertices := f.vertices[i := stoi(sp[0]) - 1])
    else if |sp| == 2 then
      f.(vertices := f.vertices[i := stoi(sp[0]) - 1],
         texCoords := Some(Lazy(f.texCoords)[i := stoi(sp[1]) - 1]))
    else if |sp| == 3 && sp[1] == "" then
      f.(vertices := f.vertices[i := stoi(sp[0]) - 1],
         normals := Some(Lazy(f.normals)[i := stoi(sp[2]) - 1]))
    else if |sp| == 3 then
      f.(vertices := f.vertices[i := stoi(sp[0]) - 1],
         texCoords := Some(Lazy(f.texCoords)[i := stoi(sp[1]) - 1]),
         normals := Some(Lazy(f.normals)[i := stoi(sp[2]) - 1]))
    else f
  }

  /** The face after the tokens `v[1..k + 1]` have been read. */
  function FaceUpTo(v: seq<string>, k: nat, stoi: string -> int): (f: Face)
    requires |v| == 4 && k <= 3
    ensures FaceShaped(f)
  {
    if k == 0 then NewFace else FaceSlot(FaceUpTo(v, k - 1, stoi), k - 1, v[k], stoi)
  }

  /** The face of an `f` line with its three vertex tokens. */
  function ParseFace(v: seq<string>, stoi: string -> int): (f: Face)
    requires |v| == 4
    ensures FaceShaped(f)
  {
    FaceUpTo(v, 3, stoi)
  }

  /** The `for (int i = 1; i < 4; i++)` loop of the `f` branch. */
  method ReadFace(v: seq<string>, stoi: string -> int) returns (f: Face)
    requires |v| == 4
    ensures f == ParseFace(v, stoi)
  {
    f := NewFace;
    for i := 1 to 4
      invariant f == FaceUpTo(v, i - 1, stoi)
    {
      var sp := Split(v[i], '/');
      if |sp| == 1 {
        f := f.(vertices := f.vertices[i - 1 := stoi(sp[0]) - 1]);
      } else if |sp| == 2 {
        f := f.(vertices := f.vertices[i - 1 := stoi(sp[0]) - 1]);
        if f.texCoords.None? {
          f := f.(texCoords := Some([0, 0, 0]));
        }
        f := f.(texCoords := Some(f.texCoords.value[i - 1 := stoi(sp[1]) - 1]));
      } else if |sp| == 3 && sp[1] == "" {
        f := f.(vertices := f.vertices[i - 1 := stoi(sp[0]) - 1]);
        if f.normals.None? {
          f := f.(normals := Some([0, 0, 0]));
        }
        f := f.(normals := Some(f.normals.value[i - 1 := stoi(sp[2]) - 1]));
      } else if |sp| == 3 {
        f := f.(vertices := f.vertices[i - 1 := stoi(sp[0]) - 1]);
        if f.texCoords.None? {
          f := f.(texCoords := Some([0, 0, 0]));
        }
        f := f.(texCoords := Some(f.texCoords.value[i - 1 := stoi(sp[1]) - 1]));
        if f.normals.None? {
          f := f.(normals := Some([0, 0, 0]));
        }
        f := f.(normals := Some(f.normals.value[i - 1 := stoi(sp[2]) - 1]));
      }
    }
  }

  // ---------------------------------------------------------------- lines

  /** The keywords `load_obj` tests, in order. */
  datatype Kw = O | V | Vn | Vt | F | Mtllib | Usemtl | S

  function ObjKeyword(kw: string): Option<Kw>
  {
    if kw == "o" then Some(O)
    else if kw == "v" then Some(V)
    else if kw == "vn" then Some(Vn)
    else if kw == "vt" then Some(Vt)
    else if kw == "f" then Some(F)
    else if kw == "mtllib" then Some(Mtllib)
    else if kw == "usemtl" then Some(Usemtl)
    else if kw == "s" then Some(S)
    else None
  }

  /** The tokens a branch reads without checking the count. */
  function MinTokens(kw: Kw): nat
  {
    match kw
    case V => 4
    case Vn => 3
    case Vt => 3
    case Mtllib => 2
    case Usemtl => 2
    case S => 2
    case _ => 1
  }

  /** The loader's variables between lines: the model and `current_obj`. */
  datatype ObjState = ObjState(model: Tables, current: Obj)

  /** The object the loader starts with, and the one `obj()` makes. */
  const DefaultObj := Obj("Default", "", [], false)
  const EmptyObj := Obj("", "", [], false)

  /** The default object that has received no face, which is never emitted. */
  predicate Untouched(o: Obj)
  {
    o.name == "Default" && |o.faces| == 0
  }

  /** What a line's tokens may be read for: enough of them for the branch,
      and, for `mtllib`, a material file whose `newmtl` lines name their
      material. The material file is `dir` followed by the file name. */
  predicate TokensFit(v: seq<string>, dir: string, io: Io)
  {
    |v| >= 1 &&
    (ObjKeyword(v[0]).Some? ==>
      |v| >= MinTokens(ObjKeyword(v[0]).value) &&
      (ObjKeyword(v[0]) == Some(Mtllib) && io.files(dir + v[1]).Some? ==>
        AllMtlIndexable(io.files(dir + v[1]).value)))
  }

  predicate ObjIndexable(line: string, dir: string, io: Io)
  {
    !Skipped(line) ==> TokensFit(Split(line, ' '), dir, io)
  }

  /** One iteration of the loop: the next state, or how the loader stops. */
  datatype Step = Next(st: ObjState) | Stop(outcome: Outcome)

  /** The if-chain on the first token of a line. */
  function Dispatch(st: ObjState, v: seq<string>, dir: string, io: Io): Step
    requires TokensFit(v, dir, io)
  {
    var m, cur := st.model, st.current;
    match ObjKeyword(v[0])
    case None => Next(st)
    case Some(O) =>
      if Untouched(cur) then Next(st)
      else Next(ObjState(m.(objects := m.objects + [cur]), EmptyObj))
    case Some(V) =>
      Next(st.(model := m.(vertices := m.vertices + [Vec3(io.stof(v[1]), io.stof(v[2]), io.stof(v[3]))])))
    case Some(Vn) =>
      var z := if |v| == 4 then io.stof(v[3]) else 0.0;
      Next(st.(model := m.(normals := m.normals + [Vec3(io.stof(v[1]), io.stof(v[2]), z)])))
    case Some(Vt) =>
      if |v| >= 4 then Stop(Aborted)
      else Next(st.(model := m.(texCoords := m.texCoords + [Vec3(io.stof(v[1]), io.stof(v[2]), 0.0)])))
    case Some(F) =>
      if |v| != 4 then Stop(Failed)
      else Next(st.(current := cur.(faces := cur.faces + [ParseFace(v, io.stoi)])))
    case Some(Mtllib) =>
      (match io.files(dir + v[1])
       case None => Stop(Failed)
       case Some(mtlLines) =>
         var res := MtlRun(MtlState([], None), mtlLines, io);
         if !res.ok then Stop(Failed)
         else Next(st.(model := m.(materials := m.materials + res.materials))))
    case Some(Usemtl) =>
      Next(st.(current := cur.(materialName := v[1])))
    case Some(S) =>
      var smooth :=
        if v[1] == "1" || v[0] == "on" then true
        else if v[1] == "0" || v[0] == "off" then false
        else cur.smooth;
      Next(st.(current := cur.(smooth := smooth)))
  }

  /** One iteration of the `load_obj` loop: skip the line, or split it at
      spaces and dispatch on its first token. */
  function ObjLine(st: ObjState, line: string, dir: string, io: Io): (r: Step)
    requires ObjIndexable(line, dir, io)
  {
    if Skipped(line) then Next(st) else Dispatch(st, Split(line, ' '), dir, io)
  }

  predicate AllObjIndexable(lines: seq<string>, dir: string, io: Io)
  {
    forall i :: 0 <= i < |lines| ==> ObjIndexable(lines[i], dir, io)
  }

  /** After the last line: the current object is emitted unless untouched. */
  function Flush(st: ObjState): Tables
  {
    if Untouched(st.current) then st.model
    else st.model.(objects := st.model.objects + [st.current])
  }

  /** How the loader ends and the model it leaves. */
  datatype ObjResult = ObjResult(outcome: Outcome, model: Tables)

  function ObjRun(st: ObjState, lines: seq<string>, dir: string, io: Io): ObjResult
    requires AllObjIndexable(lines, dir, io)
    decreases |lines|
  {
    if |lines| == 0 then ObjResult(Loaded, Flush(st))
    else
      match ObjLine(st, lines[0], dir, io)
      case Stop(o) => ObjResult(o, st.model)
      case Next(n) => ObjRun(n, lines[1..], dir, io)
  }

  /** The if-chain of the `load_obj` loop on the model, with `current_obj`
      passed in and out; `stop` is how the function returns, if it does. */
  method DispatchTokens(model: Model, current: Obj, v: seq<string>, dir: string, io: Io)
      returns (current': Obj, stop: Option<Outcome>)
    requires TokensFit(v, dir, io)
    modifies model
    ensures match Dispatch(ObjState(old(model.Contents()), current), v, dir, io)
      case Next(n) => stop.None? && model.Contents() == n.model && current' == n.current
      case Stop(o) => stop == Some(o) && model.Contents() == old(model.Contents())
  {
    current', stop := current, None;
    var kw := ObjKeyword(v[0]);
    if kw == Some(O) {
      if !Untouched(current) {
        model.objects := model.objects + [current];
        current' := EmptyObj;
      }
    } else if kw == Some(V) {
      model.vertices := model.vertices + [Vec3(io.stof(v[1]), io.stof(v[2]), io.stof(v[3]))];
    } else if kw == Some(Vn) {
      var normal := Vec3(io.stof(v[1]), io.stof(v[2]), 0.0);
      if |v| == 4 {
        normal := normal.(z := io.stof(v[3]));
      }
      model.normals := model.normals + [normal];
    } else if kw == Some(Vt) {
      if |v| >= 4 {
        return current, Some(Aborted);
      }
      model.texCoords := model.texCoords + [Vec3(io.stof(v[1]), io.stof(v[2]), 0.0)];
    } else if kw == Some(F) {
      if |v| != 4 {
        return current, Some(Failed);
      }
      var f := ReadFace(v, io.stoi);
      current' := current.(faces := current.faces + [f]);
    } else if kw == Some(Mtllib) {
      var ok, loaded := LoadMtl(dir + v[1], [], io);
      if !ok {
        return current, Some(Failed);
      }
      model.materials := model.materials + loaded;
    } else if kw == Some(Usemtl) {
      current' := current.(materialName := v[1]);
    } else if kw == Some(S) {
      if v[1] == "1" || v[0] == "on" {
        current' := current.(smooth := true);
      } else if v[1] == "0" || v[0] == "off" {
        current' := current.(smooth := false);
      }
    }
  }

  /** One iteration of the `load_obj` loop: skip the line, or split it and
      dispatch on its first token. */
  method ReadLine(model: Model, current: Obj, line: string, dir: string, io: Io)
      returns (current': Obj, stop: Option<Outcome>)
    requires ObjIndexable(line, dir, io)
    modifies model
    ensures match ObjLine(ObjState(old(model.Contents()), current), line, dir, io)
      case Next(n) => stop.None? && model.Contents() == n.model && current' == n.current
      case Stop(o) => stop == Some(o) && model.Contents() == old(model.Contents())
  {
    if Skipped(line) {
      return current, None;
    }
    current', stop := DispatchTokens(model, current, Split(line, ' '), dir, io);
  }

  /** `load_obj(path, model)`: false with the model untouched when the file
      does not open; otherwise the loop over its lines, pushing onto the
      caller's model, then the last object. The material files are looked up
      as the parent directory of `path` concatenated with the name given. */
  method LoadObj(path: string, model: Model, io: Io, parentPath: string -> string) returns (outcome: Outcome)
    requires io.files(path).Some? ==> AllObjIndexable(io.files(path).value, parentPath(path), io)
    modifies model
    ensures io.files(path).None? ==> outcome == Failed && model.Contents() == old(model.Contents())
    ensures io.files(path).Some? ==>
      ObjResult(outcome, model.Contents()) ==
        ObjRun(ObjState(old(model.Contents()), DefaultObj), io.files(path).value, parentPath(path), io)
  {
    var file := io.files(path);
    if file.None? {
      return Failed;
    }
    var lines := file.value;
    var dir := parentPath(path);
    var current := DefaultObj;
    var i := 0;
    while i < |lines|
      invariant 0 <= i <= |lines|
      invariant ObjRun(ObjState(model.Contents(), current), lines[i..], dir, io) ==
        ObjRun(ObjState(old(model.Contents()), DefaultObj), lines, dir, io)
    {
      assert lines[i..][1..] == lines[i + 1..];
      var stop;
      current, stop := ReadLine(model, current, lines[i], dir, io);
      if stop.Some? {
        return stop.value;
      }
      i := i + 1;
    }
    if !Untouched(current) {
      model.objects := model.objects + [current];
    }
    outcome := Loaded;
  }

  // ---------------------------------------------------------------- properties

  /** Empty lines and comments change nothing. */
  lemma ObjSkipsBlankAndComment(st: ObjState, line: string, dir: string, io: Io)
    requires Skipped(line)
    ensures ObjIndexable(line, dir, io) && ObjLine(st, line, dir, io) == Next(st)
  {
  }

  /** An `f` line fails exactly when it has other than four tokens, and
      otherwise appends its face to the current object. */
  lemma ObjFaceLine(st: ObjState, line: string, dir: string, io: Io)
    requires ObjIndexable(line, dir, io) && !Skipped(line) && Split(line, ' ')[0] == "f"
    ensures var v := Split(line, ' ');
      && (ObjLine(st, line, dir, io) == Stop(Failed) <==> |v| != 4)
      && (|v| == 4 ==>
            ObjLine(st, line, dir, io) ==
            Next(st.(current := st.current.(faces := st.current.faces + [ParseFace(v, io.stoi)]))))
  {
  }

  /** The four token shapes, for index texts free of `/`: `a` sets the vertex
      index only; `a/b` also the texture-coordinate index; `a//c` the normal
      index but not the texture-coordinate one; `a/b/c` all three. The
      other slots are left as they were. */
  lemma TokenShapes(f: Face, i: nat, a: string, b: string, c: string, stoi: string -> int)
    requires FaceShaped(f) && i < 3
    requires '/' !in a && '/' !in b && '/' !in c && b != ""
    ensures FaceSlot(f, i, a, stoi) == f.(vertices := f.vertices[i := stoi(a) - 1])
    ensures FaceSlot(f, i, a + "/" + b, stoi) ==
      f.(vertices := f.vertices[i := stoi(a) - 1], texCoords := Some(Lazy(f.texCoords)[i := stoi(b) - 1]))
    ensures FaceSlot(f, i, a + "//" + c, stoi) ==
      f.(vertices := f.vertices[i := stoi(a) - 1], normals := Some(Lazy(f.normals)[i := stoi(c) - 1]))
    ensures FaceSlot(f, i, a + "/" + b + "/" + c, stoi) ==
      f.(vertices := f.vertices[i := stoi(a) - 1],
         texCoords := Some(Lazy(f.texCoords)[i := stoi(b) - 1]),
         normals := Some(Lazy(f.normals)[i := stoi(c) - 1]))
  {
    SplitJoin([a], '/');
    assert Join([a, b], '/') == a + "/" + b by {
      assert [a, b][1..] == [b];
    }
    SplitJoin([a, b], '/');
    SplitDoubleSlash(a, c);
    assert Join([a, b, c], '/') == a + "/" + b + "/" + c by {
      assert [a, b, c][1..] == [b, c];
      assert [b, c][1..] == [c];
      assert Join([b, c], '/') == b + "/" + c;
      assert Join([a, b, c], '/') == a + "/" + (b + "/" + c);
    }
    SplitJoin([a, b, c], '/');
  }

  /** A token with more than two `/` writes nothing, so the slot keeps its
      default. */
  lemma UnknownShape(f: Face, i: nat, token: string, stoi: string -> int)
    requires FaceShaped(f) && i < 3 && Count(token, '/') > 2
    ensures FaceSlot(f, i, token, stoi) == f
  {
    SplitFacts(token, '/');
  }

  /** A face whose tokens have no `/` creates neither index vector. */
  lemma PlainFace(v: seq<string>, stoi: string -> int)
    requires |v| == 4 && '/' !in v[1] && '/' !in v[2] && '/' !in v[3]
    ensures ParseFace(v, stoi) == Face([stoi(v[1]) - 1, stoi(v[2]) - 1, stoi(v[3]) - 1], None, None)
  {
    SplitJoin([v[1]], '/');
    SplitJoin([v[2]], '/');
    SplitJoin([v[3]], '/');
    assert FaceUpTo(v, 1, stoi) == Face([stoi(v[1]) - 1, 0, 0], None, None);
    assert FaceUpTo(v, 2, stoi) == Face([stoi(v[1]) - 1, stoi(v[2]) - 1, 0], None, None);
  }

  /** `s` compares the keyword itself with "on" and "off", so only "1" and
      "0" change the smoothing flag. */
  lemma SmoothQuirk(st: ObjState, line: string, dir: string, io: Io)
    requires ObjIndexable(line, dir, io) && !Skipped(line) && Split(line, ' ')[0] == "s"
    ensures var v := Split(line, ' '); var r := ObjLine(st, line, dir, io);
      && r.Next? && r.st.model == st.model
      && r.st.current == st.current.(smooth := if v[1] == "1" then true else if v[1] == "0" then false else st.current.smooth)
  {
  }

  /** A `vt` line with four or more tokens writes index 3 of a vec3 and
      stops at its assertion; a `vn` line takes its z from a fourth token
      only when there are exactly four. */
  lemma CoordinateLines(st: ObjState, line: string, dir: string, io: Io)
    requires ObjIndexable(line, dir, io) && !Skipped(line)
    ensures var v := Split(line, ' ');
      v[0] == "vt" ==> (ObjLine(st, line, dir, io) == Stop(Aborted) <==> |v| >= 4)
    ensures var v := Split(line, ' '); var r := ObjLine(st, line, dir, io);
      v[0] == "vn" ==>
        r.Next? && r.st.model.normals ==
        st.model.normals + [Vec3(io.stof(v[1]), io.stof(v[2]), if |v| == 4 then io.stof(v[3]) else 0.0)]
  {
  }

  /** `mtllib` reads the file named by the directory and the file name with
      nothing between them, fails when that does not load, and otherwise
      appends the materials it read. */
  lemma MtllibLine(st: ObjState, line: string, dir: string, io: Io)
    requires ObjIndexable(line, dir, io) && !Skipped(line) && Split(line, ' ')[0] == "mtllib"
    ensures var v := Split(line, ' '); var file := io.files(dir + v[1]); var r := ObjLine(st, line, dir, io);
      && (file.None? ==> r == Stop(Failed))
      && (file.Some? ==>
            var res := MtlRun(MtlState([], None), file.value, io);
            (!res.ok ==> r == Stop(Failed)) &&
            (res.ok ==> r == Next(st.(model := st.model.(materials := st.model.materials + res.materials)))))
  {
  }

  /** `o` leaves an untouched default object in place as the current object,
      without emitting it; otherwise the current object is emitted and
      replaced by an unnamed empty object, which never counts as untouched.
      The name in the line is not used. */
  lemma NewObjectLine(st: ObjState, line: string, dir: string, io: Io)
    requires ObjIndexable(line, dir, io) && !Skipped(line) && Split(line, ' ')[0] == "o"
    ensures Untouched(st.current) ==> ObjLine(st, line, dir, io) == Next(st)
    ensures !Untouched(st.current) ==>
      ObjLine(st, line, dir, io) == Next(ObjState(st.model.(objects := st.model.objects + [st.current]), EmptyObj))
    ensures !Untouched(EmptyObj)
  {
  }

  /** The first step of a run unfolded. */
  lemma ObjRunStep(st: ObjState, lines: seq<string>, dir: string, io: Io)
    requires |lines| > 0 && AllObjIndexable(lines, dir, io)
    ensures AllObjIndexable(lines[1..], dir, io)
    ensures ObjLine(st, lines[0], dir, io).Stop? ==>
      ObjRun(st, lines, dir, io) == ObjResult(ObjLine(st, lines[0], dir, io).outcome, st.model)
    ensures ObjLine(st, lines[0], dir, io).Stop? ==> ObjRun(st, lines, dir, io).outcome != Loaded
    ensures ObjLine(st, lines[0], dir, io).Next? ==>
      ObjRun(st, lines, dir, io) == ObjRun(ObjLine(st, lines[0], dir, io).st, lines[1..], dir, io)
  {
  }

  /** Every vector of the model only grows. */
  predicate Grows(a: Tables, b: Tables)
  {
    a.vertices <= b.vertices && a.normals <= b.normals && a.texCoords <= b.texCoords &&
    a.objects <= b.objects && a.materials <= b.materials
  }

  lemma GrowsTransitive(a: Tables, b: Tables, c: Tables)
    requires Grows(a, b) && Grows(b, c)
    ensures Grows(a, c)
  {
  }

  lemma ObjLineGrows(st: ObjState, line: string, dir: string, io: Io)
    requires ObjIndexable(line, dir, io)
    ensures ObjLine(st, line, dir, io).Next? ==> Grows(st.model, ObjLine(st, line, dir, io).st.model)
  {
    if !Skipped(line) {
      DispatchFrame(st, Split(line, ' '), dir, io);
    }
  }

  /** Whatever the outcome, what the model held before stays in front: the
      loader only pushes, and a failing line pushes nothing. */
  lemma {:induction false} ObjRunExtends(st: ObjState, lines: seq<string>, dir: string, io: Io)
    requires AllObjIndexable(lines, dir, io)
    ensures Grows(st.model, ObjRun(st, lines, dir, io).model)
    decreases |lines|
  {
    if |lines| > 0 {
      ObjRunStep(st, lines, dir, io);
      var r := ObjLine(st, lines[0], dir, io);
      if r.Next? {
        ObjLineGrows(st, lines[0], dir, io);
        ObjRunExtends(r.st, lines[1..], dir, io);
        GrowsTransitive(st.model, r.st.model, ObjRun(r.st, lines[1..], dir, io).model);
      }
    }
  }

  /** The faces of a sequence of objects, concatenated. */
  function AllFaces(objs: seq<Obj>): seq<Face>
  {
    if |objs| == 0 then [] else AllFaces(objs[..|objs| - 1]) + objs[|objs| - 1].faces
  }

  lemma AllFacesPush(objs: seq<Obj>, o: Obj)
    ensures AllFaces(objs + [o]) == AllFaces(objs) + o.faces
  {
    assert (objs + [o])[..|objs|] == objs;
  }

  /** The face a line contributes: one for a well-formed `f` line. */
  function TokenFaces(v: seq<string>, stoi: string -> int): seq<Face>
  {
    if |v| == 4 && v[0] == "f" then [ParseFace(v, stoi)] else []
  }

  function LineFaces(line: string, stoi: string -> int): seq<Face>
  {
    if Skipped(line) then [] else TokenFaces(Split(line, ' '), stoi)
  }

  /** The faces of the `f` lines, in file order. */
  function FaceLines(lines: seq<string>, stoi: string -> int): seq<Face>
  {
    if |lines| == 0 then [] else LineFaces(lines[0], stoi) + FaceLines(lines[1..], stoi)
  }

  /** The faces held, in the emitted objects and then the current one. */
  function Held(st: ObjState): seq<Face>
  {
    AllFaces(st.model.objects) + st.current.faces
  }

  /** What a line other than `o` and `f` leaves alone. */
  lemma DispatchFrame(st: ObjState, v: seq<string>, dir: string, io: Io)
    requires TokensFit(v, dir, io)
    ensures var r := Dispatch(st, v, dir, io); var kw := ObjKeyword(v[0]);
      r.Next? ==>
        && Grows(st.model, r.st.model)
        && (kw != Some(O) ==> r.st.model.objects == st.model.objects && r.st.current.name == st.current.name)
        && (kw != Some(O) && kw != Some(F) ==> r.st.current.faces == st.current.faces)
        && (kw == Some(F) ==> r.st.current.faces == st.current.faces + TokenFaces(v, io.stoi))
  {
    match ObjKeyword(v[0])
    case None =>
    case Some(O) =>
    case Some(V) =>
    case Some(Vn) =>
    case Some(Vt) =>
    case Some(F) =>
    case Some(Mtllib) =>
    case Some(Usemtl) =>
    case Some(S) =>
  }

  lemma DispatchFaces(st: ObjState, v: seq<string>, dir: string, io: Io)
    requires TokensFit(v, dir, io)
    ensures Dispatch(st, v, dir, io).Next? ==>
      Held(Dispatch(st, v, dir, io).st) == Held(st) + TokenFaces(v, io.stoi)
  {
    DispatchFrame(st, v, dir, io);
    var r := Dispatch(st, v, dir, io);
    if r.Next? {
      if ObjKeyword(v[0]) == Some(O) {
        if !Untouched(st.current) {
          AllFacesPush(st.model.objects, st.current);
        }
      }
    }
  }

  lemma ObjLineFaces(st: ObjState, line: string, dir: string, io: Io)
    requires ObjIndexable(line, dir, io)
    ensures ObjLine(st, line, dir, io).Next? ==>
      Held(ObjLine(st, line, dir, io).st) == Held(st) + LineFaces(line, io.stoi)
  {
    if !Skipped(line) {
      DispatchFaces(st, Split(line, ' '), dir, io);
    }
  }

  lemma FaceLinesStep(lines: seq<string>, stoi: string -> int)
    requires |lines| > 0
    ensures FaceLines(lines, stoi) == LineFaces(lines[0], stoi) + FaceLines(lines[1..], stoi)
  {
  }

  /** On success the emitted objects hold, in order, the faces held at the
      start followed by the faces of the `f` lines in file order: the only
      object dropped is one without faces. */
  lemma {:induction false} ObjRunFaces(st: ObjState, lines: seq<string>, dir: string, io: Io)
    requires AllObjIndexable(lines, dir, io)
    ensures var r := ObjRun(st, lines, dir, io);
      r.outcome == Loaded ==> AllFaces(r.model.objects) == Held(st) + FaceLines(lines, io.stoi)
    decreases |lines|
  {
    if |lines| == 0 {
      FlushFaces(st);
    } else {
      ObjRunStep(st, lines, dir, io);
      var r := ObjLine(st, lines[0], dir, io);
      if r.Next? {
        ObjRunFaces(r.st, lines[1..], dir, io);
        ObjRunFacesStep(st, lines, dir, io);
      }
    }
  }

  /** The last object is emitted unless it is the untouched default one,
      which has no faces. */
  lemma FlushFaces(st: ObjState)
    ensures AllFaces(Flush(st).objects) == Held(st)
  {
    if !Untouched(st.current) {
      AllFacesPush(st.model.objects, st.current);
    }
  }

  /** The induction step of `ObjRunFaces`: from the rest of the lines to
      all of them. */
  lemma ObjRunFacesStep(st: ObjState, lines: seq<string>, dir: string, io: Io)
    requires |lines| > 0 && AllObjIndexable(lines, dir, io)
    requires ObjLine(st, lines[0], dir, io).Next?
    requires var n := ObjLine(st, lines[0], dir, io).st; var r := ObjRun(n, lines[1..], dir, io);
      r.outcome == Loaded ==> AllFaces(r.model.objects) == Held(n) + FaceLines(lines[1..], io.stoi)
    ensures var r := ObjRun(st, lines, dir, io);
      r.outcome == Loaded ==> AllFaces(r.model.objects) == Held(st) + FaceLines(lines, io.stoi)
  {
    ObjRunStep(st, lines, dir, io);
    ObjLineFaces(st, lines[0], dir, io);
    FaceLinesStep(lines, io.stoi);
    Associative(Held(st), LineFaces(lines[0], io.stoi), FaceLines(lines[1..], io.stoi));
  }

  /** `load_obj` on success: the faces of the objects it appended,
      concatenated, are exactly those of the `f` lines in file order. */
  lemma LoadObjFaces(m: Tables, lines: seq<string>, dir: string, io: Io)
    requires AllObjIndexable(lines, dir, io)
    ensures var r := ObjRun(ObjState(m, DefaultObj), lines, dir, io);
      r.outcome == Loaded ==>
        m.objects <= r.model.objects &&
        AllFaces(r.model.objects) == AllFaces(m.objects) + FaceLines(lines, io.stoi)
  {
    ObjRunExtends(ObjState(m, DefaultObj), lines, dir, io);
    ObjRunFaces(ObjState(m, DefaultObj), lines, dir, io);
    assert Held(ObjState(m, DefaultObj)) == AllFaces(m.objects);
  }

  /** The names the loader gives: the first object it emits is the default
      one, and every later one is unnamed. */
  predicate LoaderNames(added: seq<Obj>)
  {
    (forall k :: 0 < k < |added| ==> added[k].name == "") &&
    (|added| > 0 ==> added[0].name == "Default")
  }

  /** The naming invariant, for objects emitted after the first `base`. */
  predicate Naming(st: ObjState, base: nat)
  {
    base <= |st.model.objects| &&
    LoaderNames(st.model.objects[base..]) &&
    (st.current.name == "Default" || st.current.name == "") &&
    (|st.model.objects| == base ==> st.current.name == "Default") &&
    (|st.model.objects| > base ==> st.current.name == "")
  }

  lemma LoaderNamesPush(objs: seq<Obj>, base: nat, o: Obj)
    requires base <= |objs| && LoaderNames(objs[base..])
    requires o.name == "Default" || o.name == ""
    requires |objs| == base ==> o.name == "Default"
    requires |objs| > base ==> o.name == ""
    ensures LoaderNames((objs + [o])[base..])
  {
    assert (objs + [o])[base..] == objs[base..] + [o];
  }

  lemma DispatchNaming(st: ObjState, v: seq<string>, dir: string, io: Io, base: nat)
    requires TokensFit(v, dir, io) && Naming(st, base)
    ensures Dispatch(st, v, dir, io).Next? ==> Naming(Dispatch(st, v, dir, io).st, base)
  {
    if ObjKeyword(v[0]) == Some(O) && !Untouched(st.current) {
      LoaderNamesPush(st.model.objects, base, st.current);
    }
  }

  lemma ObjLineNaming(st: ObjState, line: string, dir: string, io: Io, base: nat)
    requires ObjIndexable(line, dir, io) && Naming(st, base)
    ensures ObjLine(st, line, dir, io).Next? ==> Naming(ObjLine(st, line, dir, io).st, base)
  {
    if !Skipped(line) {
      DispatchNaming(st, Split(line, ' '), dir, io, base);
    }
  }

  lemma {:induction false} ObjRunNaming(st: ObjState, lines: seq<string>, dir: string, io: Io, base: nat)
    requires AllObjIndexable(lines, dir, io) && Naming(st, base)
    ensures var r := ObjRun(st, lines, dir, io);
      r.outcome == Loaded ==> base <= |r.model.objects| && LoaderNames(r.model.objects[base..])
    decreases |lines|
  {
    if |lines| == 0 {
      if !Untouched(st.current) {
        LoaderNamesPush(st.model.objects, base, st.current);
      }
    } else {
      ObjRunStep(st, lines, dir, io);
      var r := ObjLine(st, lines[0], dir, io);
      if r.Next? {
        ObjLineNaming(st, lines[0], dir, io, base);
        ObjRunNaming(r.st, lines[1..], dir, io, base);
      }
    }
  }

  /** `load_obj` on success names no object from the file: of the objects
      it appends, the first is "Default" and all others are "". */
  lemma LoadObjNames(m: Tables, lines: seq<string>, dir: string, io: Io)
    requires AllObjIndexable(lines, dir, io)
    ensures var r := ObjRun(ObjState(m, DefaultObj), lines, dir, io);
      r.outcome == Loaded ==> |m.objects| <= |r.model.objects| && LoaderNames(r.model.objects[|m.objects|..])
  {
    ObjRunNaming(ObjState(m, DefaultObj), lines, dir, io, |m.objects|);
  }
}
