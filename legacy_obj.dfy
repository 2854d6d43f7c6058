/** The older Wavefront OBJ parser, `parse_obj` of
 *  src/graphics/asset_loaders/obj.ts: every number of a `v` line is stored,
 *  and there is no bounding box. */
module LegacyObjLoader {
  import opened Wrappers
  import opened ObjText

  /** One line of the loop, already split into words. */
  function LineStep(m: Mesh, parts: seq<string>, number: string -> Scalar, parseInt: string -> Option<int>): Result<Mesh>
  {
    if |parts| == 0 then Ok(m)
    else if parts[0] == "v" then Ok(m.(vertices := m.vertices + [Numbers(parts[1..], number)]))
    else if parts[0] == "vn" then Ok(m.(vertexNormals := m.vertexNormals + [Numbers(parts[1..], number)]))
    else if parts[0] == "vt" then Ok(m.(vertexUvs := m.vertexUvs + [Numbers(parts[1..], number)]))
    else if parts[0] == "f" then FaceLine(m, parts[1..], parseInt)
    else Ok(m)
  }

  /** The loop over `lines`, stopping at the first throw. */
  function RunLines(m: Mesh, lines: seq<string>, number: string -> Scalar, parseInt: string -> Option<int>): Result<Mesh>
    decreases |lines|
  {
    if lines == [] then Ok(m)
    else
      match RunLines(m, lines[..|lines| - 1], number, parseInt)
      case Err(e) => Err(e)
      case Ok(m1) => LineStep(m1, Words(lines[|lines| - 1]), number, parseInt)
  }

  /** What `parse_obj` resolves to. */
  datatype ObjData = ObjData(vertices: seq<Scalar>, normals: seq<Scalar>, uvs: seq<Scalar>, indices: seq<nat>)

  function Parse(text: string, number: string -> Scalar, parseInt: string -> Option<int>): Result<ObjData>
  {
    match RunLines(EmptyMesh, Split(text, '\n'), number, parseInt)
    case Err(e) => Err(e)
    case Ok(m) => Ok(ObjData(m.positions, m.normals, m.uvs, Uint16Array(m.indices)))
  }

  /** Once a line throws, the rest of the text is not read; the same fact as
   *  `ObjLoader.RunFailSticks`, for this loader's box-less state. */
  lemma {:induction false} RunFailSticks(m: Mesh, lines: seq<string>, number: string -> Scalar, parseInt: string -> Option<int>, k: nat)
    requires k <= |lines| && RunLines(m, lines[..k], number, parseInt).Err?
    ensures RunLines(m, lines, number, parseInt) == RunLines(m, lines[..k], number, parseInt)
    decreases |lines| - k
  {
    if k < |lines| {
      assert lines[..k + 1][..k] == lines[..k];
      RunFailSticks(m, lines, number, parseInt, k + 1);
    } else {
      assert lines[..k] == lines;
    }
  }

  /** One line of `parse_obj`'s loop. */
  method ReadLine(m: Mesh, parts: seq<string>, number: string -> Scalar, parseInt: string -> Option<int>) returns (r: Result<Mesh>)
    ensures r == LineStep(m, parts, number, parseInt)
  {
    if |parts| == 0 {
      return Ok(m);
    }
    var mesh := m;
    if parts[0] == "v" {
      mesh := mesh.(vertices := mesh.vertices + [Numbers(parts[1..], number)]);
    } else if parts[0] == "vn" {
      mesh := mesh.(vertexNormals := mesh.vertexNormals + [Numbers(parts[1..], number)]);
    } else if parts[0] == "vt" {
      mesh := mesh.(vertexUvs := mesh.vertexUvs + [Numbers(parts[1..], number)]);
    } else if parts[0] == "f" {
      r := ReadFace(mesh, parts[1..], parseInt);
      return;
    }
    r := Ok(mesh);
  }

  /** `parse_obj`. */
  method ParseObj(text: string, number: string -> Scalar, parseInt: string -> Option<int>) returns (r: Result<ObjData>)
    ensures r == Parse(text, number, parseInt)
  {
    var lines := Split(text, '\n');
    var mesh := EmptyMesh;
    var i := 0;
    while i < |lines|
      invariant 0 <= i <= |lines|
      invariant RunLines(EmptyMesh, lines[..i], number, parseInt) == Ok(mesh)
    {
      assert lines[..i + 1][..i] == lines[..i];
      var next := ReadLine(mesh, Words(lines[i]), number, parseInt);
      if next.Err? {
        RunFailSticks(EmptyMesh, lines, number, parseInt, i + 1);
        return Err(next.error);
      }
      mesh := next.value;
      i := i + 1;
    }
    assert lines[..i] == lines;
    r := Ok(ObjData(mesh.positions, mesh.normals, mesh.uvs, Uint16Array(mesh.indices)));
  }

  // ---------------------------------------------------------------- properties

  /** A line whose first word is none of `v`, `vn`, `vt`, `f` changes nothing. */
  lemma UnknownLineIgnored(m: Mesh, parts: seq<string>, number: string -> Scalar, parseInt: string -> Option<int>)
    requires |parts| >= 1 && parts[0] != "v" && parts[0] != "vn" && parts[0] != "vt" && parts[0] != "f"
    ensures LineStep(m, parts, number, parseInt) == Ok(m)
  {
  }

  /** A `v` line stores every number on it, however many there are. */
  lemma VertexLineStoresAll(m: Mesh, parts: seq<string>, number: string -> Scalar, parseInt: string -> Option<int>)
    requires |parts| >= 1 && parts[0] == "v"
    ensures var r := LineStep(m, parts, number, parseInt);
      && r.Ok? && r.value.vertices[..|m.vertices|] == m.vertices && |r.value.vertices| == |m.vertices| + 1
      && |r.value.vertices[|m.vertices|]| == |parts| - 1
      && (forall k :: 1 <= k < |parts| ==> r.value.vertices[|m.vertices|][k - 1] == number(parts[k]))
  {
  }

  /** Every `v` line of the text has exactly three numbers. */
  predicate ThreeNumberVertices(lines: seq<string>)
  {
    forall k :: 0 <= k < |lines| && Words(lines[k])[0] == "v" ==> |Words(lines[k])| == 4
  }

  /** When every `v` line has exactly three numbers the bookkeeping of the
   *  newer parser holds here too. */
  lemma {:induction false} RunCounted(m: Mesh, lines: seq<string>, number: string -> Scalar, parseInt: string -> Option<int>)
    requires Counted(m) && Triples(m.vertices) && ThreeNumberVertices(lines)
    ensures var r := RunLines(m, lines, number, parseInt);
      r.Ok? ==> Counted(r.value) && Triples(r.value.vertices)
    decreases |lines|
  {
    if lines != [] {
      var init := lines[..|lines| - 1];
      var parts := Words(lines[|lines| - 1]);
      assert ThreeNumberVertices(init) by {
        forall k | 0 <= k < |init| && Words(init[k])[0] == "v"
          ensures |Words(init[k])| == 4
        {
          assert init[k] == lines[k];
        }
      }
      RunCounted(m, init, number, parseInt);
      var r1 := RunLines(m, init, number, parseInt);
      if r1.Ok? && parts[0] == "f" {
        FaceLineCounted(r1.value, parts[1..], parseInt);
      }
    }
  }

  lemma VertexLine(m: Mesh, w: seq<string>, number: string -> Scalar, parseInt: string -> Option<int>)
    ensures LineStep(m, ["v"] + w, number, parseInt) == Ok(m.(vertices := m.vertices + [Numbers(w, number)]))
  {
    assert (["v"] + w)[1..] == w;
  }

  /** A token with no `/` whose number is `i` is a new vertex from entry `i`,
   *  indexed by the position count after it over three, minus one. */
  lemma NewPlainVertex(m: Mesh, t: string, i: int, parseInt: string -> Option<int>)
    requires '/' !in t && parseInt(t) == Some(i) && 1 <= i <= |m.vertices| && t !in m.vertexMap
    ensures FaceVertex(m, t, parseInt).Ok?
    ensures var (m1, index) := FaceVertex(m, t, parseInt).value;
      && |m1.positions| == |m.positions| + |m.vertices[i - 1]|
      && index == (|m.positions| + |m.vertices[i - 1]|) as real / 3.0 - 1.0
      && m1.vertices == m.vertices && m1.vertexMap == m.vertexMap[t := index]
  {
    SplitWithout(t, '/');
  }

  /** One more token on a face whose tokens so far were accepted. */
  lemma FaceVerticesSnoc(m: Mesh, tokens: seq<string>, t: string, parseInt: string -> Option<int>)
    requires FaceVertices(m, tokens, parseInt).Ok?
    requires FaceVertex(FaceVertices(m, tokens, parseInt).value.0, t, parseInt).Ok?
    ensures var f := FaceVertices(m, tokens, parseInt).value;
      var g := FaceVertex(f.0, t, parseInt).value;
      FaceVertices(m, tokens + [t], parseInt) == Ok((g.0, f.1 + [g.1]))
  {
    var u := tokens + [t];
    assert u[..|u| - 1] == tokens && u[|u| - 1] == t;
  }

  lemma ThreeTokens(m: Mesh, t1: string, t2: string, t3: string, parseInt: string -> Option<int>)
    requires FaceVertex(m, t1, parseInt).Ok?
    requires FaceVertex(FaceVertex(m, t1, parseInt).value.0, t2, parseInt).Ok?
    requires FaceVertex(FaceVertex(FaceVertex(m, t1, parseInt).value.0, t2, parseInt).value.0, t3, parseInt).Ok?
    ensures var a := FaceVertex(m, t1, parseInt).value;
      var b := FaceVertex(a.0, t2, parseInt).value;
      var c := FaceVertex(b.0, t3, parseInt).value;
      FaceVertices(m, [t1, t2, t3], parseInt) == Ok((c.0, [a.1, b.1, c.1]))
  {
    var a := FaceVertex(m, t1, parseInt).value;
    var b := FaceVertex(a.0, t2, parseInt).value;
    var c := FaceVertex(b.0, t3, parseInt).value;
    FaceVerticesSnoc(m, [], t1, parseInt);
    assert [] + [t1] == [t1] && [] + [a.1] == [a.1];
    FaceVerticesSnoc(m, [t1], t2, parseInt);
    assert [t1] + [t2] == [t1, t2] && [a.1] + [b.1] == [a.1, b.1];
    FaceVerticesSnoc(m, [t1, t2], t3, parseInt);
    assert [t1, t2] + [t3] == [t1, t2, t3] && [a.1, b.1] + [c.1] == [a.1, b.1, c.1];
  }

  /** Three `v` lines of four numbers each. */
  lemma ThreeFourNumberLines(w: seq<string>, number: string -> Scalar, parseInt: string -> Option<int>)
    ensures var v := ["v"] + w;
      var ns := Numbers(w, number);
      && LineStep(EmptyMesh, v, number, parseInt) == Ok(EmptyMesh.(vertices := [ns]))
      && LineStep(EmptyMesh.(vertices := [ns]), v, number, parseInt) == Ok(EmptyMesh.(vertices := [ns, ns]))
      && LineStep(EmptyMesh.(vertices := [ns, ns]), v, number, parseInt) == Ok(EmptyMesh.(vertices := [ns, ns, ns]))
  {
    var ns := Numbers(w, number);
    VertexLine(EmptyMesh, w, number, parseInt);
    assert EmptyMesh.vertices + [ns] == [ns];
    VertexLine(EmptyMesh.(vertices := [ns]), w, number, parseInt);
    assert [ns] + [ns] == [ns, ns];
    VertexLine(EmptyMesh.(vertices := [ns, ns]), w, number, parseInt);
    assert [ns, ns] + [ns] == [ns, ns, ns];
  }

  /** The triangle over those three vertices. */
  lemma TriangleOverFourNumberLines(ns: seq<Scalar>, t1: string, t2: string, t3: string, parseInt: string -> Option<int>)
    requires |ns| == 4
    requires '/' !in t1 && '/' !in t2 && '/' !in t3 && t1 != t2 && t1 != t3 && t2 != t3
    requires parseInt(t1) == Some(1) && parseInt(t2) == Some(2) && parseInt(t3) == Some(3)
    ensures var r := FaceLine(EmptyMesh.(vertices := [ns, ns, ns]), [t1, t2, t3], parseInt);
      && r.Ok? && r.value.indices == [1.0 / 3.0, 5.0 / 3.0, 3.0]
      && |r.value.vertexMap| == 3 && |r.value.positions| == 12
  {
    var m3 := EmptyMesh.(vertices := [ns, ns, ns]);
    NewPlainVertex(m3, t1, 1, parseInt);
    var a := FaceVertex(m3, t1, parseInt).value;
    NewPlainVertex(a.0, t2, 2, parseInt);
    var b := FaceVertex(a.0, t2, parseInt).value;
    NewPlainVertex(b.0, t3, 3, parseInt);
    ThreeTokens(m3, t1, t2, t3, parseInt);
  }

  /** A `v` line with four numbers (the optional `w` of the OBJ format) puts
   *  four numbers into `positions`, so `(positions.length / 3) - 1` stops
   *  counting vertices: after three such lines a triangle over them gets
   *  the raw indices 1/3, 5/3 and 3, stored as 0, 1 and 3, while only three
   *  vertices (numbered 0, 1, 2 by the newer parser) were made. */
  lemma FourNumberVerticesMisindex(w: seq<string>, t1: string, t2: string, t3: string,
                                   number: string -> Scalar, parseInt: string -> Option<int>)
    requires |w| == 4
    requires '/' !in t1 && '/' !in t2 && '/' !in t3 && t1 != t2 && t1 != t3 && t2 != t3
    requires parseInt(t1) == Some(1) && parseInt(t2) == Some(2) && parseInt(t3) == Some(3)
    ensures var v := ["v"] + w;
      var m1 := LineStep(EmptyMesh, v, number, parseInt);
      var m2 := LineStep(m1.value, v, number, parseInt);
      var m3 := LineStep(m2.value, v, number, parseInt);
      var r := LineStep(m3.value, ["f", t1, t2, t3], number, parseInt);
      && m1.Ok? && m2.Ok? && m3.Ok? && r.Ok?
      && r.value.indices == [1.0 / 3.0, 5.0 / 3.0, 3.0]
      && Uint16Array(r.value.indices) == [0, 1, 3]
      && |r.value.vertexMap| == 3 && |r.value.positions| == 12
  {
    var ns := Numbers(w, number);
    ThreeFourNumberLines(w, number, parseInt);
    var m3 := EmptyMesh.(vertices := [ns, ns, ns]);
    TriangleOverFourNumberLines(ns, t1, t2, t3, parseInt);
    FaceLineStep(m3, t1, t2, t3, number, parseInt);
    MisindexStored();
  }

  lemma FaceLineStep(m: Mesh, t1: string, t2: string, t3: string, number: string -> Scalar, parseInt: string -> Option<int>)
    ensures LineStep(m, ["f", t1, t2, t3], number, parseInt) == FaceLine(m, [t1, t2, t3], parseInt)
  {
    assert ["f", t1, t2, t3][1..] == [t1, t2, t3];
  }

  lemma MisindexStored()
    ensures Uint16Array([1.0 / 3.0, 5.0 / 3.0, 3.0]) == [0, 1, 3]
  {
    assert ToUint16(1.0 / 3.0) == 0 && ToUint16(5.0 / 3.0) == 1 && ToUint16(3.0) == 3;
  }
}
