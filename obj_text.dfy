/** What the two Wavefront OBJ parsers (src/graphics/asset_loaders/obj.ts and
 *  src/graphics/assets/asset_loaders/obj.ts) share: JavaScript's `split`
 *  and `trim().split(/\s+/)` tokenising, the face-vertex table that gives
 *  every distinct `v/vt/vn` token one output vertex, quad triangulation and
 *  the `Uint16Array` the indices end in. Number parsing is a parameter. */
module ObjText {
  import opened Wrappers

  /** A JavaScript number as the parsers store it: a real or NaN (`undefined`
   *  stored into a `Float32Array` becomes NaN too). */
  datatype Scalar = Real(r: real) | NotANumber

  // ---------------------------------------------------------------- tokenising

  /** The characters of JavaScript's `WhiteSpace` and `LineTerminator`, which
   *  `trim` removes and `\s` matches. */
  predicate IsSpace(c: char)
  {
    c == '\t' || c == '\n' || c == '\U{000B}' || c == '\U{000C}' || c == '\r' || c == ' '
    || c == '\U{00A0}' || c == '\U{1680}' || ('\U{2000}' <= c <= '\U{200A}')
    || c == '\U{2028}' || c == '\U{2029}' || c == '\U{202F}' || c == '\U{205F}' || c == '\U{3000}'
    || c == '\U{FEFF}'
  }

  predicate NoSpace(s: string)
  {
    forall k :: 0 <= k < |s| ==> !IsSpace(s[k])
  }

  /** `s.split(sep)` for a one-character separator. */
  function Split(s: string, sep: char): (parts: seq<string>)
    ensures |parts| >= 1
    decreases |s|
  {
    if s == [] then [""]
    else
      var rest := Split(s[1..], sep);
      if s[0] == sep then [""] + rest else [[s[0]] + rest[0]] + rest[1..]
  }

  /** `parts.join(sep)`. */
  function Join(parts: seq<string>, sep: char): string
    requires |parts| >= 1
  {
    if |parts| == 1 then parts[0] else parts[0] + [sep] + Join(parts[1..], sep)
  }

  /** `split` cuts at every separator and loses nothing: the pieces hold no
   *  separator and join back to the string. */
  lemma {:induction false} SplitJoin(s: string, sep: char)
    ensures Join(Split(s, sep), sep) == s
    ensures forall k :: 0 <= k < |Split(s, sep)| ==> sep !in Split(s, sep)[k]
    decreases |s|
  {
    if s != [] {
      SplitJoin(s[1..], sep);
      var rest := Split(s[1..], sep);
      if s[0] == sep {
        assert ([""] + rest)[1..] == rest;
        assert s == [sep] + s[1..];
      } else {
        var parts := [[s[0]] + rest[0]] + rest[1..];
        forall k | 0 <= k < |parts|
          ensures sep !in parts[k]
        {
          if k == 0 {
            assert sep !in rest[0];
          } else {
            assert parts[k] == rest[k];
          }
        }
        if |rest| == 1 {
          assert s == [s[0]] + s[1..];
        } else {
          assert parts[1..] == rest[1..];
          assert Join(rest, sep) == rest[0] + [sep] + Join(rest[1..], sep);
          assert s == [s[0]] + s[1..];
        }
      }
    }
  }

  /** A string without the separator splits into itself alone. */
  lemma {:induction false} SplitWithout(s: string, sep: char)
    requires sep !in s
    ensures Split(s, sep) == [s]
    decreases |s|
  {
    if s != [] {
      SplitWithout(s[1..], sep);
      assert [s[0]] + s[1..] == s;
    }
  }

  /** The maximal runs of non-space characters of `s`, the first one
   *  continuing `word`. */
  function Runs(s: string, word: string): seq<string>
    decreases |s|
  {
    if s == [] then (if word == [] then [] else [word])
    else if IsSpace(s[0]) then (if word == [] then [] else [word]) + Runs(s[1..], [])
    else Runs(s[1..], word + [s[0]])
  }

  /** `s` with its white space removed. */
  function Squeezed(s: string): (t: string)
    ensures NoSpace(t)
  {
    if s == [] then []
    else if IsSpace(s[0]) then Squeezed(s[1..])
    else [s[0]] + Squeezed(s[1..])
  }

  function Concat(ws: seq<string>): string
  {
    if ws == [] then [] else ws[0] + Concat(ws[1..])
  }

  predicate Tokens(ws: seq<string>)
  {
    forall k :: 0 <= k < |ws| ==> ws[k] != [] && NoSpace(ws[k])
  }

  lemma {:induction false} ConcatAppend(a: seq<string>, b: seq<string>)
    ensures Concat(a + b) == Concat(a) + Concat(b)
    decreases |a|
  {
    if a != [] {
      assert (a + b)[1..] == a[1..] + b;
      ConcatAppend(a[1..], b);
    } else {
      assert a + b == b;
    }
  }

  /** Every run is a non-empty stretch without white space. */
  lemma {:induction false} RunsTokens(s: string, word: string)
    requires NoSpace(word)
    ensures Tokens(Runs(s, word))
    decreases |s|
  {
    if s != [] {
      if IsSpace(s[0]) {
        RunsTokens(s[1..], []);
        var head: seq<string> := if word == [] then [] else [word];
        assert Runs(s, word) == head + Runs(s[1..], []);
        assert Tokens(head);
      } else {
        assert NoSpace(word + [s[0]]);
        RunsTokens(s[1..], word + [s[0]]);
      }
    }
  }

  /** The runs spell out `word` followed by the non-space characters of `s`. */
  lemma {:induction false} RunsConcat(s: string, word: string)
    ensures Concat(Runs(s, word)) == word + Squeezed(s)
    decreases |s|
  {
    if s == [] {
      assert Concat([word]) == word + Concat([]);
    } else if IsSpace(s[0]) {
      RunsConcat(s[1..], []);
      var head: seq<string> := if word == [] then [] else [word];
      assert Runs(s, word) == head + Runs(s[1..], []);
      assert Squeezed(s) == Squeezed(s[1..]);
      ConcatAppend(head, Runs(s[1..], []));
      assert Concat([word]) == word + Concat([]);
    } else {
      RunsConcat(s[1..], word + [s[0]]);
      assert Squeezed(s) == [s[0]] + Squeezed(s[1..]);
      assert word + [s[0]] + Squeezed(s[1..]) == word + ([s[0]] + Squeezed(s[1..]));
    }
  }

  lemma {:induction false} RunsShape(s: string, word: string)
    requires NoSpace(word)
    ensures Tokens(Runs(s, word))
    ensures Concat(Runs(s, word)) == word + Squeezed(s)
  {
    RunsTokens(s, word);
    RunsConcat(s, word);
  }

  /** `line.trim().split(/\s+/)`: the words of the line, or `[""]` for a
   *  blank one; never empty. */
  function Words(line: string): (parts: seq<string>)
    ensures |parts| >= 1
  {
    var rs := Runs(line, []);
    if rs == [] then [""] else rs
  }

  /** A blank line splits into `[""]`; any other line into non-empty words
   *  without white space that spell out the line's other characters. */
  lemma WordsShape(line: string)
    ensures Words(line) == [""] <==> Squeezed(line) == []
    ensures Squeezed(line) != [] ==> Tokens(Words(line)) && Concat(Words(line)) == Squeezed(line)
  {
    RunsShape(line, []);
    var rs := Runs(line, []);
    if rs != [] {
      assert rs[0] != [];
      assert Concat(rs) == rs[0] + Concat(rs[1..]);
    }
  }

  // ---------------------------------------------------------------- the vertex table

  /** The arrays of `parse_obj`: the output `positions`, `normals`, `uvs` and
   *  `indices`, the `temp_*` tables of the `v`, `vn` and `vt` lines, and
   *  `vertex_map` from face-vertex token to index. */
  datatype Mesh = Mesh(
    positions: seq<Scalar>,
    normals: seq<Scalar>,
    uvs: seq<Scalar>,
    indices: seq<real>,
    vertices: seq<seq<Scalar>>,
    vertexNormals: seq<seq<Scalar>>,
    vertexUvs: seq<seq<Scalar>>,
    vertexMap: map<string, real>)

  const EmptyMesh := Mesh([], [], [], [], [], [], [], map[])

  /** `tokens.map(Number)`. */
  function Numbers(tokens: seq<string>, number: string -> Scalar): (ns: seq<Scalar>)
    ensures |ns| == |tokens|
  {
    seq(|tokens|, k requires 0 <= k < |tokens| => number(tokens[k]))
  }

  /** Element `k` of `fields.map(s => parseInt(s))`; `None` for NaN and for a
   *  missing field. */
  function Field(fields: seq<string>, k: nat, parseInt: string -> Option<int>): Option<int>
  {
    if k < |fields| then parseInt(fields[k]) else None
  }

  /** `table[index - 1]`, `None` where JavaScript reads `undefined`. */
  function Lookup(table: seq<seq<Scalar>>, index: Option<int>): (e: Option<seq<Scalar>>)
    ensures e.Some? <==> index.Some? && 1 <= index.value <= |table|
    ensures e.Some? ==> e.value == table[index.value - 1]
  {
    if index.Some? && 1 <= index.value <= |table| then Some(table[index.value - 1]) else None
  }

  /** `(positions.length / 3) - 1`. */
  function NewIndex(positionCount: nat): real
  {
    positionCount as real / 3.0 - 1.0
  }

  const DefaultUv: seq<Scalar> := [Real(0.0), Real(0.0)]
  const DefaultNormal: seq<Scalar> := [Real(0.0), Real(0.0), Real(0.0)]

  /** One face-vertex token: the index of a token seen before, or a new
   *  vertex from the tables. Spreading a missing position throws. */
  function FaceVertex(m: Mesh, token: string, parseInt: string -> Option<int>): Result<(Mesh, real)>
  {
    if token in m.vertexMap then Ok((m, m.vertexMap[token]))
    else
      var fields := Split(token, '/');
      var pos := Lookup(m.vertices, Field(fields, 0, parseInt));
      if pos.None? then Err(TypeError)
      else
        var uv := Lookup(m.vertexUvs, Field(fields, 1, parseInt));
        var normal := Lookup(m.vertexNormals, Field(fields, 2, parseInt));
        var positions := m.positions + pos.value;
        var index := NewIndex(|positions|);
        Ok((m.(positions := positions,
               uvs := m.uvs + (if uv.Some? then uv.value else DefaultUv),
               normals := m.normals + (if normal.Some? then normal.value else DefaultNormal),
               vertexMap := m.vertexMap[token := index]), index))
  }

  /** The `face_indices` of a face, token by token, stopping at the first throw. */
  function FaceVertices(m: Mesh, tokens: seq<string>, parseInt: string -> Option<int>): Result<(Mesh, seq<real>)>
    decreases |tokens|
  {
    if tokens == [] then Ok((m, []))
    else
      match FaceVertices(m, tokens[..|tokens| - 1], parseInt)
      case Err(e) => Err(e)
      case Ok((m1, face)) =>
        match FaceVertex(m1, tokens[|tokens| - 1], parseInt)
        case Err(e) => Err(e)
        case Ok((m2, index)) => Ok((m2, face + [index]))
  }

  /** A triangle as it is, a quad as (0,1,2),(0,2,3), anything else dropped. */
  function Triangulated(face: seq<real>): (ts: seq<real>)
    ensures |ts| % 3 == 0
    ensures forall k :: 0 <= k < |ts| ==> ts[k] in face
    ensures |face| == 3 || |face| == 4 <==> ts != []
  {
    if |face| == 3 then face
    else if |face| == 4 then [face[0], face[1], face[2], face[0], face[2], face[3]]
    else []
  }

  /** An `f` line: its vertices, then its triangles. */
  function FaceLine(m: Mesh, tokens: seq<string>, parseInt: string -> Option<int>): Result<Mesh>
  {
    match FaceVertices(m, tokens, parseInt)
    case Err(e) => Err(e)
    case Ok((m1, face)) => Ok(m1.(indices := m1.indices + Triangulated(face)))
  }

  /** Once a face throws at some token, the face throws with that error. */
  lemma {:induction false} FaceVerticesFailSticks(m: Mesh, tokens: seq<string>, parseInt: string -> Option<int>, k: nat)
    requires k <= |tokens| && FaceVertices(m, tokens[..k], parseInt).Err?
    ensures FaceVertices(m, tokens, parseInt) == FaceVertices(m, tokens[..k], parseInt)
    decreases |tokens| - k
  {
    if k < |tokens| {
      assert tokens[..k + 1][..k] == tokens[..k];
      FaceVerticesFailSticks(m, tokens, parseInt, k + 1);
    } else {
      assert tokens[..k] == tokens;
    }
  }

  /** One token of the face loop. */
  method ReadFaceVertex(m: Mesh, token: string, parseInt: string -> Option<int>) returns (r: Result<(Mesh, real)>)
    ensures r == FaceVertex(m, token, parseInt)
  {
    if token in m.vertexMap {
      return Ok((m, m.vertexMap[token]));
    }
    var fields := Split(token, '/');
    var pos := Lookup(m.vertices, Field(fields, 0, parseInt));
    if pos.None? {
      return Err(TypeError);
    }
    var mesh := m.(positions := m.positions + pos.value);
    var uv := Lookup(m.vertexUvs, Field(fields, 1, parseInt));
    if uv.Some? {
      mesh := mesh.(uvs := mesh.uvs + uv.value);
    } else {
      mesh := mesh.(uvs := mesh.uvs + [Real(0.0), Real(0.0)]);
    }
    var normal := Lookup(m.vertexNormals, Field(fields, 2, parseInt));
    if normal.Some? {
      mesh := mesh.(normals := mesh.normals + normal.value);
    } else {
      mesh := mesh.(normals := mesh.normals + [Real(0.0), Real(0.0), Real(0.0)]);
    }
    var index := (|mesh.positions| as real / 3.0) - 1.0;
    mesh := mesh.(vertexMap := mesh.vertexMap[token := index]);
    r := Ok((mesh, index));
  }

  /** The `case "f"` of `parse_obj`. */
  method ReadFace(m: Mesh, tokens: seq<string>, parseInt: string -> Option<int>) returns (r: Result<Mesh>)
    ensures r == FaceLine(m, tokens, parseInt)
  {
    var mesh := m;
    var faceIndices: seq<real> := [];
    var i := 0;
    while i < |tokens|
      invariant 0 <= i <= |tokens|
      invariant FaceVertices(m, tokens[..i], parseInt) == Ok((mesh, faceIndices))
    {
      assert tokens[..i + 1][..i] == tokens[..i];
      var next := ReadFaceVertex(mesh, tokens[i], parseInt);
      if next.Err? {
        FaceVerticesFailSticks(m, tokens, parseInt, i + 1);
        return Err(next.error);
      }
      mesh := next.value.0;
      faceIndices := faceIndices + [next.value.1];
      i := i + 1;
    }
    assert tokens[..i] == tokens;
    ghost var before := mesh;
    if |faceIndices| == 3 {
      mesh := mesh.(indices := mesh.indices + faceIndices);
    } else if |faceIndices| == 4 {
      mesh := mesh.(indices := mesh.indices + [faceIndices[0], faceIndices[1], faceIndices[2]]);
      mesh := mesh.(indices := mesh.indices + [faceIndices[0], faceIndices[2], faceIndices[3]]);
      assert mesh.indices == before.indices + Triangulated(faceIndices);
    } else {
      assert before.indices + Triangulated(faceIndices) == before.indices;
    }
    r := Ok(mesh);
  }

  // ---------------------------------------------------------------- what a face does

  /** `r` is one of the indices `0 .. n - 1`. */
  predicate IsIndex(r: real, n: nat)
  {
    r == r.Floor as real && 0.0 <= r < n as real
  }

  /** Every `v` entry has exactly three coordinates. */
  predicate Triples(table: seq<seq<Scalar>>)
  {
    forall k :: 0 <= k < |table| ==> |table[k]| == 3
  }

  /** The vertex bookkeeping: three coordinates per distinct token, the
   *  tokens numbered one-to-one by `0 .. n - 1`, and whole triangles of
   *  such numbers. */
  ghost predicate Counted(m: Mesh)
  {
    && |m.positions| == 3 * |m.vertexMap|
    && (forall t :: t in m.vertexMap ==> IsIndex(m.vertexMap[t], |m.vertexMap|))
    && (forall t, u :: t in m.vertexMap && u in m.vertexMap && t != u ==> m.vertexMap[t] != m.vertexMap[u])
    && |m.indices| % 3 == 0
    && (forall k :: 0 <= k < |m.indices| ==> IsIndex(m.indices[k], |m.vertexMap|))
  }

  /** The tables of the `v`, `vn` and `vt` lines are the same. */
  predicate SameTables(m: Mesh, m1: Mesh)
  {
    m1.vertices == m.vertices && m1.vertexNormals == m.vertexNormals && m1.vertexUvs == m.vertexUvs
  }

  /** A token seen before gives its index and changes nothing; a new one
   *  becomes vertex number `n` (the count so far), with the uv `(0, 0)` and
   *  the normal `(0, 0, 0)` when those are missing from the tables. */
  lemma FaceVertexCases(m: Mesh, token: string, parseInt: string -> Option<int>)
    requires Triples(m.vertices)
    ensures var r := FaceVertex(m, token, parseInt);
      var fields := Split(token, '/');
      && (token in m.vertexMap ==> r == Ok((m, m.vertexMap[token])))
      && (token !in m.vertexMap ==>
            && (r.Ok? <==> Lookup(m.vertices, Field(fields, 0, parseInt)).Some?)
            && (r.Ok? ==>
                  var (m1, index) := r.value;
                  && index == |m.positions| as real / 3.0
                  && m1.vertexMap == m.vertexMap[token := index]
                  && |m1.positions| == |m.positions| + 3
                  && (Lookup(m.vertexUvs, Field(fields, 1, parseInt)).None? ==> m1.uvs == m.uvs + [Real(0.0), Real(0.0)])
                  && (Lookup(m.vertexNormals, Field(fields, 2, parseInt)).None? ==>
                        m1.normals == m.normals + [Real(0.0), Real(0.0), Real(0.0)])))
  {
  }

  /** Every entry of `face` is one of the indices `0 .. n - 1`. */
  predicate IndicesBelow(face: seq<real>, n: nat)
  {
    forall k :: 0 <= k < |face| ==> IsIndex(face[k], n)
  }

  lemma IndicesBelowGrow(face: seq<real>, n: nat, n1: nat)
    requires IndicesBelow(face, n) && n <= n1
    ensures IndicesBelow(face, n1)
  {
  }

  /** `m1` keeps the tables, the triangles and every token's index of `m`. */
  predicate Extends(m: Mesh, m1: Mesh)
  {
    && SameTables(m, m1) && m1.indices == m.indices
    && (forall t :: t in m.vertexMap ==> t in m1.vertexMap && m1.vertexMap[t] == m.vertexMap[t])
  }

  lemma ExtendsTrans(m: Mesh, m1: Mesh, m2: Mesh)
    requires Extends(m, m1) && Extends(m1, m2)
    ensures Extends(m, m2)
  {
  }

  /** The distinct tokens of a face. */
  function TokenSet(tokens: seq<string>): set<string>
  {
    if tokens == [] then {} else TokenSet(tokens[..|tokens| - 1]) + {tokens[|tokens| - 1]}
  }

  lemma {:induction false} TokenSetMembers(tokens: seq<string>)
    ensures forall t :: t in TokenSet(tokens) <==> t in tokens
  {
    if tokens != [] {
      var init := tokens[..|tokens| - 1];
      TokenSetMembers(init);
      assert tokens == init + [tokens[|tokens| - 1]];
    }
  }

  /** One face vertex keeps the bookkeeping and returns a valid index, and
   *  only a new token adds a vertex. */
  lemma FaceVertexCounted(m: Mesh, token: string, parseInt: string -> Option<int>)
    requires Counted(m) && Triples(m.vertices)
    ensures var r := FaceVertex(m, token, parseInt);
      r.Ok? ==>
        && Counted(r.value.0) && Extends(m, r.value.0)
        && IsIndex(r.value.1, |r.value.0.vertexMap|)
        && r.value.0.vertexMap.Keys == m.vertexMap.Keys + {token}
        && (token !in m.vertexMap ==> r.value.1 == |m.vertexMap| as real && |r.value.0.vertexMap| == |m.vertexMap| + 1)
  {
    var r := FaceVertex(m, token, parseInt);
    if r.Ok? && token !in m.vertexMap {
      var m1 := r.value.0;
      var index := r.value.1;
      var n := |m.vertexMap|;
      assert |m1.positions| == 3 * n + 3;
      assert index == n as real;
      assert |m1.vertexMap| == n + 1;
      forall t | t in m1.vertexMap
        ensures IsIndex(m1.vertexMap[t], n + 1)
      {
        if t != token {
          assert IsIndex(m.vertexMap[t], n);
        }
      }
      forall t, u | t in m1.vertexMap && u in m1.vertexMap && t != u
        ensures m1.vertexMap[t] != m1.vertexMap[u]
      {
        if t != token && u != token {
          assert m.vertexMap[t] != m.vertexMap[u];
        } else if t == token {
          assert IsIndex(m.vertexMap[u], n);
        } else {
          assert IsIndex(m.vertexMap[t], n);
        }
      }
      assert IndicesBelow(m.indices, n);
      IndicesBelowGrow(m.indices, n, n + 1);
    }
  }

  /** A face's tokens are exactly the keys it adds, one index per token. */
  lemma {:induction false} FaceVerticesKeys(m: Mesh, tokens: seq<string>, parseInt: string -> Option<int>)
    ensures var r := FaceVertices(m, tokens, parseInt);
      r.Ok? ==> |r.value.1| == |tokens| && r.value.0.vertexMap.Keys == m.vertexMap.Keys + TokenSet(tokens)
    decreases |tokens|
  {
    var r := FaceVertices(m, tokens, parseInt);
    if tokens != [] && r.Ok? {
      var init := tokens[..|tokens| - 1];
      FaceVerticesKeys(m, init, parseInt);
    }
  }

  /** A face keeps the bookkeeping and the old tokens' indices. */
  lemma {:induction false} FaceVerticesExtend(m: Mesh, tokens: seq<string>, parseInt: string -> Option<int>)
    requires Counted(m) && Triples(m.vertices)
    ensures var r := FaceVertices(m, tokens, parseInt);
      r.Ok? ==> Counted(r.value.0) && Extends(m, r.value.0)
    decreases |tokens|
  {
    var r := FaceVertices(m, tokens, parseInt);
    if tokens != [] && r.Ok? {
      var init := tokens[..|tokens| - 1];
      var last := tokens[|tokens| - 1];
      FaceVerticesExtend(m, init, parseInt);
      var m1 := FaceVertices(m, init, parseInt).value.0;
      FaceVertexCounted(m1, last, parseInt);
      ExtendsTrans(m, m1, FaceVertex(m1, last, parseInt).value.0);
    }
  }

  /** Every index a face collects is a vertex of the table after it. */
  lemma {:induction false} FaceVerticesBelow(m: Mesh, tokens: seq<string>, parseInt: string -> Option<int>)
    requires Counted(m) && Triples(m.vertices)
    ensures var r := FaceVertices(m, tokens, parseInt);
      r.Ok? ==> IndicesBelow(r.value.1, |r.value.0.vertexMap|)
    decreases |tokens|
  {
    var r := FaceVertices(m, tokens, parseInt);
    if tokens != [] && r.Ok? {
      var init := tokens[..|tokens| - 1];
      var last := tokens[|tokens| - 1];
      FaceVerticesBelow(m, init, parseInt);
      FaceVerticesExtend(m, init, parseInt);
      var before := FaceVertices(m, init, parseInt).value;
      var m1 := before.0;
      FaceVertexCounted(m1, last, parseInt);
      var after := FaceVertex(m1, last, parseInt).value;
      assert r.value == (after.0, before.1 + [after.1]);
      IndicesBelowGrow(before.1, |m1.vertexMap|, |after.0.vertexMap|);
      assert forall k :: 0 <= k < |before.1| ==> (before.1 + [after.1])[k] == before.1[k];
    }
  }

  /** Adding the triangles of a face of valid indices keeps the bookkeeping. */
  lemma AddTriangles(m: Mesh, face: seq<real>)
    requires Counted(m) && IndicesBelow(face, |m.vertexMap|)
    ensures Counted(m.(indices := m.indices + Triangulated(face)))
  {
    var ts := Triangulated(face);
    var m1 := m.(indices := m.indices + ts);
    assert m1.vertexMap == m.vertexMap && m1.positions == m.positions;
    forall k | 0 <= k < |m1.indices|
      ensures IsIndex(m1.indices[k], |m.vertexMap|)
    {
      if k >= |m.indices| {
        assert ts[k - |m.indices|] in face;
      } else {
        assert m1.indices[k] == m.indices[k];
      }
    }
  }

  /** An `f` line keeps the bookkeeping and adds only whole triangles of its
   *  own vertices. */
  lemma FaceLineCounted(m: Mesh, tokens: seq<string>, parseInt: string -> Option<int>)
    requires Counted(m) && Triples(m.vertices)
    ensures var r := FaceLine(m, tokens, parseInt);
      r.Ok? ==> Counted(r.value) && SameTables(m, r.value)
                && r.value.vertexMap.Keys == m.vertexMap.Keys + TokenSet(tokens)
                && |r.value.indices| - |m.indices| == (if |tokens| == 3 then 3 else if |tokens| == 4 then 6 else 0)
  {
    var v := FaceVertices(m, tokens, parseInt);
    if v.Ok? {
      FaceVerticesKeys(m, tokens, parseInt);
      FaceVerticesExtend(m, tokens, parseInt);
      FaceVerticesBelow(m, tokens, parseInt);
      AddTriangles(v.value.0, v.value.1);
    }
  }

  // ---------------------------------------------------------------- Uint16Array

  /** ECMAScript ToIntegerOrInfinity on a finite number: toward zero. */
  function Trunc(r: real): (i: int)
    ensures (i as real) <= r || r < 0.0
  {
    if r >= 0.0 then r.Floor else -((-r).Floor)
  }

  /** ECMAScript ToUint16 of a finite number. */
  function ToUint16(r: real): (u: nat)
    ensures u < 65536
  {
    Trunc(r) % 65536
  }

  /** `new Uint16Array(indices)`. */
  function Uint16Array(xs: seq<real>): (us: seq<nat>)
    ensures |us| == |xs|
  {
    seq(|xs|, k requires 0 <= k < |xs| => ToUint16(xs[k]))
  }

  /** An index is stored as it is below 65536 and wraps modulo 65536 above,
   *  and it is never pushed above what it was. */
  lemma Uint16OfIndex(r: real, n: nat)
    requires IsIndex(r, n)
    ensures ToUint16(r) == r.Floor % 65536 && ToUint16(r) as real <= r
    ensures n <= 65536 ==> ToUint16(r) as real == r
  {
  }

  /** Vertex 65536 is stored as vertex 0. */
  lemma Uint16Collides()
    ensures ToUint16(65536.0) == ToUint16(0.0) == 0
  {
  }
}
