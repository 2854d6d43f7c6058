/** The newer Wavefront OBJ parser, `parse_obj` of
 *  src/graphics/assets/asset_loaders/obj.ts: three coordinates per `v` line
 *  and a bounding box over them. */
module ObjLoader {
  import opened Wrappers
  import opened ObjText

  datatype Triple = Triple(x: real, y: real, z: real)

  /** Component `k` of a triple: 0 is x, 1 is y, 2 is z. */
  function Get(t: Triple, k: nat): real
    requires k < 3
  {
    if k == 0 then t.x else if k == 1 then t.y else t.z
  }

  /** `Number.MAX_VALUE`, (2^53 - 1) * 2^971. */
  const MAX_VALUE: real := 179769313486231570814527423731704356798070567525844996598917476803157260780028538760589558632766878171540458953514382464234321326889464182768467546703537516986049910576551282076245490090389328944075868508455133942304583236903222948165808559332123348274797826204144723168738177180919299881250404026184124858368.0

  /** `Number.MIN_VALUE`, 2^-1074: the least POSITIVE double. */
  const MIN_VALUE: real := 1.0 / 202402253307310618352495346718917307049556649764142118356901358027430339567995346891960383701437124495187077864316811911389808737385793476867013399940738509921517424276566361364466907742093216341239767678472745068562007483424692698618103355649159556340810056512358769552333414615230502532186327508646006263307707741093494784.0

  /** The running `min_*` and `max_*`. */
  datatype Box = Box(lo: Triple, hi: Triple)

  /** The box as the source starts it: the maxima start at `Number.MIN_VALUE`. */
  const BoxAsWritten := Box(Triple(MAX_VALUE, MAX_VALUE, MAX_VALUE), Triple(MIN_VALUE, MIN_VALUE, MIN_VALUE))

  /** The box as evidently intended: the maxima start at `-Number.MAX_VALUE`. */
  const StartBox := Box(Triple(MAX_VALUE, MAX_VALUE, MAX_VALUE), Triple(-MAX_VALUE, -MAX_VALUE, -MAX_VALUE))

  /** `v < m ? v : m`; a NaN never compares. */
  function Lower(m: real, v: Scalar): real
  {
    if v.Real? && v.r < m then v.r else m
  }

  /** `v > m ? v : m`. */
  function Upper(m: real, v: Scalar): real
  {
    if v.Real? && v.r > m then v.r else m
  }

  function Widen(b: Box, x: Scalar, y: Scalar, z: Scalar): Box
  {
    Box(Triple(Lower(b.lo.x, x), Lower(b.lo.y, y), Lower(b.lo.z, z)),
        Triple(Upper(b.hi.x, x), Upper(b.hi.y, y), Upper(b.hi.z, z)))
  }

  /** Element `k` of `parts.slice(1).map(Number)` in `const [x, y, z] = ...`;
   *  a missing one is `undefined`, which compares like NaN and is stored as NaN. */
  function Coordinate(ns: seq<Scalar>, k: nat): Scalar
  {
    if k < |ns| then ns[k] else NotANumber
  }

  datatype State = State(mesh: Mesh, box: Box)

  /** One line of the loop, already split into words. */
  function LineStep(st: State, parts: seq<string>, number: string -> Scalar, parseInt: string -> Option<int>): Result<State>
  {
    if |parts| == 0 then Ok(st)
    else if parts[0] == "v" then
      var ns := Numbers(parts[1..], number);
      var x, y, z := Coordinate(ns, 0), Coordinate(ns, 1), Coordinate(ns, 2);
      Ok(State(st.mesh.(vertices := st.mesh.vertices + [[x, y, z]]), Widen(st.box, x, y, z)))
    else if parts[0] == "vn" then
      Ok(st.(mesh := st.mesh.(vertexNormals := st.mesh.vertexNormals + [Numbers(parts[1..], number)])))
    else if parts[0] == "vt" then
      Ok(st.(mesh := st.mesh.(vertexUvs := st.mesh.vertexUvs + [Numbers(parts[1..], number)])))
    else if parts[0] == "f" then
      match FaceLine(st.mesh, parts[1..], parseInt)
      case Err(e) => Err(e)
      case Ok(m) => Ok(st.(mesh := m))
    else Ok(st)
  }

  /** The loop over `lines`, stopping at the first throw. */
  function RunLines(st: State, lines: seq<string>, number: string -> Scalar, parseInt: string -> Option<int>): Result<State>
    decreases |lines|
  {
    if lines == [] then Ok(st)
    else
      match RunLines(st, lines[..|lines| - 1], number, parseInt)
      case Err(e) => Err(e)
      case Ok(s1) => LineStep(s1, Words(lines[|lines| - 1]), number, parseInt)
  }

  /** What `parse_obj` resolves to. */
  datatype ObjData = ObjData(
    vertices: seq<Scalar>, normals: seq<Scalar>, uvs: seq<Scalar>, indices: seq<nat>,
    dimensions: Triple, center: Triple)

  function Output(st: State): ObjData
  {
    var b := st.box;
    ObjData(st.mesh.positions, st.mesh.normals, st.mesh.uvs, Uint16Array(st.mesh.indices),
            Triple(b.hi.x - b.lo.x, b.hi.y - b.lo.y, b.hi.z - b.lo.z),
            Triple((b.hi.x + b.lo.x) / 2.0, (b.hi.y + b.lo.y) / 2.0, (b.hi.z + b.lo.z) / 2.0))
  }

  function ParseFrom(box: Box, text: string, number: string -> Scalar, parseInt: string -> Option<int>): Result<ObjData>
  {
    match RunLines(State(EmptyMesh, box), Split(text, '\n'), number, parseInt)
    case Err(e) => Err(e)
    case Ok(st) => Ok(Output(st))
  }

  /** `parse_obj(text)` as written. */
  function ParseAsWritten(text: string, number: string -> Scalar, parseInt: string -> Option<int>): Result<ObjData>
  {
    ParseFrom(BoxAsWritten, text, number, parseInt)
  }

  /** `parse_obj(text)` with the maxima starting below every coordinate. */
  function Parse(text: string, number: string -> Scalar, parseInt: string -> Option<int>): Result<ObjData>
  {
    ParseFrom(StartBox, text, number, parseInt)
  }

  /** Once a line throws, the rest of the text is not read. (The older loader
   *  has the same loop over a state without a box: `LegacyObjLoader.RunFailSticks`.) */
  lemma {:induction false} RunFailSticks(st: State, lines: seq<string>, number: string -> Scalar, parseInt: string -> Option<int>, k: nat)
    requires k <= |lines| && RunLines(st, lines[..k], number, parseInt).Err?
    ensures RunLines(st, lines, number, parseInt) == RunLines(st, lines[..k], number, parseInt)
    decreases |lines| - k
  {
    if k < |lines| {
      assert lines[..k + 1][..k] == lines[..k];
      RunFailSticks(st, lines, number, parseInt, k + 1);
    } else {
      assert lines[..k] == lines;
    }
  }

  /** One line of `parse_obj`'s loop. */
  method ReadLine(st: State, parts: seq<string>, number: string -> Scalar, parseInt: string -> Option<int>) returns (r: Result<State>)
    ensures r == LineStep(st, parts, number, parseInt)
  {
    if |parts| == 0 {
      return Ok(st);
    }
    var mesh := st.mesh;
    var box := st.box;
    if parts[0] == "v" {
      var ns := Numbers(parts[1..], number);
      var x, y, z := Coordinate(ns, 0), Coordinate(ns, 1), Coordinate(ns, 2);
      var lo, hi := box.lo, box.hi;
      lo := Triple(if x.Real? && x.r < lo.x then x.r else lo.x,
                   if y.Real? && y.r < lo.y then y.r else lo.y,
                   if z.Real? && z.r < lo.z then z.r else lo.z);
      hi := Triple(if x.Real? && x.r > hi.x then x.r else hi.x,
                   if y.Real? && y.r > hi.y then y.r else hi.y,
                   if z.Real? && z.r > hi.z then z.r else hi.z);
      mesh := mesh.(vertices := mesh.vertices + [[x, y, z]]);
      r := Ok(State(mesh, Box(lo, hi)));
    } else if parts[0] == "vn" {
      mesh := mesh.(vertexNormals := mesh.vertexNormals + [Numbers(parts[1..], number)]);
      r := Ok(State(mesh, box));
    } else if parts[0] == "vt" {
      mesh := mesh.(vertexUvs := mesh.vertexUvs + [Numbers(parts[1..], number)]);
      r := Ok(State(mesh, box));
    } else if parts[0] == "f" {
      var face := ReadFace(mesh, parts[1..], parseInt);
      if face.Err? {
        return Err(face.error);
      }
      r := Ok(State(face.value, box));
    } else {
      r := Ok(st);
    }
  }

  /** `parse_obj`, with the maxima of the box starting at `Number.MIN_VALUE`
   *  as the program has them. */
  method ParseObj(text: string, number: string -> Scalar, parseInt: string -> Option<int>) returns (r: Result<ObjData>)
    ensures r == ParseAsWritten(text, number, parseInt)
  {
    var lines := Split(text, '\n');
    var st := State(EmptyMesh, BoxAsWritten);
    var i := 0;
    while i < |lines|
      invariant 0 <= i <= |lines|
      invariant RunLines(State(EmptyMesh, BoxAsWritten), lines[..i], number, parseInt) == Ok(st)
    {
      assert lines[..i + 1][..i] == lines[..i];
      var parts := Words(lines[i]);
      var next := ReadLine(st, parts, number, parseInt);
      if next.Err? {
        RunFailSticks(State(EmptyMesh, BoxAsWritten), lines, number, parseInt, i + 1);
        return Err(next.error);
      }
      st := next.value;
      i := i + 1;
    }
    assert lines[..i] == lines;
    r := Ok(Output(st));
  }

  // ---------------------------------------------------------------- properties

  /** A line whose first word is none of `v`, `vn`, `vt`, `f` changes nothing. */
  lemma UnknownLineIgnored(st: State, parts: seq<string>, number: string -> Scalar, parseInt: string -> Option<int>)
    requires |parts| >= 1 && parts[0] != "v" && parts[0] != "vn" && parts[0] != "vt" && parts[0] != "f"
    ensures LineStep(st, parts, number, parseInt) == Ok(st)
  {
  }

  /** A `v` line stores exactly three coordinates, the missing ones as NaN,
   *  and touches neither the output arrays nor the face-vertex table. */
  lemma VertexLineStoresThree(st: State, parts: seq<string>, number: string -> Scalar, parseInt: string -> Option<int>)
    requires |parts| >= 1 && parts[0] == "v"
    ensures var r := LineStep(st, parts, number, parseInt);
      && r.Ok? && |r.value.mesh.vertices| == |st.mesh.vertices| + 1
      && r.value.mesh.vertices[..|st.mesh.vertices|] == st.mesh.vertices
      && (var v := r.value.mesh.vertices[|st.mesh.vertices|];
          |v| == 3 && forall k :: 0 <= k < 3 ==> v[k] == if k + 1 < |parts| then number(parts[k + 1]) else NotANumber)
      && r.value.mesh.positions == st.mesh.positions && r.value.mesh.vertexMap == st.mesh.vertexMap
  {
  }

  /** Every line keeps the vertex bookkeeping. */
  lemma LineStepCounted(st: State, parts: seq<string>, number: string -> Scalar, parseInt: string -> Option<int>)
    requires Counted(st.mesh) && Triples(st.mesh.vertices)
    ensures var r := LineStep(st, parts, number, parseInt);
      r.Ok? ==> Counted(r.value.mesh) && Triples(r.value.mesh.vertices)
  {
    if |parts| >= 1 && parts[0] == "f" {
      FaceLineCounted(st.mesh, parts[1..], parseInt);
    }
  }

  lemma {:induction false} RunCounted(st: State, lines: seq<string>, number: string -> Scalar, parseInt: string -> Option<int>)
    requires Counted(st.mesh) && Triples(st.mesh.vertices)
    ensures var r := RunLines(st, lines, number, parseInt);
      r.Ok? ==> Counted(r.value.mesh) && Triples(r.value.mesh.vertices)
    decreases |lines|
  {
    if lines != [] {
      var init := lines[..|lines| - 1];
      RunCounted(st, init, number, parseInt);
      var r1 := RunLines(st, init, number, parseInt);
      if r1.Ok? {
        LineStepCounted(r1.value, Words(lines[|lines| - 1]), number, parseInt);
      }
    }
  }

  /** The parsed mesh: three coordinates per output vertex, whole triangles,
   *  and every stored index names an output vertex; with at most 65536
   *  vertices the stored indices are the vertex numbers themselves. */
  lemma ParsedMesh(box: Box, text: string, number: string -> Scalar, parseInt: string -> Option<int>)
    ensures var r := RunLines(State(EmptyMesh, box), Split(text, '\n'), number, parseInt);
      r.Ok? ==>
        var m := r.value.mesh;
        var d := Output(r.value);
        && |d.vertices| == 3 * |m.vertexMap|
        && |d.indices| % 3 == 0
        && (forall k :: 0 <= k < |d.indices| ==> 3 * d.indices[k] < |d.vertices|)
        && (|m.vertexMap| <= 65536 ==> forall k :: 0 <= k < |d.indices| ==> d.indices[k] as real == m.indices[k])
  {
    RunCounted(State(EmptyMesh, box), Split(text, '\n'), number, parseInt);
    var r := RunLines(State(EmptyMesh, box), Split(text, '\n'), number, parseInt);
    if r.Ok? {
      var m := r.value.mesh;
      forall k | 0 <= k < |m.indices|
        ensures 3 * ToUint16(m.indices[k]) < |m.positions|
        ensures |m.vertexMap| <= 65536 ==> ToUint16(m.indices[k]) as real == m.indices[k]
      {
        Uint16OfIndex(m.indices[k], |m.vertexMap|);
      }
    }
  }

  // ---------------------------------------------------------------- the bounding box

  /** `b` bounds every real coordinate stored in `vertices`, and each face
   *  of `b` is attained by a stored coordinate unless it is still at its
   *  start (`MAX_VALUE` for the minima, `floor` for the maxima). */
  ghost predicate Encloses(b: Box, vertices: seq<seq<Scalar>>, floor: real)
  {
    && (forall j, k :: 0 <= j < |vertices| && 0 <= k < |vertices[j]| && k < 3 && vertices[j][k].Real? ==>
          Get(b.lo, k) <= vertices[j][k].r <= Get(b.hi, k))
    && (forall k :: 0 <= k < 3 ==>
          Get(b.lo, k) == MAX_VALUE || exists j :: 0 <= j < |vertices| && k < |vertices[j]| && vertices[j][k] == Real(Get(b.lo, k)))
    && (forall k :: 0 <= k < 3 ==>
          Get(b.hi, k) == floor || exists j :: 0 <= j < |vertices| && k < |vertices[j]| && vertices[j][k] == Real(Get(b.hi, k)))
  }

  /** Axis `k` of a widened box is the running min and max of that axis. */
  lemma WidenGet(b: Box, x: Scalar, y: Scalar, z: Scalar, k: nat)
    requires k < 3
    ensures Get(Widen(b, x, y, z).lo, k) == Lower(Get(b.lo, k), [x, y, z][k])
    ensures Get(Widen(b, x, y, z).hi, k) == Upper(Get(b.hi, k), [x, y, z][k])
  {
  }

  lemma WidenEncloses(b: Box, vertices: seq<seq<Scalar>>, floor: real, x: Scalar, y: Scalar, z: Scalar)
    requires Encloses(b, vertices, floor)
    ensures Encloses(Widen(b, x, y, z), vertices + [[x, y, z]], floor)
  {
    var b1 := Widen(b, x, y, z);
    var vs := vertices + [[x, y, z]];
    var n := |vertices|;
    assert vs[n] == [x, y, z];
    forall j, k | 0 <= j < |vs| && 0 <= k < |vs[j]| && k < 3 && vs[j][k].Real?
      ensures Get(b1.lo, k) <= vs[j][k].r <= Get(b1.hi, k)
    {
      WidenGet(b, x, y, z, k);
      if j < n {
        assert vs[j] == vertices[j];
        assert Get(b.lo, k) <= vertices[j][k].r <= Get(b.hi, k);
      }
    }
    forall k | 0 <= k < 3
      ensures Get(b1.lo, k) == MAX_VALUE || exists j :: 0 <= j < |vs| && k < |vs[j]| && vs[j][k] == Real(Get(b1.lo, k))
      ensures Get(b1.hi, k) == floor || exists j :: 0 <= j < |vs| && k < |vs[j]| && vs[j][k] == Real(Get(b1.hi, k))
    {
      WidenGet(b, x, y, z, k);
      if Get(b1.lo, k) != Get(b.lo, k) {
        assert vs[n][k] == Real(Get(b1.lo, k));
      } else if Get(b.lo, k) != MAX_VALUE {
        var j :| 0 <= j < n && k < |vertices[j]| && vertices[j][k] == Real(Get(b.lo, k));
        assert vs[j] == vertices[j];
      }
      if Get(b1.hi, k) != Get(b.hi, k) {
        assert vs[n][k] == Real(Get(b1.hi, k));
      } else if Get(b.hi, k) != floor {
        var j :| 0 <= j < n && k < |vertices[j]| && vertices[j][k] == Real(Get(b.hi, k));
        assert vs[j] == vertices[j];
      }
    }
  }

  lemma LineStepEncloses(st: State, parts: seq<string>, number: string -> Scalar, parseInt: string -> Option<int>, floor: real)
    requires Encloses(st.box, st.mesh.vertices, floor)
    ensures var r := LineStep(st, parts, number, parseInt);
      r.Ok? ==> Encloses(r.value.box, r.value.mesh.vertices, floor)
  {
    if |parts| >= 1 && parts[0] == "v" {
      var ns := Numbers(parts[1..], number);
      WidenEncloses(st.box, st.mesh.vertices, floor, Coordinate(ns, 0), Coordinate(ns, 1), Coordinate(ns, 2));
    } else if |parts| >= 1 && parts[0] == "f" {
      FaceLineTables(st.mesh, parts[1..], parseInt);
    }
  }

  lemma FaceLineTables(m: Mesh, tokens: seq<string>, parseInt: string -> Option<int>)
    ensures var r := FaceLine(m, tokens, parseInt);
      r.Ok? ==> r.value.vertices == m.vertices
  {
    FaceVerticesTables(m, tokens, parseInt);
  }

  lemma {:induction false} FaceVerticesTables(m: Mesh, tokens: seq<string>, parseInt: string -> Option<int>)
    ensures var r := FaceVertices(m, tokens, parseInt);
      r.Ok? ==> r.value.0.vertices == m.vertices
    decreases |tokens|
  {
    if tokens != [] {
      FaceVerticesTables(m, tokens[..|tokens| - 1], parseInt);
    }
  }

  lemma {:induction false} RunEncloses(st: State, lines: seq<string>, number: string -> Scalar, parseInt: string -> Option<int>, floor: real)
    requires Encloses(st.box, st.mesh.vertices, floor)
    ensures var r := RunLines(st, lines, number, parseInt);
      r.Ok? ==> Encloses(r.value.box, r.value.mesh.vertices, floor)
    decreases |lines|
  {
    if lines != [] {
      var init := lines[..|lines| - 1];
      RunEncloses(st, init, number, parseInt, floor);
      var r1 := RunLines(st, init, number, parseInt);
      if r1.Ok? {
        LineStepEncloses(r1.value, Words(lines[|lines| - 1]), number, parseInt, floor);
      }
    }
  }

  /** With the maxima starting at `-MAX_VALUE`, the box is the tight bound
   *  of the real coordinates of the `v` lines: below and above every one,
   *  and each face attained by one unless no coordinate moved it from its
   *  start. `dimensions` and `center` are taken from that box. */
  lemma BoxTight(text: string, number: string -> Scalar, parseInt: string -> Option<int>)
    ensures var r := RunLines(State(EmptyMesh, StartBox), Split(text, '\n'), number, parseInt);
      r.Ok? ==> Encloses(r.value.box, r.value.mesh.vertices, -MAX_VALUE)
  {
    RunEncloses(State(EmptyMesh, StartBox), Split(text, '\n'), number, parseInt, -MAX_VALUE);
  }

  /** As written the box still bounds every real coordinate, and each face is
   *  attained by one unless it is still at its start; for the maxima that
   *  start is `MIN_VALUE`, so the box is tight only where some coordinate
   *  reaches above it. */
  lemma BoxAsWrittenEncloses(text: string, number: string -> Scalar, parseInt: string -> Option<int>)
    ensures var r := RunLines(State(EmptyMesh, BoxAsWritten), Split(text, '\n'), number, parseInt);
      r.Ok? ==> Encloses(r.value.box, r.value.mesh.vertices, MIN_VALUE)
  {
    RunEncloses(State(EmptyMesh, BoxAsWritten), Split(text, '\n'), number, parseInt, MIN_VALUE);
  }

  /** As written the maxima start at `Number.MIN_VALUE`, which is above every
   *  negative coordinate: after a single `v` line at (-1, -1, -1) the box
   *  reaches up to `MIN_VALUE` on every axis, where no coordinate lies, and
   *  `dimensions` is `1 + MIN_VALUE` instead of 0. From `StartBox` the same
   *  line gives the point itself and dimensions 0. */
  lemma MinValueMaxesOut(minusOne: string, parseInt: string -> Option<int>)
    ensures var number := (t: string) => Real(-1.0);
      var parts := ["v", minusOne, minusOne, minusOne];
      var asWritten := LineStep(State(EmptyMesh, BoxAsWritten), parts, number, parseInt);
      var intended := LineStep(State(EmptyMesh, StartBox), parts, number, parseInt);
      && asWritten.Ok? && asWritten.value.box.hi == Triple(MIN_VALUE, MIN_VALUE, MIN_VALUE)
      && MIN_VALUE > 0.0
      && Output(asWritten.value).dimensions == Triple(1.0 + MIN_VALUE, 1.0 + MIN_VALUE, 1.0 + MIN_VALUE)
      && intended.Ok? && intended.value.box == Box(Triple(-1.0, -1.0, -1.0), Triple(-1.0, -1.0, -1.0))
      && Output(intended.value).dimensions == Triple(0.0, 0.0, 0.0)
  {
  }
}
