/** The shadow-casting point light of src/node/lights/point_light.ts: its six
 *  cube-face light-space matrices and their caches, the depth pass that
 *  renders the scene once per face into the shared point-shadow depth array,
 *  and the light roster it joins and leaves. */
module PointLights {
  import opened Wrappers
  import opened Maths
  import opened Gl
  import opened Seqs
  import SceneGraph
  import ShaderPrograms
  import Framebuffers
  import Lights
  import DrawFlags

  // ---------------------------------------------------------------- the six faces

  /** The look direction and up vector of each face, in the order +X, -X, +Y, -Y, +Z, -Z. */
  const LookatValues: seq<(Vec3, Vec3)> := [
    (Vec3(1.0, 0.0, 0.0), Vec3(0.0, 1.0, 0.0)),
    (Vec3(-1.0, 0.0, 0.0), Vec3(0.0, 1.0, 0.0)),
    (Vec3(0.0, 1.0, 0.0), Vec3(0.0, 0.0, 1.0)),
    (Vec3(0.0, -1.0, 0.0), Vec3(0.0, 0.0, -1.0)),
    (Vec3(0.0, 0.0, 1.0), Vec3(0.0, 1.0, 0.0)),
    (Vec3(0.0, 0.0, -1.0), Vec3(0.0, 1.0, 0.0))]

  /** Face `i` looks along axis `i / 2`, in the positive direction when `i` is even. */
  function Axis(i: nat): Vec3
    requires i < 6
  {
    var sign := if i % 2 == 0 then 1.0 else -1.0;
    Vec3(if i / 2 == 0 then sign else 0.0, if i / 2 == 1 then sign else 0.0, if i / 2 == 2 then sign else 0.0)
  }

  /** The up vector is +Y, except for the faces along Y, which use Z with their own sign. */
  function Up(i: nat): Vec3
    requires i < 6
  {
    if i / 2 == 1 then Axis(i + 2) else Axis(2)
  }

  lemma LookatTable()
    ensures |LookatValues| == 6
    ensures forall i :: 0 <= i < 6 ==> LookatValues[i] == (Axis(i), Up(i))
  {
  }

  /** The light-space matrix of face `i` seen from `position`. */
  function FaceMatrix(projection: Mat, position: Vec3, i: nat): Mat
    requires i < 6
  {
    var (centerOffset, up) := LookatValues[i];
    Mul(projection, LookAt(position, Plus(position, centerOffset), up))
  }

  /** Face `i` looks from the light one unit along its axis. */
  lemma FaceMatrixAlongAxis(projection: Mat, position: Vec3, i: nat)
    requires i < 6
    ensures FaceMatrix(projection, position, i) == Mul(projection, LookAt(position, Plus(position, Axis(i)), Up(i)))
  {
    LookatTable();
  }

  /** Six matrices, face by face, for this projection and position. */
  predicate Fitted(ms: seq<Mat>, projection: Mat, position: Vec3)
  {
    |ms| == 6 && forall i :: 0 <= i < 6 ==> ms[i] == FaceMatrix(projection, position, i)
  }

  /** The 90-degree, square, near-0.1 projection every face uses out to `range`. */
  function ShadowProjection(range: real): Mat
  {
    PerspectiveZO(90.0, 1.0, 0.1, range)
  }

  // ---------------------------------------------------------------- the depth pass

  const LightSpaceLabel := "u_light_space_matrix"

  /** One face: point the depth attachment at `layer`, clear, set the face's
   *  matrix and render the scene; or throw at the first step. */
  function FaceCalls(entry: Option<Framebuffers.AttachmentInfo>, clear: seq<Event>, layer: int, matrix: Mat): Calls
  {
    var c := Framebuffers.LayerCall(entry, layer);
    if c.Err? then Calls([], Fail(c.error))
    else Calls([c.value] + clear + [SetUniform(LightSpaceLabel, Matrix(matrix)), RenderMainScene], Done)
  }

  /** The first `n` faces, stopping at the first throw. */
  function FaceLoop(entry: Option<Framebuffers.AttachmentInfo>, clear: seq<Event>, offset: int, ms: seq<Mat>, n: nat): Calls
    requires n <= |ms|
  {
    if n == 0 then Calls([], Done)
    else
      var prev := FaceLoop(entry, clear, offset, ms, n - 1);
      if prev.outcome != Done then prev
      else
        var f := FaceCalls(entry, clear, offset + n - 1, ms[n - 1]);
        Calls(prev.events + f.events, f.outcome)
  }

  /** Once a face throws, the later faces add nothing. */
  lemma {:induction false} FaceLoopSticks(entry: Option<Framebuffers.AttachmentInfo>, clear: seq<Event>, offset: int, ms: seq<Mat>, m: nat, n: nat)
    requires m <= n <= |ms| && FaceLoop(entry, clear, offset, ms, m).outcome != Done
    ensures FaceLoop(entry, clear, offset, ms, n) == FaceLoop(entry, clear, offset, ms, m)
  {
    if n > m {
      FaceLoopSticks(entry, clear, offset, ms, m, n - 1);
    }
  }

  /** The calls that say which layer, which matrix and when the scene is
   *  drawn; the clear calls are left out. */
  function Marks(es: seq<Event>): (r: seq<Event>)
    ensures |r| <= |es|
  {
    if es == [] then []
    else
      var e := es[|es| - 1];
      Marks(es[..|es| - 1]) + (if e.FramebufferTextureLayer? || e.SetUniform? || e.RenderMainScene? then [e] else [])
  }

  lemma {:induction false} MarksAppend(a: seq<Event>, b: seq<Event>)
    ensures Marks(a + b) == Marks(a) + Marks(b)
    decreases |b|
  {
    if b == [] {
      assert a + b == a;
    } else {
      assert (a + b)[..|a + b| - 1] == a + b[..|b| - 1];
      MarksAppend(a, b[..|b| - 1]);
    }
  }

  lemma ClearHasNoMarks(useDepth: bool, useColor: bool, clearColor: Vec4)
    ensures Marks(Framebuffers.ClearBody(useDepth, useColor, clearColor)) == []
  {
    var d := if useDepth then [ClearDepth(1.0)] else [];
    var c := if useColor then [ClearColor(clearColor)] else [];
    var m := if useDepth || useColor then [Clear(DrawFlags.ClearMask(useColor, useDepth))] else [];
    MarksAppend(d + c, m);
    MarksAppend(d, c);
    assert Marks(d) == [] by {
      if useDepth {
        assert d[..0] == [];
      }
    }
    assert Marks(c) == [] by {
      if useColor {
        assert c[..0] == [];
      }
    }
    assert Marks(m) == [] by {
      if useDepth || useColor {
        assert m[..0] == [];
      }
    }
  }

  lemma MarksOfFace(call: Event, clear: seq<Event>, matrix: Mat)
    requires call.FramebufferTextureLayer? && Marks(clear) == []
    ensures Marks([call] + clear + [SetUniform(LightSpaceLabel, Matrix(matrix)), RenderMainScene])
         == [call, SetUniform(LightSpaceLabel, Matrix(matrix)), RenderMainScene]
  {
    var tail := [SetUniform(LightSpaceLabel, Matrix(matrix)), RenderMainScene];
    MarksAppend([call] + clear, tail);
    MarksAppend([call], clear);
    assert [call][..0] == [];
    assert tail[..1] == [SetUniform(LightSpaceLabel, Matrix(matrix))];
    assert tail[..1][..0] == [];
  }

  /** Three-element blocks of a sequence are those of its parts. */
  lemma BlocksOfAppend(a: seq<Event>, b: seq<Event>, i: nat)
    requires |a| % 3 == 0 && |b| == 3 && 3 * i + 3 <= |a| + 3
    ensures 3 * i + 3 <= |a| ==> (a + b)[3 * i..3 * i + 3] == a[3 * i..3 * i + 3]
    ensures 3 * i == |a| ==> (a + b)[3 * i..3 * i + 3] == b
  {
  }

  /** `marks` are the marks of the first `n` faces, three per face. */
  predicate InFaceOrder(marks: seq<Event>, entry: Option<Framebuffers.AttachmentInfo>, offset: int, ms: seq<Mat>, n: nat)
    requires n <= |ms| && Framebuffers.LayerCall(entry, offset).Ok?
  {
    && |marks| == 3 * n
    && forall i :: 0 <= i < n ==>
         marks[3 * i..3 * i + 3]
           == [Framebuffers.LayerCall(entry, offset + i).value, SetUniform(LightSpaceLabel, Matrix(ms[i])), RenderMainScene]
  }

  lemma InFaceOrderExtend(prev: seq<Event>, last: seq<Event>, entry: Option<Framebuffers.AttachmentInfo>, offset: int, ms: seq<Mat>, n: nat)
    requires n < |ms| && Framebuffers.LayerCall(entry, offset).Ok? && InFaceOrder(prev, entry, offset, ms, n)
    requires last == [Framebuffers.LayerCall(entry, offset + n).value, SetUniform(LightSpaceLabel, Matrix(ms[n])), RenderMainScene]
    ensures InFaceOrder(prev + last, entry, offset, ms, n + 1)
  {
    forall i | 0 <= i < n + 1
      ensures (prev + last)[3 * i..3 * i + 3]
           == [Framebuffers.LayerCall(entry, offset + i).value, SetUniform(LightSpaceLabel, Matrix(ms[i])), RenderMainScene]
    {
      BlocksOfAppend(prev, last, i);
    }
  }

  /** When the depth attachment takes layers, all `n` faces run, and face `i`
   *  targets layer `offset + i`, sets matrix `i` and then draws the scene, in
   *  that order. */
  lemma {:induction false} FaceLoopOrder(entry: Option<Framebuffers.AttachmentInfo>, clear: seq<Event>, offset: int, ms: seq<Mat>, n: nat)
    requires n <= |ms| && Framebuffers.LayerCall(entry, offset).Ok? && Marks(clear) == []
    ensures FaceLoop(entry, clear, offset, ms, n).outcome == Done
    ensures InFaceOrder(Marks(FaceLoop(entry, clear, offset, ms, n).events), entry, offset, ms, n)
  {
    if n > 0 {
      var m := n - 1;
      FaceLoopOrder(entry, clear, offset, ms, m);
      var prev := Marks(FaceLoop(entry, clear, offset, ms, m).events);
      var last := FaceMarks(entry, clear, offset, ms, n);
      InFaceOrderExtend(prev, last, entry, offset, ms, m);
    }
  }

  /** The step from `n` to `n + 1` faces. */
  lemma FaceMarks(entry: Option<Framebuffers.AttachmentInfo>, clear: seq<Event>, offset: int, ms: seq<Mat>, n: nat)
      returns (last: seq<Event>)
    requires 0 < n <= |ms| && Framebuffers.LayerCall(entry, offset).Ok? && Marks(clear) == []
    requires FaceLoop(entry, clear, offset, ms, n - 1).outcome == Done
    ensures last == [Framebuffers.LayerCall(entry, offset + (n - 1)).value, SetUniform(LightSpaceLabel, Matrix(ms[n - 1])), RenderMainScene]
    ensures FaceLoop(entry, clear, offset, ms, n).outcome == Done
    ensures Marks(FaceLoop(entry, clear, offset, ms, n).events) == Marks(FaceLoop(entry, clear, offset, ms, n - 1).events) + last
  {
    Framebuffers.LayerCallCases(entry, offset);
    Framebuffers.LayerCallCases(entry, offset + n - 1);
    var call := Framebuffers.LayerCall(entry, offset + n - 1);
    var f := FaceCalls(entry, clear, offset + n - 1, ms[n - 1]);
    MarksAppend(FaceLoop(entry, clear, offset, ms, n - 1).events, f.events);
    MarksOfFace(call.value, clear, ms[n - 1]);
    last := [call.value, SetUniform(LightSpaceLabel, Matrix(ms[n - 1])), RenderMainScene];
  }

  /** Either every face runs or the first one throws, with no call made. */
  lemma FaceLoopOutcome(entry: Option<Framebuffers.AttachmentInfo>, clear: seq<Event>, offset: int, ms: seq<Mat>)
    requires |ms| == 6
    ensures var c := FaceLoop(entry, clear, offset, ms, |ms|);
      && (c.outcome == Done <==> Framebuffers.LayerCall(entry, offset).Ok?)
      && (c.outcome != Done ==> c.events == [] && c.outcome == Fail(Framebuffers.LayerCall(entry, offset).error))
  {
    Framebuffers.LayerCallCases(entry, offset);
    if Framebuffers.LayerCall(entry, offset).Ok? {
      FaceLoopDone(entry, clear, offset, ms, |ms|);
    } else {
      assert FaceLoop(entry, clear, offset, ms, 1).outcome != Done;
      FaceLoopSticks(entry, clear, offset, ms, 1, 6);
    }
  }

  lemma {:induction false} FaceLoopDone(entry: Option<Framebuffers.AttachmentInfo>, clear: seq<Event>, offset: int, ms: seq<Mat>, n: nat)
    requires n <= |ms| && Framebuffers.LayerCall(entry, offset).Ok?
    ensures FaceLoop(entry, clear, offset, ms, n).outcome == Done
  {
    if n > 0 {
      FaceLoopDone(entry, clear, offset, ms, n - 1);
      Framebuffers.LayerCallCases(entry, offset);
      Framebuffers.LayerCallCases(entry, offset + n - 1);
    }
  }

  lemma {:induction false} FaceLoopNeutral(entry: Option<Framebuffers.AttachmentInfo>, clear: seq<Event>, offset: int, ms: seq<Mat>, n: nat)
    requires n <= |ms| && Neutral(clear)
    ensures Neutral(FaceLoop(entry, clear, offset, ms, n).events)
    ensures RenderMainScene in FaceLoop(entry, clear, offset, ms, n).events ==> n > 0
  {
    if n > 0 {
      FaceLoopNeutral(entry, clear, offset, ms, n - 1);
      Framebuffers.LayerCallCases(entry, offset + n - 1);
    }
  }

  /** The graphics-manager calls between turning the depth pass on and the faces. */
  function PassSetup(programName: string, fbName: string, position: Vec3, range: real): seq<Event>
  {
    [UseProgram(Some(programName)), UseFramebuffer(Some(fbName)),
     SetUniform("origin", Vector(position)), SetUniform("range", Number(range))]
  }

  function PassHead(programName: string, fbName: string, position: Vec3, range: real): seq<Event>
  {
    [SetDepthPass(true)] + PassSetup(programName, fbName, position, range)
  }

  const PassTail: seq<Event> := [UseFramebuffer(None), UseProgram(None), SetDepthPass(false)]

  /** `draw_shadow_map` once the main camera is known to exist. */
  function PassCalls(programName: string, fbName: string, entry: Option<Framebuffers.AttachmentInfo>, clear: seq<Event>,
                     position: Vec3, range: real, offset: int, ms: seq<Mat>): Calls
    requires |ms| == 6
  {
    var faces := FaceLoop(entry, clear, offset, ms, |ms|);
    var head := PassHead(programName, fbName, position, range);
    if faces.outcome != Done then Calls(head + faces.events, faces.outcome)
    else Calls(head + faces.events + PassTail, Done)
  }

  /** The pass is the depth-pass flag followed by the set-up, the faces and,
   *  when no face threw, the closing calls. */
  lemma PassCallsSplit(programName: string, fbName: string, entry: Option<Framebuffers.AttachmentInfo>, clear: seq<Event>,
                       position: Vec3, range: real, offset: int, ms: seq<Mat>)
    requires |ms| == 6
    ensures var faces := FaceLoop(entry, clear, offset, ms, 6);
      var c := PassCalls(programName, fbName, entry, clear, position, range, offset, ms);
      && c.outcome == faces.outcome
      && c.events == [SetDepthPass(true)] + (PassSetup(programName, fbName, position, range) + faces.events
                                             + (if faces.outcome == Done then PassTail else []))
  {
    var faces := FaceLoop(entry, clear, offset, ms, 6);
    var setup := PassSetup(programName, fbName, position, range);
    var tail: seq<Event> := if faces.outcome == Done then PassTail else [];
    assert setup + faces.events + [] == setup + faces.events;
    Seqs.AppendAssoc([SetDepthPass(true)], setup, faces.events);
    Seqs.AppendAssoc([SetDepthPass(true)], setup + faces.events, tail);
  }

  /** The state the head of the pass leaves behind. */
  lemma PassHeadState(s: GlState, programName: string, fbName: string, position: Vec3, range: real)
    ensures Replay(s, PassHead(programName, fbName, position, range))
         == s.(program := Some(programName), framebuffer := Some(fbName), depthPass := true)
  {
    var setup := PassSetup(programName, fbName, position, range);
    var e0, e1, e2 := SetDepthPass(true), UseProgram(Some(programName)), UseFramebuffer(Some(fbName));
    var rest := setup[2..];
    assert PassHead(programName, fbName, position, range) == [e0, e1] + ([e2] + rest);
    ReplayAppend(s, [e0, e1], [e2] + rest);
    ReplayTwo(s, e0, e1);
    ReplayAppend(Replay(s, [e0, e1]), [e2], rest);
    ReplayOne(Replay(s, [e0, e1]), e2);
    ReplayNeutral(Replay(Replay(s, [e0, e1]), [e2]), rest);
  }

  lemma PassTailState(s: GlState)
    ensures Replay(s, PassTail) == s.(program := None, framebuffer := None, depthPass := false)
  {
    ReplayAppend(s, PassTail[..2], PassTail[2..]);
    ReplayTwo(s, PassTail[0], PassTail[1]);
    ReplayOne(Replay(s, PassTail[..2]), PassTail[2]);
  }

  /** A finished pass turns the depth pass off and leaves no program and no
   *  framebuffer in use; a thrown one leaves all three as they were during
   *  the pass. */
  lemma PassState(s: GlState, programName: string, fbName: string, entry: Option<Framebuffers.AttachmentInfo>, clear: seq<Event>,
                  position: Vec3, range: real, offset: int, ms: seq<Mat>)
    requires |ms| == 6 && Neutral(clear)
    ensures var c := PassCalls(programName, fbName, entry, clear, position, range, offset, ms);
      && (c.outcome == Done ==> Replay(s, c.events) == s.(program := None, framebuffer := None, depthPass := false))
      && (c.outcome != Done ==> Replay(s, c.events) == s.(program := Some(programName), framebuffer := Some(fbName), depthPass := true))
  {
    var faces := FaceLoop(entry, clear, offset, ms, |ms|);
    var head := PassHead(programName, fbName, position, range);
    var during := s.(program := Some(programName), framebuffer := Some(fbName), depthPass := true);
    FaceLoopNeutral(entry, clear, offset, ms, |ms|);
    PassHeadState(s, programName, fbName, position, range);
    ReplayAppend(s, head, faces.events);
    ReplayNeutral(during, faces.events);
    if faces.outcome == Done {
      ReplayAppend(s, head + faces.events, PassTail);
      PassTailState(during);
    }
  }

  /** The scene is only ever drawn with the depth pass on. */
  lemma PassDepthMode(s: GlState, programName: string, fbName: string, entry: Option<Framebuffers.AttachmentInfo>, clear: seq<Event>,
                      position: Vec3, range: real, offset: int, ms: seq<Mat>)
    requires |ms| == 6 && Neutral(clear)
    ensures var c := PassCalls(programName, fbName, entry, clear, position, range, offset, ms);
      forall k :: 0 <= k < |c.events| && c.events[k] == RenderMainScene ==> Replay(s, c.events[..k]).depthPass
  {
    var es := PassCalls(programName, fbName, entry, clear, position, range, offset, ms).events;
    var faces := FaceLoop(entry, clear, offset, ms, |ms|).events;
    var head := PassHead(programName, fbName, position, range);
    FaceLoopNeutral(entry, clear, offset, ms, |ms|);
    assert |head| == 5;
    assert es[..|head| + |faces|] == head + faces;
    forall j | 1 <= j < |head| + |faces|
      ensures !es[j].SetDepthPass?
    {
      if j >= |head| {
        assert es[j] == faces[j - |head|] && Inert(faces[j - |head|]);
      }
    }
    forall k | 0 <= k < |es| && es[k] == RenderMainScene
      ensures Replay(s, es[..k]).depthPass
    {
      assert |head| <= k < |head| + |faces|;
      DepthPassKept(s, es, k);
    }
  }

  // ---------------------------------------------------------------- the light

  /** The label `u_point_light_space_matrix[${index * 6}]`. */
  function SpaceMatricesLabel(index: nat): string
  {
    "u_point_light_space_matrix[" + NatToString(index * 6) + "]"
  }

  /** The uniforms `set_uniforms` writes before `Light.set_uniforms`: position
   *  and range, then, when the shared framebuffer has a depth attachment, its
   *  texture and the six matrices starting at slot `index * 6`. */
  function UniformCalls(arrayName: string, index: nat, position: Vec3, range: real,
                        depth: Option<Framebuffers.AttachmentInfo>, ms: seq<Mat>): Calls
  {
    var head := [SetUniform(Lights.Label(arrayName, index, "position"), Vector(position)),
                 SetUniform(Lights.Label(arrayName, index, "range"), Number(range))];
    if depth.None? then Calls(head, Fail(TypeError))
    else Calls(head + [SetUniform("point_light_shadow_maps", Value.Texture(depth.value.texture.handle)),
                       SetUniform(SpaceMatricesLabel(index), Matrices(ms))], Done)
  }

  /** Writing the uniforms throws exactly when there is no depth attachment,
   *  and then only position and range have been written. */
  lemma UniformCallsOutcome(arrayName: string, index: nat, position: Vec3, range: real,
                            depth: Option<Framebuffers.AttachmentInfo>, ms: seq<Mat>)
    ensures var c := UniformCalls(arrayName, index, position, range, depth, ms);
      && (c.outcome == Done <==> depth.Some?)
      && |c.events| == (if depth.Some? then 4 else 2)
      && c.events[0].name == Lights.Label(arrayName, index, "position")
      && c.events[1].name == Lights.Label(arrayName, index, "range")
      && (depth.Some? ==> c.events[3] == SetUniform(SpaceMatricesLabel(index), Matrices(ms)))
  {
  }

  class PointLight {
    /** The `Node3D` this light is. */
    const node: SceneGraph.Node
    /** The first of its six layers in the shared depth array, fixed at construction. */
    const shadowIndexOffset: int
    const program: ShaderPrograms.ShaderProgram
    const framebuffer: Framebuffers.Framebuffer
    var storedRange: real
    var shadowProjection: Mat
    var parentWorldMatrix: Mat
    var spaceMatrices: seq<Mat>

    ghost predicate Valid()
      reads this
    {
      |spaceMatrices| == 6
    }

    /** `get_world_position()`. */
    function Position(): Vec3
      reads this, node, node.parent
    {
      TranslationOf(node.WorldMatrix())
    }

    /** The `range` getter. */
    function Range(): real
      reads this
    {
      storedRange
    }

    /** `new PointLight(...)`; `roster` is the graphics manager's `point_lights`. */
    constructor (name: string, local: Mat, range: real, roster: Roster,
                 framebuffer: Framebuffers.Framebuffer, program: ShaderPrograms.ShaderProgram)
      ensures Valid() && fresh(node) && node.name == name && node.kind == SceneGraph.ThreeD
      ensures node.parent == null && node.children == [] && node.local == local
      ensures this.framebuffer == framebuffer && this.program == program
      ensures shadowIndexOffset == 6 * |roster.lights|
      ensures Range() == range && shadowProjection == ShadowProjection(range)
      ensures Fitted(spaceMatrices, shadowProjection, Position()) && parentWorldMatrix == Identity
    {
      node := new SceneGraph.Node(name, SceneGraph.ThreeD, local);
      shadowIndexOffset := 6 * |roster.lights|;
      this.framebuffer := framebuffer;
      this.program := program;
      storedRange := range;
      shadowProjection := Identity;
      parentWorldMatrix := Identity;
      spaceMatrices := [Identity, Identity, Identity, Identity, Identity, Identity];
      new;
      SetRange(range);
    }

    /** `update_lsms`: recompute the six face matrices from the current position. */
    method UpdateLsms()
      requires Valid()
      modifies this`spaceMatrices
      ensures Valid() && Fitted(spaceMatrices, shadowProjection, Position())
    {
      var position := Position();
      var i := 0;
      while i < 6
        invariant 0 <= i <= 6 && |spaceMatrices| == 6
        invariant forall j :: 0 <= j < i ==> spaceMatrices[j] == FaceMatrix(shadowProjection, position, j)
      {
        var (centerOffset, up) := LookatValues[i];
        var offsetPosition := Plus(position, centerOffset);
        var view := LookAt(position, offsetPosition, up);
        spaceMatrices := spaceMatrices[i := Mul(shadowProjection, view)];
        i := i + 1;
      }
    }

    /** The `range` setter and `on_change_range`. */
    method SetRange(value: real)
      requires Valid()
      modifies this`storedRange, this`shadowProjection, this`spaceMatrices
      ensures Valid() && Range() == value && shadowProjection == ShadowProjection(value)
      ensures Fitted(spaceMatrices, shadowProjection, Position())
    {
      storedRange := value;
      shadowProjection := ShadowProjection(value);
      UpdateLsms();
    }

    /** `on_change_position`: the new position is read back from the node. */
    method OnChangePosition()
      requires Valid()
      modifies this`spaceMatrices
      ensures Valid() && Fitted(spaceMatrices, shadowProjection, Position())
    {
      UpdateLsms();
    }

    /** The cache after `draw_shadow_map` looked at the parent, given the
     *  cached matrix and face matrices before. */
    ghost predicate RefreshedFrom(cached: Mat, matrices: seq<Mat>)
      reads this, node, node.parent, if node.parent != null then {node.parent.parent} else {}
    {
      var world := ParentWorld();
      if world.Some? && world.value != cached then
        parentWorldMatrix == world.value && Fitted(spaceMatrices, shadowProjection, Position())
      else
        parentWorldMatrix == cached && spaceMatrices == matrices
    }

    /** `parent.get_world_matrix()` when the parent is a `Node3D`. */
    function ParentWorld(): (m: Option<Mat>)
      reads this, node, node.parent, if node.parent != null then {node.parent.parent} else {}
      ensures m.Some? <==> node.parent != null && node.parent.kind == SceneGraph.ThreeD
      ensures m.Some? ==> m.value == node.parent.WorldMatrix()
    {
      var p := node.parent;
      if p != null && p.kind == SceneGraph.ThreeD then Some(p.WorldMatrix()) else None
    }

    /** The parent-matrix cache of `draw_shadow_map`: the matrices are
     *  recomputed only when a `Node3D` parent's world matrix differs from
     *  the cached one, which then equals it. */
    method RefreshCache()
      requires Valid()
      modifies this`parentWorldMatrix, this`spaceMatrices
      ensures Valid()
      ensures RefreshedFrom(old(parentWorldMatrix), old(spaceMatrices))
      ensures Position() == old(Position()) && ParentWorld() == old(ParentWorld()) && Range() == old(Range())
    {
      var p := node.parent;
      if p != null && p.kind == SceneGraph.ThreeD {
        var parentWorld := p.WorldMatrix();
        if parentWorldMatrix != parentWorld {
          parentWorldMatrix := parentWorld;
          UpdateLsms();
        }
      }
    }

    /** The framebuffer's depth attachment and its clear calls. */
    function Depth(): Option<Framebuffers.AttachmentInfo>
      reads framebuffer
    {
      framebuffer.Entry("depth")
    }

    function ClearCalls(): seq<Event>
      reads framebuffer
    {
      Framebuffers.ClearBody(framebuffer.useDepthBuffer, framebuffer.useColorBuffer, framebuffer.clearColor)
    }

    /** The calls of one face after the layer switch. */
    method ClearAndDraw(ctx: Context, i: nat)
      requires ctx.Valid() && ctx.state.framebuffer == Some(framebuffer.name) && i < 6 && Valid()
      modifies ctx
      ensures ctx.Valid() && ctx.state == old(ctx.state)
      ensures ctx.log == old(ctx.log) + (ClearCalls() + [SetUniform(LightSpaceLabel, Matrix(spaceMatrices[i])), RenderMainScene])
    {
      Framebuffers.BracketedShape(framebuffer.name, true, ClearCalls(), true);
      framebuffer.Clear(ctx);
      ghost var cleared := ctx.log;
      ctx.Issue(SetUniform(LightSpaceLabel, Matrix(spaceMatrices[i])));
      ctx.Issue(RenderMainScene);
      Seqs.AppendAssoc(old(ctx.log), ClearCalls(), [SetUniform(LightSpaceLabel, Matrix(spaceMatrices[i])), RenderMainScene]);
    }

    /** One turn of the face loop, with the shared framebuffer in use. */
    method RenderFace(ctx: Context, i: nat) returns (r: Outcome)
      requires ctx.Valid() && ctx.state.framebuffer == Some(framebuffer.name) && i < 6 && Valid()
      modifies ctx
      ensures ctx.Valid() && ctx.state == old(ctx.state)
      ensures var f := FaceCalls(Depth(), ClearCalls(), shadowIndexOffset + i, spaceMatrices[i]);
        ctx.log == old(ctx.log) + f.events && r == f.outcome
    {
      var call := Framebuffers.LayerCall(Depth(), shadowIndexOffset + i);
      ghost var f := FaceCalls(Depth(), ClearCalls(), shadowIndexOffset + i, spaceMatrices[i]);
      ghost var rest := ClearCalls() + [SetUniform(LightSpaceLabel, Matrix(spaceMatrices[i])), RenderMainScene];
      Framebuffers.BracketedShape(framebuffer.name, true, if call.Ok? then [call.value] else [], call.Ok?);
      r := framebuffer.SetAttachmentTextureIndex(ctx, "depth", shadowIndexOffset + i);
      if r != Done {
        assert call.Err? && f == Calls([], r);
        return;
      }
      assert call.Ok? && ctx.log == old(ctx.log) + [call.value];
      ClearAndDraw(ctx, i);
      assert ctx.log == old(ctx.log) + [call.value] + rest;
      Seqs.AppendAssoc(old(ctx.log), [call.value], rest);
      Seqs.AppendAssoc([call.value], ClearCalls(), [SetUniform(LightSpaceLabel, Matrix(spaceMatrices[i])), RenderMainScene]);
      assert f.events == [call.value] + rest;
    }

    /** The loop over the six faces. */
    method RenderFaces(ctx: Context) returns (r: Outcome)
      requires ctx.Valid() && ctx.state.framebuffer == Some(framebuffer.name) && Valid()
      modifies ctx
      ensures ctx.Valid() && ctx.state == old(ctx.state)
      ensures var c := FaceLoop(Depth(), ClearCalls(), shadowIndexOffset, spaceMatrices, |spaceMatrices|);
        ctx.log == old(ctx.log) + c.events && r == c.outcome
    {
      var i := 0;
      while i < 6
        invariant 0 <= i <= 6 && ctx.Valid() && ctx.state == old(ctx.state)
        invariant FaceLoop(Depth(), ClearCalls(), shadowIndexOffset, spaceMatrices, i).outcome == Done
        invariant ctx.log == old(ctx.log) + FaceLoop(Depth(), ClearCalls(), shadowIndexOffset, spaceMatrices, i).events
      {
        var out := RenderFace(ctx, i);
        Seqs.AppendAssoc(old(ctx.log), FaceLoop(Depth(), ClearCalls(), shadowIndexOffset, spaceMatrices, i).events,
                         FaceCalls(Depth(), ClearCalls(), shadowIndexOffset + i, spaceMatrices[i]).events);
        if out != Done {
          FaceLoopSticks(Depth(), ClearCalls(), shadowIndexOffset, spaceMatrices, i + 1, 6);
          return out;
        }
        i := i + 1;
      }
      r := Done;
    }

    /** The calls between turning the depth pass on and the faces. */
    method SetUpPass(ctx: Context)
      requires ctx.Valid()
      modifies ctx
      ensures ctx.Valid() && ctx.log == old(ctx.log) + PassSetup(program.name, framebuffer.name, Position(), Range())
      ensures ctx.state == old(ctx.state).(program := Some(program.name), framebuffer := Some(framebuffer.name))
    {
      program.Use(ctx);
      framebuffer.Use(ctx);
      ctx.Issue(SetUniform("origin", Vector(Position())));
      ctx.Issue(SetUniform("range", Number(Range())));
    }

    /** `unuse_framebuffer`, `clear_shader` and the end of the depth pass. */
    static method EndPass(ctx: Context)
      requires ctx.Valid()
      modifies ctx
      ensures ctx.Valid() && ctx.log == old(ctx.log) + PassTail
      ensures ctx.state == old(ctx.state).(program := None, framebuffer := None, depthPass := false)
    {
      ctx.Issue(UseFramebuffer(None));
      ctx.Issue(UseProgram(None));
      ctx.Issue(SetDepthPass(false));
    }

    /** The pass after the cache: program and framebuffer in use, origin and
     *  range set, the faces, and the closing calls when no face threw. */
    method RenderPass(ctx: Context) returns (r: Outcome)
      requires ctx.Valid() && Valid()
      modifies ctx
      ensures var setup := PassSetup(program.name, framebuffer.name, Position(), Range());
        var faces := FaceLoop(Depth(), ClearCalls(), shadowIndexOffset, spaceMatrices, |spaceMatrices|);
        && ctx.Valid() && r == faces.outcome
        && ctx.log == old(ctx.log) + (setup + faces.events + (if r == Done then PassTail else []))
        && ctx.state == if r == Done then old(ctx.state).(program := None, framebuffer := None, depthPass := false)
                        else old(ctx.state).(program := Some(program.name), framebuffer := Some(framebuffer.name))
      ensures Position() == old(Position()) && ParentWorld() == old(ParentWorld())
      ensures Depth() == old(Depth()) && ClearCalls() == old(ClearCalls())
    {
      ghost var setup := PassSetup(program.name, framebuffer.name, Position(), Range());
      ghost var loop := FaceLoop(Depth(), ClearCalls(), shadowIndexOffset, spaceMatrices, |spaceMatrices|);
      ghost var faces := loop.events;
      SetUpPass(ctx);
      assert ctx.log == old(ctx.log) + setup;
      r := RenderFaces(ctx);
      assert ctx.log == old(ctx.log) + setup + faces && r == loop.outcome;
      Seqs.AppendAssoc(old(ctx.log), setup, faces);
      if r != Done {
        assert setup + faces + [] == setup + faces;
        return;
      }
      EndPass(ctx);
      Seqs.AppendAssoc(old(ctx.log), setup + faces, PassTail);
    }

    /** The pass itself, once the main camera is known to exist. */
    method RunPass(ctx: Context) returns (r: Outcome)
      requires ctx.Valid() && Valid()
      modifies this`parentWorldMatrix, this`spaceMatrices, ctx
      ensures Valid() && RefreshedFrom(old(parentWorldMatrix), old(spaceMatrices))
      ensures var c := PassCalls(program.name, framebuffer.name, Depth(), ClearCalls(), Position(), Range(), shadowIndexOffset, spaceMatrices);
        && ctx.log == old(ctx.log) + c.events && r == c.outcome
        && ctx.state == if r == Done then old(ctx.state).(program := None, framebuffer := None, depthPass := false)
                        else old(ctx.state).(program := Some(program.name), framebuffer := Some(framebuffer.name), depthPass := true)
    {
      ctx.Issue(SetDepthPass(true));
      ghost var flagged := ctx.state;
      RefreshCache();
      ghost var pn, fn, pos, rg := program.name, framebuffer.name, Position(), Range();
      ghost var d, cl, ms := Depth(), ClearCalls(), spaceMatrices;
      r := RenderPass(ctx);
      PassCallsSplit(pn, fn, d, cl, pos, rg, shadowIndexOffset, ms);
      ghost var loop := FaceLoop(d, cl, shadowIndexOffset, ms, 6);
      Seqs.AppendAssoc(old(ctx.log), [SetDepthPass(true)],
                       PassSetup(pn, fn, pos, rg) + loop.events + (if loop.outcome == Done then PassTail else []));
      if r == Done {
        assert ctx.state == flagged.(program := None, framebuffer := None, depthPass := false);
      } else {
        assert ctx.state == flagged.(program := Some(pn), framebuffer := Some(fn));
      }
    }

    /** `draw_shadow_map`; `hasMainCamera` says whether the main scene has a
     *  `main_camera_3d`. */
    method DrawShadowMap(ctx: Context, hasMainCamera: bool) returns (r: Outcome)
      requires ctx.Valid() && Valid()
      modifies this`parentWorldMatrix, this`spaceMatrices, ctx
      ensures Valid()
      ensures !hasMainCamera ==> r == Fail(NoMainCamera) && ctx.log == old(ctx.log) && ctx.state == old(ctx.state)
                                 && spaceMatrices == old(spaceMatrices) && parentWorldMatrix == old(parentWorldMatrix)
      ensures hasMainCamera ==> RefreshedFrom(old(parentWorldMatrix), old(spaceMatrices))
      ensures hasMainCamera ==>
        var c := PassCalls(program.name, framebuffer.name, Depth(), ClearCalls(), Position(), Range(), shadowIndexOffset, spaceMatrices);
        && ctx.log == old(ctx.log) + c.events && r == c.outcome
        && ctx.state == if r == Done then old(ctx.state).(program := None, framebuffer := None, depthPass := false)
                        else old(ctx.state).(program := Some(program.name), framebuffer := Some(framebuffer.name), depthPass := true)
    {
      if !hasMainCamera {
        return Fail(NoMainCamera);
      }
      r := RunPass(ctx);
    }

    /** `set_uniforms(array_name, index)` up to `Light.set_uniforms`. */
    method SetUniforms(ctx: Context, arrayName: string, index: nat) returns (r: Outcome)
      requires ctx.Valid()
      modifies ctx
      ensures ctx.Valid() && ctx.state == old(ctx.state)
      ensures var c := UniformCalls(arrayName, index, Position(), Range(), Depth(), spaceMatrices);
        ctx.log == old(ctx.log) + c.events && r == c.outcome
    {
      ctx.Issue(SetUniform(Lights.Label(arrayName, index, "position"), Vector(Position())));
      ctx.Issue(SetUniform(Lights.Label(arrayName, index, "range"), Number(Range())));
      var depth := Depth();
      if depth.None? {
        return Fail(TypeError);
      }
      ctx.Issue(SetUniform("point_light_shadow_maps", Value.Texture(depth.value.texture.handle)));
      ctx.Issue(SetUniform(SpaceMatricesLabel(index), Matrices(spaceMatrices)));
      r := Done;
    }

    /** `on_parented`: join the end of the roster, then resize the shadow map. */
    method OnParented(roster: Roster, ctx: Context)
      requires ctx.Valid()
      modifies roster, ctx
      ensures roster.lights == old(roster.lights) + [this]
      ensures ctx.Valid() && ctx.log == old(ctx.log) + [ResizePointShadowMap] && ctx.state == old(ctx.state)
    {
      roster.lights := roster.lights + [this];
      ctx.Issue(ResizePointShadowMap);
    }

    /** `on_removed`: the first occurrence leaves the roster, if present, and
     *  the shadow map is resized either way. */
    method OnRemoved(roster: Roster, ctx: Context)
      requires ctx.Valid()
      modifies roster, ctx
      ensures roster.lights == RemoveFirst(old(roster.lights), this)
      ensures ctx.Valid() && ctx.log == old(ctx.log) + [ResizePointShadowMap] && ctx.state == old(ctx.state)
    {
      var i := IndexOf(roster.lights, this);
      if i > -1 {
        roster.lights := roster.lights[..i] + roster.lights[i + 1..];
      }
      ctx.Issue(ResizePointShadowMap);
    }
  }

  /** The graphics manager's `point_lights`. */
  class Roster {
    var lights: seq<PointLight>

    constructor ()
      ensures lights == []
    {
      lights := [];
    }
  }

  /** The offset is not renumbered: once an earlier light leaves, a light
   *  built afterwards is given the same six layers as the last light of the roster. */
  lemma OffsetsCollideAfterRemoval(before: seq<PointLight>, a: PointLight, b: PointLight)
    requires a !in before && b !in before && a != b
    ensures var after := RemoveFirst(before + [a] + [b], a);
      6 * |after| == 6 * |before + [a]|
  {
    assert a in before + [a] + [b];
    assert |RemoveFirst(before + [a] + [b], a)| == |before + [a] + [b]| - 1;
  }
}
