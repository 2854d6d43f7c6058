/** The shadow-casting directional light of src/node/lights/directional_light.ts:
 *  its slot in the shared directional depth array, the depth pass that
 *  renders the scene once into that slot, the eight world-space corners of
 *  the camera frustum, and the light roster it joins and leaves. */
module DirectionalLights {
  import opened Wrappers
  import opened Maths
  import opened Gl
  import opened Seqs
  import SceneGraph
  import ShaderPrograms
  import Framebuffers
  import Lights

  // ---------------------------------------------------------------- frustum corners

  /** `2 * b - 1`: the NDC coordinate of a loop counter. */
  function Ndc(b: nat): real
  {
    2.0 * (b as real) - 1.0
  }

  /** Corner `k` of the frustum whose inverse view-projection is `inv`:
   *  the digits of `k` in base 2 pick x, y and z, x the most significant. */
  function Corner(inv: Mat, k: nat): Vec4
  {
    Unprojected(inv, Vec4(Ndc(k / 4), Ndc(k / 2 % 2), Ndc(k % 2), 1.0))
  }

  /** All eight corners, in the order the loops push them. */
  function Corners(inv: Mat): (cs: seq<Vec4>)
    ensures |cs| == 8 && forall k :: 0 <= k < 8 ==> cs[k] == Corner(inv, k)
  {
    seq(8, k requires 0 <= k < 8 => Corner(inv, k))
  }

  /** The corner pushed for counters `x`, `y`, `z` sits at `4x + 2y + z`: x is
   *  the outermost loop and z the innermost. */
  lemma CornerOrder(inv: Mat, x: nat, y: nat, z: nat)
    requires x < 2 && y < 2 && z < 2
    ensures Corner(inv, 4 * x + 2 * y + z) == Unprojected(inv, Vec4(Ndc(x), Ndc(y), Ndc(z), 1.0))
    ensures Ndc(x) in {-1.0, 1.0} && Ndc(y) in {-1.0, 1.0} && Ndc(z) in {-1.0, 1.0}
  {
    CornerDigits(x, y, z);
  }

  lemma CornerDigits(x: nat, y: nat, z: nat)
    requires x < 2 && y < 2 && z < 2
    ensures (4 * x + 2 * y + z) / 4 == x && (4 * x + 2 * y + z) / 2 % 2 == y && (4 * x + 2 * y + z) % 2 == z
  {
    assert x == 0 || x == 1;
    assert y == 0 || y == 1;
    assert z == 0 || z == 1;
  }

  /** No two corners coincide in NDC: distinct indices give distinct points. */
  lemma CornersDistinct(j: nat, k: nat)
    requires j < 8 && k < 8 && j != k
    ensures Vec4(Ndc(j / 4), Ndc(j / 2 % 2), Ndc(j % 2), 1.0) != Vec4(Ndc(k / 4), Ndc(k / 2 % 2), Ndc(k % 2), 1.0)
  {
    assert j == 4 * (j / 4) + 2 * (j / 2 % 2) + j % 2;
    assert k == 4 * (k / 4) + 2 * (k / 2 % 2) + k % 2;
  }

  /** `get_frustum_corners_world_space`. */
  method FrustumCorners(projection: Mat, view: Mat) returns (corners: seq<Vec4>)
    ensures corners == Corners(Inverted(Mul(projection, view)))
  {
    var inv := Inverted(Mul(projection, view));
    corners := [];
    var x := 0;
    while x < 2
      invariant 0 <= x <= 2 && |corners| == 4 * x
      invariant forall k :: 0 <= k < |corners| ==> corners[k] == Corner(inv, k)
    {
      var y := 0;
      while y < 2
        invariant 0 <= y <= 2 && |corners| == 4 * x + 2 * y
        invariant forall k :: 0 <= k < |corners| ==> corners[k] == Corner(inv, k)
      {
        var z := 0;
        while z < 2
          invariant 0 <= z <= 2 && |corners| == 4 * x + 2 * y + z
          invariant forall k :: 0 <= k < |corners| ==> corners[k] == Corner(inv, k)
        {
          var pt := Vec4(2.0 * (x as real) - 1.0, 2.0 * (y as real) - 1.0, 2.0 * (z as real) - 1.0, 1.0);
          CornerDigits(x, y, z);
          corners := corners + [Unprojected(inv, pt)];
          z := z + 1;
        }
        y := y + 1;
      }
      x := x + 1;
    }
  }

  // ---------------------------------------------------------------- the depth pass

  /** What `draw_shadow_map` needs of the main scene's `main_camera_3d`. */
  datatype Camera = Camera(projection: Mat, view: Mat)

  /** The light-space matrix fitted to the camera's frustum. */
  function LightSpaceFor(local: Mat, camera: Camera): Mat
  {
    LightSpace(DirectionOf(local), Corners(Inverted(Mul(camera.projection, camera.view))))
  }

  function PassHead(programName: string, fbName: string): seq<Event>
  {
    [SetDepthPass(true), UseProgram(Some(programName)), UseFramebuffer(Some(fbName))]
  }

  const PassTail: seq<Event> := [UseFramebuffer(None), UseProgram(None), SetDepthPass(false)]

  /** The calls after the layer switch, up to the closing ones. */
  function PassBody(clear: seq<Event>, lightSpace: Mat): seq<Event>
  {
    clear + [SetUniform("u_light_space_matrix", Matrix(lightSpace)), RenderMainScene]
  }

  /** The pass from the layer switch on: nothing more when the switch throws. */
  function LayerCalls(entry: Option<Framebuffers.AttachmentInfo>, clear: seq<Event>, shadowIndex: int, lightSpace: Mat): Calls
  {
    var call := Framebuffers.LayerCall(entry, shadowIndex);
    if call.Err? then Calls([], Fail(call.error))
    else Calls([call.value] + PassBody(clear, lightSpace) + PassTail, Done)
  }

  /** `draw_shadow_map` once the main camera is known to exist. */
  function PassCalls(programName: string, fbName: string, entry: Option<Framebuffers.AttachmentInfo>, clear: seq<Event>,
                     shadowIndex: int, lightSpace: Mat): Calls
  {
    var rest := LayerCalls(entry, clear, shadowIndex, lightSpace);
    Calls(PassHead(programName, fbName) + rest.events, rest.outcome)
  }

  /** The pass targets exactly layer `shadow_index` and draws the scene once,
   *  with the depth pass on; it finishes exactly when the depth attachment
   *  takes layers. */
  lemma PassTargetsShadowIndex(s: GlState, programName: string, fbName: string, entry: Option<Framebuffers.AttachmentInfo>,
                               useDepth: bool, useColor: bool, clearColor: Vec4, shadowIndex: int, lightSpace: Mat)
    ensures var c := PassCalls(programName, fbName, entry, Framebuffers.ClearBody(useDepth, useColor, clearColor), shadowIndex, lightSpace);
      && (c.outcome == Done <==> Framebuffers.LayerCall(entry, shadowIndex).Ok?)
      && (forall k :: 0 <= k < |c.events| && c.events[k].FramebufferTextureLayer? ==> c.events[k].layer == shadowIndex)
      && (forall k :: 0 <= k < |c.events| && c.events[k] == RenderMainScene ==> k == |c.events| - 4 && Replay(s, c.events[..k]).depthPass)
  {
    var clear := Framebuffers.ClearBody(useDepth, useColor, clearColor);
    var call := Framebuffers.LayerCall(entry, shadowIndex);
    Framebuffers.LayerCallCases(entry, shadowIndex);
    if call.Ok? {
      ClearBodyPlain(useDepth, useColor, clearColor);
      var es := PassCalls(programName, fbName, entry, clear, shadowIndex, lightSpace).events;
      assert es == PassHead(programName, fbName) + ([call.value] + PassBody(clear, lightSpace) + PassTail);
      PassEventsMarked(programName, fbName, call.value, clear, lightSpace, shadowIndex);
      forall k | 0 <= k < |es| && es[k] == RenderMainScene
        ensures Replay(s, es[..k]).depthPass
      {
        DepthPassKept(s, es, k);
      }
    }
  }

  /** The clear calls are `clearDepth`, `clearColor` and `clear` only. */
  lemma ClearBodyPlain(useDepth: bool, useColor: bool, clearColor: Vec4)
    ensures var es := Framebuffers.ClearBody(useDepth, useColor, clearColor);
      forall k :: 0 <= k < |es| ==> es[k].ClearDepth? || es[k].ClearColor? || es[k].Clear?
  {
  }

  /** Where the layer switch, the scene draw and the depth-pass flags sit in
   *  a pass that went through. */
  lemma PassEventsMarked(programName: string, fbName: string, call: Event, clear: seq<Event>, lightSpace: Mat, shadowIndex: int)
    requires call.FramebufferTextureLayer? && call.layer == shadowIndex
    requires forall k :: 0 <= k < |clear| ==> clear[k].ClearDepth? || clear[k].ClearColor? || clear[k].Clear?
    ensures var es := PassHead(programName, fbName) + ([call] + PassBody(clear, lightSpace) + PassTail);
      && es[0] == SetDepthPass(true)
      && (forall k :: 0 <= k < |es| && es[k].FramebufferTextureLayer? ==> es[k].layer == shadowIndex)
      && (forall k :: 0 <= k < |es| && es[k] == RenderMainScene ==> k == |es| - 4)
      && (forall k :: 1 <= k < |es| - 1 ==> !es[k].SetDepthPass?)
  {
    var es := PassHead(programName, fbName) + ([call] + PassBody(clear, lightSpace) + PassTail);
    var n := |clear|;
    assert |es| == n + 9;
    forall k | 0 <= k < |es|
      ensures es[k].FramebufferTextureLayer? ==> es[k].layer == shadowIndex
      ensures es[k] == RenderMainScene ==> k == |es| - 4
      ensures 1 <= k < |es| - 1 ==> !es[k].SetDepthPass?
    {
      if k < 3 {
        assert es[k] == PassHead(programName, fbName)[k];
      } else if k == 3 {
        assert es[k] == call;
      } else if k < 4 + n {
        assert es[k] == clear[k - 4];
      } else if k == 4 + n {
        assert es[k] == SetUniform("u_light_space_matrix", Matrix(lightSpace));
      } else if k == 5 + n {
        assert es[k] == RenderMainScene;
      } else {
        assert es[k] == PassTail[k - 6 - n];
      }
    }
  }

  /** From the layer switch on, a finished pass closes the depth pass, the
   *  program and the framebuffer; a thrown one issues nothing. */
  lemma LayerCallsState(s: GlState, entry: Option<Framebuffers.AttachmentInfo>, clear: seq<Event>, shadowIndex: int, lightSpace: Mat)
    requires Neutral(clear)
    ensures var c := LayerCalls(entry, clear, shadowIndex, lightSpace);
      && (c.outcome == Done ==> Replay(s, c.events) == s.(program := None, framebuffer := None, depthPass := false))
      && (c.outcome != Done ==> c.events == [])
  {
    var call := Framebuffers.LayerCall(entry, shadowIndex);
    Framebuffers.LayerCallCases(entry, shadowIndex);
    if call.Ok? {
      var mid := [call.value] + PassBody(clear, lightSpace);
      assert Neutral(mid) by {
        assert forall k :: 0 <= k < |mid| ==> k == 0 || mid[k] in PassBody(clear, lightSpace);
        assert forall k :: 0 <= k < |clear| ==> Inert(clear[k]);
      }
      ReplayAppend(s, mid, PassTail);
      ReplayNeutral(s, mid);
      ReplayAppend(s, PassTail[..2], PassTail[2..]);
      ReplayTwo(s, PassTail[0], PassTail[1]);
      ReplayOne(Replay(s, PassTail[..2]), PassTail[2]);
    }
  }

  /** A finished pass turns the depth pass off and leaves no program and no
   *  framebuffer in use; a thrown one leaves all three as during the pass. */
  lemma PassState(s: GlState, programName: string, fbName: string, entry: Option<Framebuffers.AttachmentInfo>, clear: seq<Event>,
                  shadowIndex: int, lightSpace: Mat)
    requires Neutral(clear)
    ensures var c := PassCalls(programName, fbName, entry, clear, shadowIndex, lightSpace);
      && (c.outcome == Done ==> Replay(s, c.events) == s.(program := None, framebuffer := None, depthPass := false))
      && (c.outcome != Done ==> Replay(s, c.events) == s.(program := Some(programName), framebuffer := Some(fbName), depthPass := true))
  {
    var head := PassHead(programName, fbName);
    var during := s.(program := Some(programName), framebuffer := Some(fbName), depthPass := true);
    assert Replay(s, head) == during by {
      ReplayAppend(s, head[..2], head[2..]);
      ReplayTwo(s, head[0], head[1]);
      ReplayOne(Replay(s, head[..2]), head[2]);
    }
    var rest := LayerCalls(entry, clear, shadowIndex, lightSpace);
    LayerCallsState(during, entry, clear, shadowIndex, lightSpace);
    ReplayAppend(s, head, rest.events);
    if rest.outcome != Done {
      assert head + rest.events == head;
    }
  }

  // ---------------------------------------------------------------- the light

  /** The label `u_directional_light_space_matrix[${index}]`. */
  function SpaceMatrixLabel(index: nat): string
  {
    "u_directional_light_space_matrix[" + NatToString(index) + "]"
  }

  /** The uniforms `set_uniforms` writes before `Light.set_uniforms`: none, and
   *  a throw, without a main camera. */
  function UniformCalls(arrayName: string, index: nat, hasMainCamera: bool, world: Mat, lightSpace: Mat): Calls
  {
    if !hasMainCamera then Calls([], Fail(NoMainCamera))
    else Calls([SetUniform(Lights.Label(arrayName, index, "rotation"), Matrix(RotationOf(world))),
                SetUniform(SpaceMatrixLabel(index), Matrix(lightSpace))], Done)
  }

  /** Slot `index` of the array and slot `index` of the matrix array are the
   *  ones written, and nothing without a main camera. */
  lemma UniformCallsSlots(arrayName: string, index: nat, hasMainCamera: bool, world: Mat, lightSpace: Mat)
    ensures var c := UniformCalls(arrayName, index, hasMainCamera, world, lightSpace);
      && (c.outcome == Done <==> hasMainCamera)
      && (!hasMainCamera ==> c.events == [])
      && (hasMainCamera ==> |c.events| == 2 && c.events[1].name == SpaceMatrixLabel(index)
                            && c.events[0].name == Lights.Label(arrayName, index, "rotation")
                            && c.events[1].value == Matrix(lightSpace))
  {
  }

  class DirectionalLight {
    /** The `Node3D` this light is. */
    const node: SceneGraph.Node
    /** Its layer in the shared depth array, fixed at construction. */
    const shadowIndex: int
    const program: ShaderPrograms.ShaderProgram
    const framebuffer: Framebuffers.Framebuffer
    var lightSpaceMatrix: Mat

    /** `new DirectionalLight(...)`; `roster` is the graphics manager's `directional_lights`. */
    constructor (name: string, local: Mat, roster: Roster, framebuffer: Framebuffers.Framebuffer,
                 program: ShaderPrograms.ShaderProgram)
      ensures fresh(node) && node.name == name && node.kind == SceneGraph.ThreeD
      ensures node.parent == null && node.children == [] && node.local == local
      ensures this.framebuffer == framebuffer && this.program == program
      ensures shadowIndex == |roster.lights| && lightSpaceMatrix == Identity
    {
      node := new SceneGraph.Node(name, SceneGraph.ThreeD, local);
      shadowIndex := |roster.lights|;
      this.framebuffer := framebuffer;
      this.program := program;
      lightSpaceMatrix := Identity;
    }

    function Depth(): Option<Framebuffers.AttachmentInfo>
      reads framebuffer
    {
      framebuffer.Entry("depth")
    }

    function ClearCalls(): seq<Event>
      reads framebuffer
    {
      Framebuffers.ClearBody(framebuffer.useDepthBuffer, framebuffer.useColorBuffer, framebuffer.clearColor)
    }

    /** The pass up to the layer switch. */
    method OpenPass(ctx: Context)
      requires ctx.Valid()
      modifies ctx
      ensures ctx.Valid() && ctx.log == old(ctx.log) + PassHead(program.name, framebuffer.name)
      ensures ctx.state == old(ctx.state).(program := Some(program.name), framebuffer := Some(framebuffer.name), depthPass := true)
    {
      ctx.Issue(SetDepthPass(true));
      program.Use(ctx);
      framebuffer.Use(ctx);
    }

    /** `framebuffer.clear()` with the framebuffer already in use. */
    method ClearLayer(ctx: Context)
      requires ctx.Valid() && ctx.state.framebuffer == Some(framebuffer.name)
      modifies ctx
      ensures ctx.Valid() && ctx.log == old(ctx.log) + ClearCalls() && ctx.state == old(ctx.state)
    {
      Framebuffers.BracketedShape(framebuffer.name, true, ClearCalls(), true);
      framebuffer.Clear(ctx);
    }

    /** The frustum corners and the light-space matrix fitted to them. */
    method FitLightSpace(camera: Camera)
      modifies this`lightSpaceMatrix
      ensures lightSpaceMatrix == LightSpaceFor(node.local, camera)
    {
      var corners := FrustumCorners(camera.projection, camera.view);
      var lightDir := DirectionOf(node.local);
      lightSpaceMatrix := LightSpace(lightDir, corners);
    }

    /** Set the matrix, render the scene and close the pass. */
    method DrawLayer(ctx: Context)
      requires ctx.Valid()
      modifies ctx
      ensures ctx.Valid() && ctx.log == old(ctx.log) + ([SetUniform("u_light_space_matrix", Matrix(lightSpaceMatrix)), RenderMainScene] + PassTail)
      ensures ctx.state == old(ctx.state).(program := None, framebuffer := None, depthPass := false)
    {
      ctx.Issue(SetUniform("u_light_space_matrix", Matrix(lightSpaceMatrix)));
      ctx.Issue(RenderMainScene);
      ctx.Issue(UseFramebuffer(None));
      ctx.Issue(UseProgram(None));
      ctx.Issue(SetDepthPass(false));
    }

    /** The pass after the layer switch. */
    method FinishPass(ctx: Context, camera: Camera)
      requires ctx.Valid() && ctx.state.framebuffer == Some(framebuffer.name)
      modifies this`lightSpaceMatrix, ctx
      ensures lightSpaceMatrix == LightSpaceFor(node.local, camera)
      ensures ctx.Valid() && ctx.log == old(ctx.log) + (PassBody(ClearCalls(), lightSpaceMatrix) + PassTail)
      ensures ctx.state == old(ctx.state).(program := None, framebuffer := None, depthPass := false)
    {
      ClearLayer(ctx);
      FitLightSpace(camera);
      DrawLayer(ctx);
      Seqs.AppendAssoc(old(ctx.log), ClearCalls(), [SetUniform("u_light_space_matrix", Matrix(lightSpaceMatrix)), RenderMainScene] + PassTail);
      Seqs.AppendAssoc(ClearCalls(), [SetUniform("u_light_space_matrix", Matrix(lightSpaceMatrix)), RenderMainScene], PassTail);
    }

    /** The pass from the layer switch on, with the framebuffer in use. */
    method LayerPass(ctx: Context, camera: Camera) returns (r: Outcome)
      requires ctx.Valid() && ctx.state.framebuffer == Some(framebuffer.name)
      modifies this`lightSpaceMatrix, ctx
      ensures var c := LayerCalls(Depth(), ClearCalls(), shadowIndex, LightSpaceFor(node.local, camera));
        && ctx.Valid() && ctx.log == old(ctx.log) + c.events && r == c.outcome
        && lightSpaceMatrix == (if r == Done then LightSpaceFor(node.local, camera) else old(lightSpaceMatrix))
        && ctx.state == if r == Done then old(ctx.state).(program := None, framebuffer := None, depthPass := false)
                        else old(ctx.state)
    {
      var call := Framebuffers.LayerCall(Depth(), shadowIndex);
      Framebuffers.BracketedShape(framebuffer.name, true, if call.Ok? then [call.value] else [], call.Ok?);
      r := framebuffer.SetAttachmentTextureIndex(ctx, "depth", shadowIndex);
      if r != Done {
        return;
      }
      FinishPass(ctx, camera);
      Seqs.AppendAssoc(old(ctx.log), [call.value], PassBody(ClearCalls(), lightSpaceMatrix) + PassTail);
      Seqs.AppendAssoc([call.value], PassBody(ClearCalls(), lightSpaceMatrix), PassTail);
    }

    /** The pass, once the main camera is known to exist. */
    method RunPass(ctx: Context, camera: Camera) returns (r: Outcome)
      requires ctx.Valid()
      modifies this`lightSpaceMatrix, ctx
      ensures var c := PassCalls(program.name, framebuffer.name, Depth(), ClearCalls(), shadowIndex, LightSpaceFor(node.local, camera));
        && ctx.Valid() && ctx.log == old(ctx.log) + c.events && r == c.outcome
        && lightSpaceMatrix == (if r == Done then LightSpaceFor(node.local, camera) else old(lightSpaceMatrix))
        && ctx.state == if r == Done then old(ctx.state).(program := None, framebuffer := None, depthPass := false)
                        else old(ctx.state).(program := Some(program.name), framebuffer := Some(framebuffer.name), depthPass := true)
    {
      OpenPass(ctx);
      r := LayerPass(ctx, camera);
      Seqs.AppendAssoc(old(ctx.log), PassHead(program.name, framebuffer.name),
                       LayerCalls(Depth(), ClearCalls(), shadowIndex, LightSpaceFor(node.local, camera)).events);
    }

    /** `draw_shadow_map`; `camera` is the main scene's `main_camera_3d`, if any. */
    method DrawShadowMap(ctx: Context, camera: Option<Camera>) returns (r: Outcome)
      requires ctx.Valid()
      modifies this`lightSpaceMatrix, ctx
      ensures camera.None? ==> r == Fail(NoMainCamera) && ctx.log == old(ctx.log) && ctx.state == old(ctx.state)
                               && lightSpaceMatrix == old(lightSpaceMatrix)
      ensures camera.Some? ==>
        var c := PassCalls(program.name, framebuffer.name, Depth(), ClearCalls(), shadowIndex, LightSpaceFor(node.local, camera.value));
        && ctx.Valid() && ctx.log == old(ctx.log) + c.events && r == c.outcome
        && lightSpaceMatrix == (if r == Done then LightSpaceFor(node.local, camera.value) else old(lightSpaceMatrix))
        && ctx.state == if r == Done then old(ctx.state).(program := None, framebuffer := None, depthPass := false)
                        else old(ctx.state).(program := Some(program.name), framebuffer := Some(framebuffer.name), depthPass := true)
    {
      if camera.None? {
        return Fail(NoMainCamera);
      }
      r := RunPass(ctx, camera.value);
    }

    /** `set_uniforms(array_name, index)` up to `Light.set_uniforms`. */
    method SetUniforms(ctx: Context, arrayName: string, index: nat, hasMainCamera: bool) returns (r: Outcome)
      requires ctx.Valid()
      modifies ctx
      ensures ctx.Valid() && ctx.state == old(ctx.state)
      ensures var c := UniformCalls(arrayName, index, hasMainCamera, node.WorldMatrix(), lightSpaceMatrix);
        ctx.log == old(ctx.log) + c.events && r == c.outcome
    {
      if !hasMainCamera {
        return Fail(NoMainCamera);
      }
      ctx.Issue(SetUniform(Lights.Label(arrayName, index, "rotation"), Matrix(RotationOf(node.WorldMatrix()))));
      ctx.Issue(SetUniform(SpaceMatrixLabel(index), Matrix(lightSpaceMatrix)));
      r := Done;
    }

    /** `on_parented`: join the end of the roster, then resize the shadow map. */
    method OnParented(roster: Roster, ctx: Context)
      requires ctx.Valid()
      modifies roster, ctx
      ensures roster.lights == old(roster.lights) + [this]
      ensures ctx.Valid() && ctx.log == old(ctx.log) + [ResizeDirectionalShadowMap] && ctx.state == old(ctx.state)
    {
      roster.lights := roster.lights + [this];
      ctx.Issue(ResizeDirectionalShadowMap);
    }

    /** `on_removed`: the first occurrence leaves the roster, if present, and
     *  the shadow map is resized either way. */
    method OnRemoved(roster: Roster, ctx: Context)
      requires ctx.Valid()
      modifies roster, ctx
      ensures roster.lights == RemoveFirst(old(roster.lights), this)
      ensures ctx.Valid() && ctx.log == old(ctx.log) + [ResizeDirectionalShadowMap] && ctx.state == old(ctx.state)
    {
      var i := IndexOf(roster.lights, this);
      if i > -1 {
        roster.lights := roster.lights[..i] + roster.lights[i + 1..];
      }
      ctx.Issue(ResizeDirectionalShadowMap);
    }
  }

  /** The graphics manager's `directional_lights`. */
  class Roster {
    var lights: seq<DirectionalLight>

    constructor ()
      ensures lights == []
    {
      lights := [];
    }
  }
}
