/** The WebGL 2 context together with the slots of the graphics manager that the
 *  newer engine code drives (`use_shader`, `clear_shader`, `use_framebuffer`,
 *  `set_uniform`, ...). Every call is an entry of an event log; the few calls
 *  that change state the model reasons about also update a `GlState` record,
 *  which is always the replay of the log. */
module Gl {
  import opened Wrappers
  import opened Maths

  // WebGL 2 enumerant values (OpenGL ES 3.0 numbering).
  const NONE: int := 0
  const TRIANGLES: int := 0x0004
  const BACK: int := 0x0405
  const TEXTURE_2D: int := 0x0DE1
  const DEPTH_TEST: int := 0x0B71
  const BLEND: int := 0x0BE2
  const UNSIGNED_BYTE: int := 0x1401
  const UNSIGNED_SHORT: int := 0x1403
  const UNSIGNED_INT: int := 0x1405
  const DEPTH_COMPONENT: int := 0x1902
  const RGBA: int := 0x1908
  const DEPTH_COMPONENT24: int := 0x81A6
  const DEPTH_BUFFER_BIT: int := 0x0100
  const COLOR_BUFFER_BIT: int := 0x4000
  const NEAREST: int := 0x2600
  const LINEAR: int := 0x2601
  const LINEAR_MIPMAP_LINEAR: int := 0x2703
  const TEXTURE_MAG_FILTER: int := 0x2800
  const TEXTURE_MIN_FILTER: int := 0x2801
  const TEXTURE_WRAP_S: int := 0x2802
  const TEXTURE_WRAP_T: int := 0x2803
  const TEXTURE_WRAP_R: int := 0x8072
  const CLAMP_TO_EDGE: int := 0x812F
  const TEXTURE_BASE_LEVEL: int := 0x813C
  const TEXTURE_MAX_LEVEL: int := 0x813D
  const TEXTURE_CUBE_MAP: int := 0x8513
  const TEXTURE_CUBE_MAP_POSITIVE_X: int := 0x8515
  const TEXTURE_2D_ARRAY: int := 0x8C1A
  const TEXTURE0: int := 0x84C0
  const FLOAT: int := 0x1406
  const ARRAY_BUFFER: int := 0x8892
  const ELEMENT_ARRAY_BUFFER: int := 0x8893
  const COLOR_ATTACHMENT0: int := 0x8CE0
  const DEPTH_ATTACHMENT: int := 0x8D00
  const MAX_COLOR_ATTACHMENTS: int := 16   // COLOR_ATTACHMENT0 .. COLOR_ATTACHMENT15

  /** A value passed to `set_uniform`. */
  datatype Value =
    | Number(r: real)
    | Integer(i: int)
    | Flag(b: bool)
    | Vector(v: Vec3)
    | Matrix(m: Mat)
    | Matrices(ms: seq<Mat>)
    | Texture(handle: nat)

  datatype Event =
    // graphics-manager calls
    | UseProgram(program: Option<string>)          // use_shader(name) / clear_shader()
    | UseFramebuffer(framebuffer: Option<string>)  // use_framebuffer(name) / unuse_framebuffer()
    | SetUniform(name: string, value: Value)
    | SetDepthPass(on: bool)                       // main_scene.rendering_depth_map := on
    | ResizePointShadowMap
    | ResizeDirectionalShadowMap
    // calls on collaborators modelled in their own modules
    | RenderMainScene                              // main_scene.render(...)
    | DrawMesh(mesh: nat)                          // mesh.draw()
    // WebGL calls
    | Enable(cap: int)
    | Disable(cap: int)
    | BlendFunc(src: int, dst: int)
    | BindVertexArray(vao: Option<nat>)
    | BindBuffer(target: int, buffer: Option<nat>)
    | BufferData(target: int, length: nat)                 // STATIC_DRAW upload of `length` elements
    | EnableVertexAttribArray(attribute: int)
    | VertexAttribPointer(attribute: int, size: int, stride: int, byteOffset: int)  // FLOAT, not normalised
    | DrawElements(mode: int, count: int, indexType: int, offset: int)
    | BindFramebufferHandle(handle: Option<nat>)
    | FramebufferTexture2D(attachment: int, target: int, texture: nat, level: JsValue)
    | FramebufferTextureLayer(attachment: int, texture: nat, level: JsValue, layer: int)
    | DrawBuffers(buffers: seq<int>)
    | ReadBuffer(readSource: int)
    | ClearDepth(depth: real)
    | ClearColor(color: Vec4)
    | Clear(mask: int)
    | BindTexture(target: int, bound: Option<nat>)
    | TexImage2D(target: int, level: JsValue, formats: TexFormat, width: JsValue, height: JsValue, source: JsValue, dataType: JsValue)
    | TexImage3D(target: int, level: JsValue, formats: TexFormat, width: JsValue, height: JsValue, layers: LayerCount, dataType: JsValue)
    | TexSubImage3D(target: int, level: JsValue, layer: int, image: nat, format: int, dataType: JsValue)
    | TexParameter(target: int, pname: int, param: int)
    | GenerateMipmap(target: int)

  /** The calls a step issued and whether it then threw. */
  datatype Calls = Calls(events: seq<Event>, outcome: Outcome)

  /** The `internalformat` and `format` arguments of a texture allocation or upload. */
  datatype TexFormat = TexFormat(internalFormat: int, format: int)

  /** What the colour creators pass: RGBA storage of RGBA pixels. */
  const ColorFormat := TexFormat(RGBA, RGBA)

  /** What the depth creators pass: 24-bit depth storage of depth pixels. */
  const DepthFormat := TexFormat(DEPTH_COMPONENT24, DEPTH_COMPONENT)

  /** The depth of a texture array: `Math.max(x, 1)` of a count, or NaN when
   *  the argument is not a number. */
  datatype LayerCount = Layers(n: int) | NaNLayers

  /** The part of the graphics state the model reasons about. */
  datatype GlState = GlState(
    program: Option<string>,      // the graphics manager's active shader program
    framebuffer: Option<string>,  // the graphics manager's bound framebuffer object
    depthTest: bool,
    blend: bool,
    vao: Option<nat>,
    depthPass: bool)              // the main scene's `rendering_depth_map`

  const Initial := GlState(None, None, false, false, None, false)

  /** Calls that touch none of the modelled state slots. */
  predicate Inert(e: Event)
  {
    !(e.UseProgram? || e.UseFramebuffer? || e.SetDepthPass? || e.Enable? || e.Disable? || e.BindVertexArray?)
  }

  /** The effect of one event on the state. */
  function Apply(s: GlState, e: Event): (t: GlState)
    ensures Inert(e) ==> t == s
  {
    match e
    case UseProgram(p) => s.(program := p)
    case UseFramebuffer(f) => s.(framebuffer := f)
    case SetDepthPass(on) => s.(depthPass := on)
    case Enable(cap) =>
      if cap == DEPTH_TEST then s.(depthTest := true) else if cap == BLEND then s.(blend := true) else s
    case Disable(cap) =>
      if cap == DEPTH_TEST then s.(depthTest := false) else if cap == BLEND then s.(blend := false) else s
    case BindVertexArray(v) => s.(vao := v)
    case _ => s
  }

  /** The state after replaying `es` from `s`, one event at a time. */
  function Replay(s: GlState, es: seq<Event>): GlState
  {
    if es == [] then s else Apply(Replay(s, es[..|es| - 1]), es[|es| - 1])
  }

  lemma {:induction false} ReplayAppend(s: GlState, a: seq<Event>, b: seq<Event>)
    ensures Replay(s, a + b) == Replay(Replay(s, a), b)
    decreases |b|
  {
    if b == [] {
      assert a + b == a;
    } else {
      assert (a + b)[..|a + b| - 1] == a + b[..|b| - 1];
      ReplayAppend(s, a, b[..|b| - 1]);
    }
  }

  lemma ReplayOne(s: GlState, e: Event)
    ensures Replay(s, [e]) == Apply(s, e)
  {
    assert [e][..0] == [];
  }

  lemma ReplayTwo(s: GlState, e: Event, f: Event)
    ensures Replay(s, [e, f]) == Apply(Apply(s, e), f)
  {
    assert [e, f][..1] == [e];
    ReplayOne(s, e);
  }

  /** After a `SetDepthPass(true)` at the front, the depth pass stays on until
   *  the next `SetDepthPass`. */
  lemma {:induction false} DepthPassKept(s: GlState, es: seq<Event>, k: nat)
    requires 1 <= k <= |es| && es[0] == SetDepthPass(true)
    requires forall j :: 1 <= j < k ==> !es[j].SetDepthPass?
    ensures Replay(s, es[..k]).depthPass
  {
    if k == 1 {
      ReplayOne(s, es[0]);
    } else {
      assert es[..k][..k - 1] == es[..k - 1];
      DepthPassKept(s, es, k - 1);
    }
  }

  /** Events that leave every state slot alone. */
  predicate Neutral(es: seq<Event>)
  {
    forall i :: 0 <= i < |es| ==> Inert(es[i])
  }

  lemma {:induction false} ReplayNeutral(s: GlState, es: seq<Event>)
    requires Neutral(es)
    ensures Replay(s, es) == s
    decreases |es|
  {
    if es != [] {
      assert Neutral(es[..|es| - 1]);
      ReplayNeutral(s, es[..|es| - 1]);
      assert Inert(es[|es| - 1]);
    }
  }

  /** `set_uniform` calls, one per (label, value) pair, in order. */
  function Uniforms(writes: seq<(string, Value)>): (es: seq<Event>)
    ensures |es| == |writes|
  {
    if writes == [] then [] else [SetUniform(writes[0].0, writes[0].1)] + Uniforms(writes[1..])
  }

  lemma {:induction false} UniformsNeutral(writes: seq<(string, Value)>)
    ensures Neutral(Uniforms(writes))
  {
    if writes != [] {
      UniformsNeutral(writes[1..]);
    }
  }

  lemma {:induction false} UniformsAppend(a: seq<(string, Value)>, b: seq<(string, Value)>)
    ensures Uniforms(a + b) == Uniforms(a) + Uniforms(b)
    decreases |a|
  {
    if a == [] {
      assert a + b == b;
    } else {
      assert (a + b)[0] == a[0] && (a + b)[1..] == a[1..] + b;
      UniformsAppend(a[1..], b);
    }
  }

  class Context {
    var state: GlState
    var log: seq<Event>

    ghost predicate Valid()
      reads this
    {
      state == Replay(Initial, log)
    }

    constructor ()
      ensures Valid() && log == [] && state == Initial
    {
      state := Initial;
      log := [];
    }

    /** Issue one call. */
    method Issue(e: Event)
      requires Valid()
      modifies this
      ensures Valid() && log == old(log) + [e] && state == Apply(old(state), e)
    {
      state := Apply(state, e);
      log := log + [e];
      assert log[..|log| - 1] == old(log);
    }

    /** Issue calls in order. */
    method IssueAll(es: seq<Event>)
      requires Valid()
      modifies this
      ensures Valid() && log == old(log) + es && state == Replay(old(state), es)
    {
      var i := 0;
      while i < |es|
        invariant 0 <= i <= |es|
        invariant Valid() && log == old(log) + es[..i] && state == Replay(old(state), es[..i])
      {
        assert es[..i + 1][..i] == es[..i];
        Issue(es[i]);
        assert es[..i + 1] == es[..i] + [es[i]];
        i := i + 1;
      }
      assert es[..i] == es;
    }

    method SetUniforms(writes: seq<(string, Value)>)
      requires Valid()
      modifies this
      ensures Valid() && log == old(log) + Uniforms(writes) && state == old(state)
    {
      IssueAll(Uniforms(writes));
      UniformsNeutral(writes);
      ReplayNeutral(old(state), Uniforms(writes));
    }
  }
}
