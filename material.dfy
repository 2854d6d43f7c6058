/** `Material` of src/graphics/assets/material.ts: how a material picks its
 *  program and options, which uniforms it writes, and how `draw_start` and
 *  `draw_end` bracket a draw with DEPTH_TEST, BLEND and the active program. */
module Materials {
  import opened Wrappers
  import opened Maths
  import opened Gl
  import opened ShaderPrograms

  /** A material input: a constant or a texture. */
  datatype Channel<T> = Constant(value: T) | Textured(texture: nat)

  datatype BlendFunction = BlendFunction(sfactor: int, dfactor: int)

  /** `MaterialOptionsObject`: both members may be left undefined. */
  datatype Options = Options(enableDepthTest: Option<bool>, blendFunction: Option<BlendFunction>)

  /** The `shader_program` argument: absent or null, a program, or a name. */
  datatype ProgramArg = Unspecified | ByInstance(program: ShaderProgram) | ByName(name: string)

  /** The constructor's choice: a truthy argument is used directly or looked
   *  up by name (an unknown name gives `undefined`, here null); a falsy one,
   *  including the empty name, gives null. This is the choice in
   *  `src/graphics/assets/material.ts`; the older `src/graphics/assets.ts`
   *  repeats it, and `LegacyAssets.ResolveProgram` models that copy. */
  function ResolveProgram(arg: ProgramArg, programs: map<string, ShaderProgram>): (p: ShaderProgram?)
    ensures arg == Unspecified || arg == ByName("") ==> p == null
    ensures arg.ByInstance? ==> p == arg.program
    ensures arg.ByName? && arg.name != "" ==> (p != null <==> arg.name in programs) && (p != null ==> p == programs[arg.name])
  {
    match arg
    case Unspecified => null
    case ByInstance(q) => q
    case ByName(n) => if n != "" && n in programs then programs[n] else null
  }

  function ColorValue(c: Channel<Vec3>): Value
  {
    match c
    case Constant(v) => Vector(v)
    case Textured(t) => Texture(t)
  }

  function ScalarValue(c: Channel<real>): Value
  {
    match c
    case Constant(r) => Number(r)
    case Textured(t) => Texture(t)
  }

  /** The material inputs that have uniforms. */
  datatype Field = Normal | Albedo | Metalic | Roughness | Ao

  /** The three uniforms of an input: `material.has_X_texture`,
   *  `material_texture_X` and `material.X`. */
  datatype Key = HasTexture(field: Field) | TextureOf(field: Field) | ValueOf(field: Field)

  function FieldName(f: Field): string
  {
    match f
    case Normal => "normal"
    case Albedo => "albedo"
    case Metalic => "metalic"
    case Roughness => "roughness"
    case Ao => "ao"
  }

  /** The uniform label of a key. */
  function KeyName(k: Key): string
  {
    match k
    case HasTexture(f) => "material.has_" + FieldName(f) + "_texture"
    case TextureOf(f) => "material_texture_" + FieldName(f)
    case ValueOf(f) => "material." + FieldName(f)
  }

  /** The flag uniform, then either the texture or the constant uniform, of one input. */
  function ChannelWrites(f: Field, isTexture: bool, value: Value): seq<(Key, Value)>
  {
    if isTexture then [(HasTexture(f), Flag(true)), (TextureOf(f), value)] else [(HasTexture(f), Flag(false)), (ValueOf(f), value)]
  }

  /** `set_uniforms`: normal, albedo, metalic and roughness, in that order. */
  function KeyedWrites(normal: Option<nat>, albedo: Channel<Vec3>, metalic: Channel<real>, roughness: Channel<real>)
    : (ws: seq<(Key, Value)>)
    ensures |ws| == if normal.Some? then 8 else 7
  {
    (if normal.None? then [(HasTexture(Normal), Flag(false))]
     else [(HasTexture(Normal), Flag(true)), (TextureOf(Normal), Texture(normal.value))]) +
    ChannelWrites(Albedo, albedo.Textured?, ColorValue(albedo)) +
    ChannelWrites(Metalic, metalic.Textured?, ScalarValue(metalic)) +
    ChannelWrites(Roughness, roughness.Textured?, ScalarValue(roughness))
  }

  /** The uniform writes with their labels spelled out. */
  function Named(ws: seq<(Key, Value)>): (ns: seq<(string, Value)>)
    ensures |ns| == |ws| && forall i :: 0 <= i < |ws| ==> ns[i] == (KeyName(ws[i].0), ws[i].1)
  {
    if ws == [] then [] else [(KeyName(ws[0].0), ws[0].1)] + Named(ws[1..])
  }

  function MaterialWrites(normal: Option<nat>, albedo: Channel<Vec3>, metalic: Channel<real>, roughness: Channel<real>)
    : seq<(string, Value)>
  {
    Named(KeyedWrites(normal, albedo, metalic, roughness))
  }

  /** The keys written. */
  function KeySet(ws: seq<(Key, Value)>): (ks: set<Key>)
    ensures forall i :: 0 <= i < |ws| ==> ws[i].0 in ks
  {
    if ws == [] then {} else {ws[0].0} + KeySet(ws[1..])
  }

  lemma {:induction false} KeySetAppend(a: seq<(Key, Value)>, b: seq<(Key, Value)>)
    ensures KeySet(a + b) == KeySet(a) + KeySet(b)
    decreases |a|
  {
    if a != [] {
      assert (a + b)[1..] == a[1..] + b;
      KeySetAppend(a[1..], b);
    } else {
      assert a + b == b;
    }
  }

  /** The normal flag is false exactly without a normal map, for albedo,
   *  metalic and roughness the flag says whether the input is a texture,
   *  and each flag is followed by the texture or the constant. */
  lemma MaterialFlags(normal: Option<nat>, albedo: Channel<Vec3>, metalic: Channel<real>, roughness: Channel<real>)
    ensures var ws := KeyedWrites(normal, albedo, metalic, roughness);
      var n := if normal.Some? then 2 else 1;
      ws[0] == (HasTexture(Normal), Flag(normal.Some?)) &&
      (normal.Some? ==> ws[1] == (TextureOf(Normal), Texture(normal.value))) &&
      ws[n] == (HasTexture(Albedo), Flag(albedo.Textured?)) &&
      ws[n + 1] == (if albedo.Textured? then TextureOf(Albedo) else ValueOf(Albedo), ColorValue(albedo)) &&
      ws[n + 2] == (HasTexture(Metalic), Flag(metalic.Textured?)) &&
      ws[n + 3] == (if metalic.Textured? then TextureOf(Metalic) else ValueOf(Metalic), ScalarValue(metalic)) &&
      ws[n + 4] == (HasTexture(Roughness), Flag(roughness.Textured?)) &&
      ws[n + 5] == (if roughness.Textured? then TextureOf(Roughness) else ValueOf(Roughness), ScalarValue(roughness))
  {
  }

  /** The keys written, input by input. */
  lemma KeyedWritesKeys(normal: Option<nat>, albedo: Channel<Vec3>, metalic: Channel<real>, roughness: Channel<real>)
    ensures KeySet(KeyedWrites(normal, albedo, metalic, roughness)) ==
      (if normal.Some? then {HasTexture(Normal), TextureOf(Normal)} else {HasTexture(Normal)}) +
      {HasTexture(Albedo), if albedo.Textured? then TextureOf(Albedo) else ValueOf(Albedo)} +
      {HasTexture(Metalic), if metalic.Textured? then TextureOf(Metalic) else ValueOf(Metalic)} +
      {HasTexture(Roughness), if roughness.Textured? then TextureOf(Roughness) else ValueOf(Roughness)}
  {
    var n: seq<(Key, Value)> := if normal.None? then [(HasTexture(Normal), Flag(false))]
      else [(HasTexture(Normal), Flag(true)), (TextureOf(Normal), Texture(normal.value))];
    var a := ChannelWrites(Albedo, albedo.Textured?, ColorValue(albedo));
    var m := ChannelWrites(Metalic, metalic.Textured?, ScalarValue(metalic));
    var r := ChannelWrites(Roughness, roughness.Textured?, ScalarValue(roughness));
    KeySetAppend(n + a + m, r);
    KeySetAppend(n + a, m);
    KeySetAppend(n, a);
    KeySetPair(a);
    KeySetPair(m);
    KeySetPair(r);
    if normal.Some? { KeySetPair(n); } else { assert n[1..] == []; }
  }

  lemma KeySetPair(ws: seq<(Key, Value)>)
    requires |ws| == 2
    ensures KeySet(ws) == {ws[0].0, ws[1].0}
  {
    assert ws[1..][1..] == [];
    assert KeySet(ws[1..]) == {ws[1].0} + KeySet(ws[1..][1..]);
  }

  /** Exactly one of the texture and the constant uniform of an input is
   *  written, the normal map only when there is one, and nothing for `ao`. */
  lemma MaterialKeys(normal: Option<nat>, albedo: Channel<Vec3>, metalic: Channel<real>, roughness: Channel<real>)
    ensures var ks := KeySet(KeyedWrites(normal, albedo, metalic, roughness));
      (TextureOf(Normal) in ks <==> normal.Some?) && ValueOf(Normal) !in ks &&
      (TextureOf(Albedo) in ks <==> albedo.Textured?) && (ValueOf(Albedo) in ks <==> albedo.Constant?) &&
      (TextureOf(Metalic) in ks <==> metalic.Textured?) && (ValueOf(Metalic) in ks <==> metalic.Constant?) &&
      (TextureOf(Roughness) in ks <==> roughness.Textured?) && (ValueOf(Roughness) in ks <==> roughness.Constant?) &&
      forall k :: k in ks ==> k.field != Ao
  {
    KeysNormalAlbedo(normal, albedo, metalic, roughness);
    KeysMetalicRoughness(normal, albedo, metalic, roughness);
    KeysNoAo(normal, albedo, metalic, roughness);
  }

  lemma KeysNormalAlbedo(normal: Option<nat>, albedo: Channel<Vec3>, metalic: Channel<real>, roughness: Channel<real>)
    ensures var ks := KeySet(KeyedWrites(normal, albedo, metalic, roughness));
      (TextureOf(Normal) in ks <==> normal.Some?) && ValueOf(Normal) !in ks &&
      (TextureOf(Albedo) in ks <==> albedo.Textured?) && (ValueOf(Albedo) in ks <==> albedo.Constant?)
  {
    KeyedWritesKeys(normal, albedo, metalic, roughness);
  }

  lemma KeysMetalicRoughness(normal: Option<nat>, albedo: Channel<Vec3>, metalic: Channel<real>, roughness: Channel<real>)
    ensures var ks := KeySet(KeyedWrites(normal, albedo, metalic, roughness));
      (TextureOf(Metalic) in ks <==> metalic.Textured?) && (ValueOf(Metalic) in ks <==> metalic.Constant?) &&
      (TextureOf(Roughness) in ks <==> roughness.Textured?) && (ValueOf(Roughness) in ks <==> roughness.Constant?)
  {
    KeyedWritesKeys(normal, albedo, metalic, roughness);
  }

  lemma KeysNoAo(normal: Option<nat>, albedo: Channel<Vec3>, metalic: Channel<real>, roughness: Channel<real>)
    ensures forall k :: k in KeySet(KeyedWrites(normal, albedo, metalic, roughness)) ==> k.field != Ao
  {
    KeyedWritesKeys(normal, albedo, metalic, roughness);
  }

  /** The GL calls `draw_start` makes before its uniforms. */
  function StartEvents(enableDepthTest: bool, blend: Option<BlendFunction>, program: string): seq<Event>
  {
    [if enableDepthTest then Enable(DEPTH_TEST) else Disable(DEPTH_TEST)] +
    (if blend.Some? then [Enable(BLEND), BlendFunc(blend.value.sfactor, blend.value.dfactor)] else [Disable(BLEND)]) +
    [UseProgram(Some(program))]
  }

  /** `draw_start`'s calls set depth testing and blending from the options
   *  and make the program current. */
  lemma {:induction false} StartEventsState(s: GlState, enableDepthTest: bool, blend: Option<BlendFunction>, program: string)
    ensures Replay(s, StartEvents(enableDepthTest, blend, program)) ==
      s.(depthTest := enableDepthTest, blend := blend.Some?, program := Some(program))
  {
    var d := [if enableDepthTest then Enable(DEPTH_TEST) else Disable(DEPTH_TEST)];
    var b := if blend.Some? then [Enable(BLEND), BlendFunc(blend.value.sfactor, blend.value.dfactor)] else [Disable(BLEND)];
    var u := [UseProgram(Some(program))];
    ReplayAppend(s, d + b, u);
    ReplayAppend(s, d, b);
    ReplayOne(s, d[0]);
    var t := Replay(s, d);
    if blend.Some? { ReplayTwo(t, b[0], b[1]); } else { ReplayOne(t, b[0]); }
    ReplayOne(Replay(t, b), u[0]);
  }

  /** The calls of `draw_end`: only what `draw_start` turned on is turned off. */
  function EndEvents(enableDepthTest: bool, blend: Option<BlendFunction>): seq<Event>
  {
    (if enableDepthTest then [Disable(DEPTH_TEST)] else []) +
    (if blend.Some? then [Disable(BLEND)] else []) +
    [UseProgram(None)]
  }

  lemma {:induction false} EndEventsState(s: GlState, enableDepthTest: bool, blend: Option<BlendFunction>)
    ensures Replay(s, EndEvents(enableDepthTest, blend)) ==
      s.(depthTest := if enableDepthTest then false else s.depthTest, blend := if blend.Some? then false else s.blend,
         program := None)
  {
    var d: seq<Event> := if enableDepthTest then [Disable(DEPTH_TEST)] else [];
    var b: seq<Event> := if blend.Some? then [Disable(BLEND)] else [];
    var u := [UseProgram(None)];
    ReplayAppend(s, d + b, u);
    ReplayAppend(s, d, b);
    if enableDepthTest { ReplayOne(s, d[0]); }
    var t := Replay(s, d);
    if blend.Some? { ReplayOne(t, b[0]); }
    ReplayOne(Replay(t, b), u[0]);
  }

  /** Whatever the options, a `draw_start` followed by calls that touch no
   *  modelled slot and then a `draw_end` leaves DEPTH_TEST and BLEND off and
   *  no program active. */
  lemma {:induction false} BracketClears(s: GlState, enableDepthTest: bool, blend: Option<BlendFunction>, program: string,
                                       middle: seq<Event>)
    requires Neutral(middle)
    ensures var t := Replay(s, StartEvents(enableDepthTest, blend, program) + middle + EndEvents(enableDepthTest, blend));
      !t.depthTest && !t.blend && t.program == None && t.framebuffer == s.framebuffer && t.depthPass == s.depthPass
  {
    var start := StartEvents(enableDepthTest, blend, program);
    ReplayAppend(s, start + middle, EndEvents(enableDepthTest, blend));
    ReplayAppend(s, start, middle);
    StartEventsState(s, enableDepthTest, blend, program);
    ReplayNeutral(Replay(s, start), middle);
    EndEventsState(Replay(s, start + middle), enableDepthTest, blend);
  }

  class Material {
    const name: string
    const albedo: Channel<Vec3>
    const metalic: Channel<real>
    const roughness: Channel<real>
    const ao: Channel<real>
    const normal: Option<nat>
    var program: ShaderProgram?
    const enableDepthTest: bool
    const blendFunction: Option<BlendFunction>

    /** Depth testing defaults to on and is overridden only by a defined option. */
    constructor (name: string, albedo: Channel<Vec3>, metalic: Channel<real>, roughness: Channel<real>, ao: Channel<real>,
                 normal: Option<nat>, arg: ProgramArg, programs: map<string, ShaderProgram>, options: Options)
      ensures this.name == name && this.albedo == albedo && this.metalic == metalic && this.roughness == roughness
      ensures this.ao == ao && this.normal == normal
      ensures program == ResolveProgram(arg, programs)
      ensures enableDepthTest == (options.enableDepthTest.None? || options.enableDepthTest.value)
      ensures blendFunction == options.blendFunction
    {
      this.name := name;
      this.albedo := albedo;
      this.metalic := metalic;
      this.roughness := roughness;
      this.ao := ao;
      this.normal := normal;
      program := ResolveProgram(arg, programs);
      enableDepthTest := if options.enableDepthTest.Some? then options.enableDepthTest.value else true;
      blendFunction := options.blendFunction;
    }

    /** `set_shader_program`: an instance, or whatever is registered under the name. */
    method SetShaderProgram(arg: ProgramArg, programs: map<string, ShaderProgram>)
      requires !arg.Unspecified?
      modifies this`program
      ensures arg.ByInstance? ==> program == arg.program
      ensures arg.ByName? ==> program == if arg.name in programs then programs[arg.name] else null
    {
      match arg
      case ByInstance(q) => program := q;
      case ByName(n) => program := if n in programs then programs[n] else null;
    }

    /** The writes of `set_uniforms`. */
    function UniformWrites(): seq<(string, Value)>
    {
      MaterialWrites(normal, albedo, metalic, roughness)
    }

    /** `set_uniforms` against whatever program is active. */
    method SetUniforms(ctx: Context)
      requires ctx.Valid()
      modifies ctx
      ensures ctx.Valid() && ctx.log == old(ctx.log) + Uniforms(UniformWrites()) && ctx.state == old(ctx.state)
    {
      ctx.SetUniforms(UniformWrites());
    }

    /** `set_shader_uniforms(program)`: bracketed by `use` and `clear_shader`. */
    method SetShaderUniforms(p: ShaderProgram, ctx: Context)
      requires ctx.Valid()
      modifies ctx
      ensures ctx.Valid() && ctx.state == old(ctx.state).(program := None)
      ensures ctx.log == old(ctx.log) + [UseProgram(Some(p.name))] + Uniforms(UniformWrites()) + [UseProgram(None)]
    {
      var writes := UniformWrites();
      p.Use(ctx);
      ctx.SetUniforms(writes);
      ctx.Issue(UseProgram(None));
    }

    /** `draw_start`: throws without a program before any GL call; otherwise
     *  sets depth testing and blending from the options, makes the program
     *  current and writes the material uniforms. */
    method DrawStart(ctx: Context) returns (r: Outcome)
      requires ctx.Valid()
      modifies ctx
      ensures ctx.Valid()
      ensures program == null ==> r == Fail(NoShaderProgram) && ctx.log == old(ctx.log) && ctx.state == old(ctx.state)
      ensures program != null ==> (r == Done &&
        ctx.log == old(ctx.log) + StartEvents(enableDepthTest, blendFunction, program.name) + Uniforms(UniformWrites()) &&
        ctx.state == old(ctx.state).(depthTest := enableDepthTest, blend := blendFunction.Some?, program := Some(program.name)))
    {
      if program == null {
        return Fail(NoShaderProgram);
      }
      var start := StartEvents(enableDepthTest, blendFunction, program.name);
      StartEventsState(ctx.state, enableDepthTest, blendFunction, program.name);
      ctx.IssueAll(start);
      SetUniforms(ctx);
      r := Done;
    }

    /** `draw_end`: turn off what `draw_start` turned on, and clear the program. */
    method DrawEnd(ctx: Context)
      requires ctx.Valid()
      modifies ctx
      ensures ctx.Valid() && ctx.log == old(ctx.log) + EndEvents(enableDepthTest, blendFunction)
      ensures ctx.state == old(ctx.state).(depthTest := if enableDepthTest then false else old(ctx.state).depthTest,
                                          blend := if blendFunction.Some? then false else old(ctx.state).blend,
                                          program := None)
    {
      EndEventsState(ctx.state, enableDepthTest, blendFunction);
      ctx.IssueAll(EndEvents(enableDepthTest, blendFunction));
    }
  }
}
