/** The older `GraphicsManager` and its `ShaderProgram`
 *  (src/graphics/graphics_manager.ts): a program table, one active-program
 *  slot, uniform uploads dispatched on the declared uniform type with a lazily
 *  cached location, and the vertex-attribute table with its vertex count. */
module LegacyGraphics {
  import opened Wrappers
  import opened Maths
  import Gl

  datatype UniformType = TEXTURE_2D | F | I | F2V | I2V | F3V | I3V | F4V | I4V | F2M | F3M | F4M

  datatype Uniform = Uniform(key: string, loc: Option<nat>, utype: UniformType, textureUnit: Option<nat>)

  /** One `add_uniform(label, type)` call. */
  datatype Declaration = Declaration(raw: string, utype: UniformType)

  /** The WebGL upload functions `set_uniform` can call. */
  datatype UploadFn = Uniform1f | Uniform1i | Uniform2fv | Uniform2iv | Uniform3fv | Uniform3iv
                    | UniformMatrix2fv | UniformMatrix3fv | UniformMatrix4fv

  /** The WebGL calls this manager issues. */
  datatype Call =
    | UseProgram(handle: Option<nat>)
    | ActiveTexture(unit: int)
    | BindTexture2D(texture: Option<nat>)
    | Upload(fn: UploadFn, loc: Option<nat>, value: Gl.Value, transpose: bool)
    | BindArrayBuffer(buffer: Option<nat>)
    | BufferData(length: nat, dynamic: bool)
    | BufferSubData(offset: int, length: nat)
    | EnableVertexAttribArray(location: int)
    | VertexAttribPointer(location: int, size: int, attributeType: int, normalized: bool)
    | BindVertexArray(vao: Option<nat>)
    | BindElementBuffer(buffer: Option<nat>)
    | DrawElements(mode: int, count: int, indexType: int, offset: int)

  /** The vertex array object left bound by a call sequence. */
  function BoundVao(cs: seq<Call>): Option<nat>
  {
    if cs == [] then None
    else if cs[|cs| - 1].BindVertexArray? then cs[|cs| - 1].vao
    else BoundVao(cs[..|cs| - 1])
  }

  datatype VertexAttribute = VertexAttribute(key: string, attributeType: int, size: int, normalized: bool,
                                             dynamic: bool, buffer: nat)

  /** `texture_counter` after the declarations: TEXTURE_2D declarations only. */
  function TextureCount(decls: seq<Declaration>): nat
  {
    if decls == [] then 0
    else TextureCount(decls[..|decls| - 1]) + (if decls[|decls| - 1].utype == TEXTURE_2D then 1 else 0)
  }

  /** The entries (locations aside) after the declarations: labels are stored verbatim. */
  function Registry(decls: seq<Declaration>): map<string, Uniform>
  {
    if decls == [] then map[]
    else
      var before := decls[..|decls| - 1];
      var d := decls[|decls| - 1];
      Registry(before)[d.raw := Uniform(d.raw, None, d.utype, if d.utype == TEXTURE_2D then Some(TextureCount(before)) else None)]
  }

  /** The k-th TEXTURE_2D declaration gets unit k; the last declaration of a
   *  label decides its entry. */
  lemma {:induction false} RegistryEntry(decls: seq<Declaration>, i: nat)
    requires i < |decls|
    requires forall j :: i < j < |decls| ==> decls[j].raw != decls[i].raw
    ensures decls[i].raw in Registry(decls)
    ensures Registry(decls)[decls[i].raw] ==
      Uniform(decls[i].raw, None, decls[i].utype, if decls[i].utype == TEXTURE_2D then Some(TextureCount(decls[..i])) else None)
    decreases |decls|
  {
    var before := decls[..|decls| - 1];
    if i < |decls| - 1 {
      forall j | i < j < |before| ensures before[j].raw != before[i].raw { assert before[j] == decls[j]; }
      RegistryEntry(before, i);
      assert before[i] == decls[i] && before[..i] == decls[..i];
    } else {
      assert before == decls[..i];
    }
  }

  /** Exactly the declared labels, verbatim, are registered. */
  lemma {:induction false} RegistryKeys(decls: seq<Declaration>, k: string)
    ensures k in Registry(decls) <==> exists i :: 0 <= i < |decls| && decls[i].raw == k
    decreases |decls|
  {
    if decls != [] {
      var before := decls[..|decls| - 1];
      RegistryKeys(before, k);
      if k in Registry(before) {
        var i :| 0 <= i < |before| && before[i].raw == k;
        assert decls[i] == before[i];
      }
      if exists i :: 0 <= i < |decls| && decls[i].raw == k {
        var i :| 0 <= i < |decls| && decls[i].raw == k;
        if i < |before| { assert before[i] == decls[i]; }
      }
    }
  }

  /** A registry entry is TEXTURE_2D exactly when it carries a texture unit. */
  predicate WellFormed(u: Uniform)
  {
    u.textureUnit.Some? <==> u.utype == TEXTURE_2D
  }

  lemma {:induction false} RegistryWellFormed(decls: seq<Declaration>)
    ensures forall k :: k in Registry(decls) ==> WellFormed(Registry(decls)[k]) && Registry(decls)[k].key == k
    decreases |decls|
  {
    if decls != [] { RegistryWellFormed(decls[..|decls| - 1]); }
  }

  /** The upload function for a type; F4V and I4V have none and upload nothing. */
  function UploadOf(t: UniformType): (r: Option<UploadFn>)
    ensures r == None <==> t == F4V || t == I4V || t == TEXTURE_2D
  {
    match t
    case TEXTURE_2D => None
    case F => Some(Uniform1f)
    case I => Some(Uniform1i)
    case F2V => Some(Uniform2fv)
    case I2V => Some(Uniform2iv)
    case F3V => Some(Uniform3fv)
    case I3V => Some(Uniform3iv)
    case F4V => None
    case I4V => None
    case F2M => Some(UniformMatrix2fv)
    case F3M => Some(UniformMatrix3fv)
    case F4M => Some(UniformMatrix4fv)
  }

  /** The calls one `set_uniform` makes for an entry whose location is known. */
  function UploadCalls(u: Uniform, value: Gl.Value, transpose: bool): (cs: seq<Call>)
    requires WellFormed(u)
    ensures cs == [] <==> u.utype == F4V || u.utype == I4V
    ensures u.utype == TEXTURE_2D ==>
      |cs| == 3 && cs[0] == ActiveTexture(Gl.TEXTURE0 + u.textureUnit.value) &&
      cs[2] == Upload(Uniform1i, u.loc, Gl.Integer(u.textureUnit.value), false)
    ensures u.utype != TEXTURE_2D && cs != [] ==> |cs| == 1 && cs[0].Upload? && cs[0].value == value && cs[0].loc == u.loc
  {
    if u.utype == TEXTURE_2D then
      var unit := u.textureUnit.value;
      [ActiveTexture(Gl.TEXTURE0 + unit),
       BindTexture2D(if value.Texture? then Some(value.handle) else None),
       Upload(Uniform1i, u.loc, Gl.Integer(unit), false)]
    else
      match UploadOf(u.utype)
      case None => []
      case Some(fn) =>
        var matrix := fn == UniformMatrix2fv || fn == UniformMatrix3fv || fn == UniformMatrix4fv;
        [Upload(fn, u.loc, value, matrix && transpose)]
  }

  /** A program's table, with the location looked up on first use. */
  predicate AllWellFormed(uniforms: map<string, Uniform>)
  {
    forall k :: k in uniforms ==> WellFormed(uniforms[k])
  }

  /** What one `set_uniform` does to the active program's table, and the calls it makes. */
  datatype Effect = Effect(outcome: Outcome, uniforms: map<string, Uniform>, calls: seq<Call>)

  /** `set_uniform(key, value, transpose)` on the active program: the entry
   *  must exist; its location is looked up only while it is still null, which
   *  needs a linked program; the upload follows the entry's type. */
  function SetUniformEffect(uniforms: map<string, Uniform>, program: Option<nat>, key: string, value: Gl.Value,
                            transpose: bool, locate: string -> Option<nat>): (e: Effect)
    requires AllWellFormed(uniforms)
    ensures e.uniforms.Keys == uniforms.Keys && AllWellFormed(e.uniforms)
    ensures e.outcome == Done <==> key in uniforms && (uniforms[key].loc.Some? || program.Some?)
    ensures e.outcome != Done ==> e == Effect(Fail(TypeError), uniforms, [])
  {
    if key !in uniforms || (uniforms[key].loc == None && program == None) then
      Effect(Fail(TypeError), uniforms, [])
    else
      var u := uniforms[key];
      if u.loc == None then
        var cached := u.(loc := locate(key));
        Effect(Done, uniforms[key := cached], UploadCalls(cached, value, transpose))
      else
        Effect(Done, uniforms, UploadCalls(u, value, transpose))
  }

  /** A successful `set_uniform` changes only the key's location, which keeps
   *  a cached value and otherwise takes the lookup's, and uploads with it. */
  lemma SetUniformEffectMeaning(uniforms: map<string, Uniform>, program: Option<nat>, key: string, value: Gl.Value,
                                transpose: bool, locate: string -> Option<nat>)
    requires AllWellFormed(uniforms)
    ensures var e := SetUniformEffect(uniforms, program, key, value, transpose, locate);
      (forall k :: k in uniforms ==> e.uniforms[k].(loc := None) == uniforms[k].(loc := None)) &&
      (forall k :: k in uniforms && k != key ==> e.uniforms[k] == uniforms[k]) &&
      (e.outcome == Done && uniforms[key].loc.Some? ==> e.uniforms == uniforms) &&
      (e.outcome == Done ==>
        e.uniforms[key].loc == (if uniforms[key].loc.Some? then uniforms[key].loc else locate(key)) &&
        e.calls == UploadCalls(e.uniforms[key], value, transpose))
  {
  }

  /** Once a lookup has produced a location it is reused: a second
   *  `set_uniform` of the key consults no lookup and leaves the table as is. */
  lemma LocationCachedAfterLookup(uniforms: map<string, Uniform>, program: Option<nat>, key: string,
                                  v1: Gl.Value, v2: Gl.Value, transpose: bool,
                                  locate: string -> Option<nat>, other: string -> Option<nat>)
    requires AllWellFormed(uniforms)
    requires var e := SetUniformEffect(uniforms, program, key, v1, transpose, locate);
      e.outcome == Done && e.uniforms[key].loc.Some?
    ensures var e := SetUniformEffect(uniforms, program, key, v1, transpose, locate);
      var e2 := SetUniformEffect(e.uniforms, program, key, v2, transpose, other);
      e2.outcome == Done && e2.uniforms == e.uniforms &&
      e2.calls == UploadCalls(e.uniforms[key], v2, transpose)
  {
    var e := SetUniformEffect(uniforms, program, key, v1, transpose, locate);
    SetUniformEffectMeaning(uniforms, program, key, v1, transpose, locate);
    var e2 := SetUniformEffect(e.uniforms, program, key, v2, transpose, other);
    assert e2.uniforms == e.uniforms[key := e.uniforms[key]];
  }

  /** An F4V or I4V entry uploads nothing, yet its location is still looked up. */
  lemma VectorFourUploadsNothing(uniforms: map<string, Uniform>, program: Option<nat>, key: string,
                                 value: Gl.Value, transpose: bool, locate: string -> Option<nat>)
    requires AllWellFormed(uniforms) && key in uniforms && (uniforms[key].utype == F4V || uniforms[key].utype == I4V)
    requires uniforms[key].loc.Some? || program.Some?
    ensures SetUniformEffect(uniforms, program, key, value, transpose, locate).calls == []
  {
  }

  /** The active-program slot: `null`, a program, or `undefined` after
   *  `use_shader` of a name that is not registered. */
  datatype Slot = NoProgram | Active(program: ShaderProgram) | Missing

  class ShaderProgram {
    const name: string
    var shaders: seq<nat>
    var program: Option<nat>
    var uniforms: map<string, Uniform>
    var textureCounter: nat
    ghost var declarations: seq<Declaration>

    /** Each entry is its declaration's entry, up to the cached location. */
    ghost predicate Valid()
      reads this
    {
      textureCounter == TextureCount(declarations) &&
      uniforms.Keys == Registry(declarations).Keys &&
      AllWellFormed(uniforms) &&
      forall k :: k in uniforms ==> uniforms[k].(loc := None) == Registry(declarations)[k]
    }

    constructor (name: string)
      ensures Valid() && this.name == name && declarations == [] && uniforms == map[]
      ensures shaders == [] && program == None && textureCounter == 0
    {
      this.name := name;
      shaders := [];
      program := None;
      uniforms := map[];
      textureCounter := 0;
      declarations := [];
    }

    method AddShader(shader: nat)
      modifies this`shaders
      ensures shaders == old(shaders) + [shader]
    {
      shaders := shaders + [shader];
    }

    /** `add_uniform`: stored verbatim with no location; only TEXTURE_2D takes a unit. */
    method AddUniform(raw: string, utype: UniformType)
      requires Valid()
      modifies this`uniforms, this`textureCounter, this`declarations
      ensures Valid() && declarations == old(declarations) + [Declaration(raw, utype)]
      ensures uniforms == old(uniforms)[raw := Uniform(raw, None, utype, if utype == TEXTURE_2D then Some(old(textureCounter)) else None)]
      ensures textureCounter == old(textureCounter) + (if utype == TEXTURE_2D then 1 else 0)
    {
      var unit := if utype == TEXTURE_2D then Some(textureCounter) else None;
      var entry := Uniform(raw, None, utype, unit);
      ghost var before := uniforms;
      uniforms := uniforms[raw := entry];
      if utype == TEXTURE_2D {
        textureCounter := textureCounter + 1;
      }
      declarations := declarations + [Declaration(raw, utype)];
      assert declarations[..|declarations| - 1] == old(declarations);
      ghost var reg := Registry(declarations);
      assert reg == Registry(old(declarations))[raw := entry];
      assert textureCounter == TextureCount(declarations);
      assert uniforms.Keys == reg.Keys;
      forall k | k in uniforms
        ensures WellFormed(uniforms[k]) && uniforms[k].(loc := None) == reg[k]
      {
        if k != raw {
          assert uniforms[k] == before[k];
        }
      }
    }

    /** `build`: link a fresh program, make the program registered under this
     *  name current (which throws if there is none), look up every uniform's
     *  location, then clear the active program. */
    method Build(gm: GraphicsManager, handle: nat, locate: string -> Option<nat>) returns (r: Outcome)
      requires Valid()
      modifies this`program, this`uniforms, gm`active, gm`calls
      ensures Valid() && program == Some(handle)
      ensures r == Done <==> name in old(gm.shaderPrograms)
      ensures r == Done ==> (uniforms.Keys == old(uniforms).Keys &&
        forall k :: k in uniforms ==> uniforms[k] == old(uniforms)[k].(loc := locate(k)))
      ensures r == Done ==> (gm.active == NoProgram &&
        gm.calls == old(gm.calls) + [UseProgram(if gm.shaderPrograms[name] == this then Some(handle) else gm.shaderPrograms[name].program), UseProgram(None)])
      ensures r != Done ==> r == Fail(TypeError) && uniforms == old(uniforms) && gm.active == Missing && gm.calls == old(gm.calls)
    {
      program := Some(handle);
      r := gm.UseShader(name);
      if r != Done {
        return;
      }
      LocateUniforms(locate);
      gm.ClearShader();
    }

    /** The loop of `build`: every registered uniform's location is looked up again. */
    method LocateUniforms(locate: string -> Option<nat>)
      requires Valid()
      modifies this`uniforms
      ensures Valid() && uniforms.Keys == old(uniforms).Keys
      ensures forall k :: k in uniforms ==> uniforms[k] == old(uniforms)[k].(loc := locate(k))
    {
      var pending := uniforms.Keys;
      ghost var visited: set<string> := {};
      ghost var before := uniforms;
      while pending != {}
        invariant pending + visited == before.Keys && pending !! visited
        invariant uniforms.Keys == before.Keys
        invariant forall k :: k in visited ==> uniforms[k] == before[k].(loc := locate(k))
        invariant forall k :: k in pending ==> uniforms[k] == before[k]
        modifies this`uniforms
        decreases pending
      {
        var k :| k in pending;
        uniforms := uniforms[k := uniforms[k].(loc := locate(k))];
        pending := pending - {k};
        visited := visited + {k};
      }
    }

    method Use(gm: GraphicsManager) returns (r: Outcome)
      modifies gm`active, gm`calls
      ensures r == Done <==> name in gm.shaderPrograms
      ensures r == Done ==> gm.active == Active(gm.shaderPrograms[name]) && gm.calls == old(gm.calls) + [UseProgram(gm.shaderPrograms[name].program)]
      ensures r != Done ==> r == Fail(TypeError) && gm.active == Missing && gm.calls == old(gm.calls)
    {
      r := gm.UseShader(name);
    }
  }

  /** What `getAttribLocation` is handed: the manager's `ShaderProgram` wrapper,
   *  or a program's `webgl_shader_program`, which is null before `build`. */
  datatype ProgramArgument = Wrapper | Handle(handle: Option<nat>)

  /** `gl.getAttribLocation(program, label)`: its program parameter is a
   *  non-nullable `WebGLProgram`, so anything else throws a TypeError; `locate`
   *  is the location the linked program reports for a label. */
  function AttribLocation(program: ProgramArgument, key: string, locate: string -> int): (r: Result<int>)
    ensures r.Ok? <==> program.Handle? && program.handle.Some?
    ensures r.Ok? ==> r.value == locate(key)
    ensures r.Err? ==> r.error == TypeError
  {
    match program
    case Handle(Some(_)) => Ok(locate(key))
    case _ => Err(TypeError)
  }

  class GraphicsManager {
    var shaderPrograms: map<string, ShaderProgram>
    var vertexAttributes: map<string, VertexAttribute>
    var vertexCount: JsNumber
    var active: Slot
    var calls: seq<Call>

    /** Every registered program, and the active one, keeps its table invariant. */
    ghost predicate ProgramsValid()
      reads this, shaderPrograms.Values, if active.Active? then {active.program} else {}
    {
      (forall n :: n in shaderPrograms ==> shaderPrograms[n].Valid()) &&
      (active.Active? ==> active.program.Valid())
    }

    constructor ()
      ensures shaderPrograms == map[] && vertexAttributes == map[] && vertexCount == Finite(0.0)
      ensures active == NoProgram && calls == []
    {
      shaderPrograms := map[];
      vertexAttributes := map[];
      vertexCount := Finite(0.0);
      active := NoProgram;
      calls := [];
    }

    /** `create_shader_program`: a fresh program replaces any earlier one of that name. */
    method CreateShaderProgram(name: string) returns (p: ShaderProgram)
      modifies this`shaderPrograms
      ensures fresh(p) && p.Valid() && p.name == name && p.uniforms == map[] && p.program == None
      ensures shaderPrograms == old(shaderPrograms)[name := p]
    {
      p := new ShaderProgram(name);
      shaderPrograms := shaderPrograms[name := p];
    }

    /** `use_shader`: the slot takes whatever is registered under the name; reading
     *  the WebGL program of `undefined` throws. */
    method UseShader(name: string) returns (r: Outcome)
      modifies this`active, this`calls
      ensures r == Done <==> name in shaderPrograms
      ensures r == Done ==> active == Active(shaderPrograms[name]) && calls == old(calls) + [UseProgram(shaderPrograms[name].program)]
      ensures r != Done ==> r == Fail(TypeError) && active == Missing && calls == old(calls)
    {
      if name in shaderPrograms {
        active := Active(shaderPrograms[name]);
        calls := calls + [UseProgram(shaderPrograms[name].program)];
        r := Done;
      } else {
        active := Missing;
        r := Fail(TypeError);
      }
    }

    /** `clear_shader`: no program active. */
    method ClearShader()
      modifies this`active, this`calls
      ensures active == NoProgram && calls == old(calls) + [UseProgram(None)]
    {
      calls := calls + [UseProgram(None)];
      active := NoProgram;
    }

    /** `set_uniform`: nothing without an active program, a TypeError for the
     *  `undefined` slot, and otherwise the effect on the active program. */
    method SetUniform(key: string, value: Gl.Value, transpose: bool, locate: string -> Option<nat>) returns (r: Outcome)
      requires active.Active? ==> active.program.Valid()
      modifies this`calls, (if active.Active? then {active.program} else {})`uniforms
      ensures old(active) == NoProgram ==> r == Done && calls == old(calls)
      ensures old(active) == Missing ==> r == Fail(TypeError) && calls == old(calls)
      ensures old(active).Active? ==> var p := old(active).program;
        var e := SetUniformEffect(old(p.uniforms), p.program, key, value, transpose, locate);
        p.Valid() && r == e.outcome && p.uniforms == e.uniforms && calls == old(calls) + e.calls
    {
      match active
      case NoProgram =>
        r := Done;
      case Missing =>
        r := Fail(TypeError);
      case Active(p) =>
        var e := SetUniformEffect(p.uniforms, p.program, key, value, transpose, locate);
        SetUniformEffectMeaning(p.uniforms, p.program, key, value, transpose, locate);
        if e.outcome != Done {
          return e.outcome;
        }
        var u := p.uniforms[key];
        if u.loc == None {
          u := u.(loc := locate(key));
          p.uniforms := p.uniforms[key := u];
        }
        calls := calls + UploadCalls(u, value, transpose);
        r := Done;
    }

    /** `add_vertex_attribute`, as written: nothing without an active program
     *  (the warning aside); otherwise a buffer (created by the context) is bound
     *  and filled, and then `getAttribLocation` is handed the `ShaderProgram`
     *  wrapper itself, which WebGL rejects with a TypeError, so the attribute is
     *  never wired or registered and the vertex count is kept. */
    method AddVertexAttribute(key: string, attributeType: int, size: int, dataLength: nat,
                              normalized: bool, dynamic: bool, buffer: nat, locate: string -> int) returns (r: Outcome)
      modifies this`vertexAttributes, this`vertexCount, this`calls
      ensures !active.Active? ==> (r == Done && vertexAttributes == old(vertexAttributes) &&
        vertexCount == old(vertexCount) && calls == old(calls))
      ensures active.Active? ==> (r == Fail(TypeError) && vertexAttributes == old(vertexAttributes) &&
        vertexCount == old(vertexCount) && calls == old(calls) + [BindArrayBuffer(Some(buffer)), BufferData(dataLength, dynamic)])
    {
      if !active.Active? {
        return Done;
      }
      calls := calls + [BindArrayBuffer(Some(buffer)), BufferData(dataLength, dynamic)];
      var location := AttribLocation(Wrapper, key, locate);
      r := Fail(location.error);
    }

    /** `add_vertex_attribute` as intended, handing `getAttribLocation` the
     *  active program's `webgl_shader_program`: the buffer is filled and wired
     *  to the attribute's location, the attribute is registered, and the vertex
     *  count becomes length / size; a program that was never built has no
     *  handle, and WebGL rejects the null with a TypeError. */
    method AddVertexAttributeIntended(key: string, attributeType: int, size: int, dataLength: nat,
                                      normalized: bool, dynamic: bool, buffer: nat, locate: string -> int) returns (r: Outcome)
      modifies this`vertexAttributes, this`vertexCount, this`calls
      ensures !active.Active? ==> (r == Done && vertexAttributes == old(vertexAttributes) &&
        vertexCount == old(vertexCount) && calls == old(calls))
      ensures active.Active? && active.program.program.None? ==> (r == Fail(TypeError) &&
        vertexAttributes == old(vertexAttributes) && vertexCount == old(vertexCount) &&
        calls == old(calls) + [BindArrayBuffer(Some(buffer)), BufferData(dataLength, dynamic)])
      ensures active.Active? && active.program.program.Some? ==> (r == Done &&
        vertexAttributes == old(vertexAttributes)[key := VertexAttribute(key, attributeType, size, normalized, dynamic, buffer)] &&
        vertexCount == Divide(dataLength, size) &&
        calls == old(calls) + [BindArrayBuffer(Some(buffer)), BufferData(dataLength, dynamic),
                               EnableVertexAttribArray(locate(key)), VertexAttribPointer(locate(key), size, attributeType, normalized)])
    {
      if !active.Active? {
        return Done;
      }
      calls := calls + [BindArrayBuffer(Some(buffer)), BufferData(dataLength, dynamic)];
      var location := AttribLocation(Handle(active.program.program), key, locate);
      if location.Err? {
        return Fail(location.error);
      }
      calls := calls + [EnableVertexAttribArray(location.value), VertexAttribPointer(location.value, size, attributeType, normalized)];
      vertexAttributes := vertexAttributes[key := VertexAttribute(key, attributeType, size, normalized, dynamic, buffer)];
      vertexCount := Divide(dataLength, vertexAttributes[key].size);
      r := Done;
    }

    /** `set_vertex_attribute_data`: the attribute must exist; its buffer is
     *  refilled and the vertex count becomes length / size. */
    method SetVertexAttributeData(key: string, dataLength: nat, offset: int) returns (r: Outcome)
      modifies this`vertexCount, this`calls
      ensures r == Done <==> key in vertexAttributes
      ensures r == Done ==> (vertexCount == Divide(dataLength, vertexAttributes[key].size) &&
        calls == old(calls) + [BindArrayBuffer(Some(vertexAttributes[key].buffer)), BufferSubData(offset, dataLength)])
      ensures r != Done ==> r == Fail(TypeError) && vertexCount == old(vertexCount) && calls == old(calls)
    {
      if key !in vertexAttributes {
        return Fail(TypeError);
      }
      var attribute := vertexAttributes[key];
      calls := calls + [BindArrayBuffer(Some(attribute.buffer)), BufferSubData(offset, dataLength)];
      vertexCount := Divide(dataLength, attribute.size);
      r := Done;
    }
  }
}
