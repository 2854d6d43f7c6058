/** `ShaderProgram` (src/graphics/shader_program.ts): the registry of declared
 *  uniforms, keyed by normalised label, the texture units handed out to sampler
 *  uniforms, and the location table filled in when the program is built. */
module ShaderPrograms {
  import opened Wrappers
  import opened Gl
  import UniformLabels

  datatype UniformType =
    | TEXTURE_2D | TEXTURE_CUBE_MAP | STRUCT
    | F | I | B | F2V | I2V | F3V | I3V | F4V | I4V | F2M | F3M | F4M

  /** The uniform types that take a texture unit. */
  predicate IsSampler(t: UniformType)
  {
    t == TEXTURE_2D || t == TEXTURE_CUBE_MAP
  }

  /** A registry entry (`WebGLUniform`). */
  datatype Uniform = Uniform(key: string, utype: UniformType, textureUnit: Option<nat>)

  /** One `add_uniform(raw, type)` call. */
  datatype Declaration = Declaration(raw: string, utype: UniformType)

  /** The value of `texture_counter` after the declarations. */
  function SamplerCount(decls: seq<Declaration>): nat
  {
    if decls == [] then 0
    else SamplerCount(decls[..|decls| - 1]) + (if IsSampler(decls[|decls| - 1].utype) then 1 else 0)
  }

  /** The value of `uniforms` after the declarations, in order. */
  function Registry(decls: seq<Declaration>): map<string, Uniform>
  {
    if decls == [] then map[]
    else
      var before := decls[..|decls| - 1];
      var d := decls[|decls| - 1];
      var key := UniformLabels.Normalize(d.raw);
      Registry(before)[key := Uniform(key, d.utype, if IsSampler(d.utype) then Some(SamplerCount(before)) else None)]
  }

  /** One more declaration: its entry replaces the key's, and a sampler uses
   *  the next unit. */
  lemma RegistrySnoc(decls: seq<Declaration>, d: Declaration)
    ensures var key := UniformLabels.Normalize(d.raw);
      Registry(decls + [d]) == Registry(decls)[key := Uniform(key, d.utype, if IsSampler(d.utype) then Some(SamplerCount(decls)) else None)]
    ensures SamplerCount(decls + [d]) == SamplerCount(decls) + (if IsSampler(d.utype) then 1 else 0)
  {
    assert (decls + [d])[..|decls|] == decls;
  }

  /** `label.startsWith("[]")`: entries that `build` does not resolve. */
  predicate IsArrayKey(k: string)
  {
    |k| >= 2 && k[..2] == "[]"
  }

  /** Exactly the normalised labels of the declarations are registered. */
  lemma {:induction false} RegistryKeys(decls: seq<Declaration>, k: string)
    ensures k in Registry(decls) <==> exists i :: 0 <= i < |decls| && UniformLabels.Normalize(decls[i].raw) == k
    decreases |decls|
  {
    if decls != [] {
      var before := decls[..|decls| - 1];
      RegistryKeys(before, k);
      if k in Registry(before) {
        var i :| 0 <= i < |before| && UniformLabels.Normalize(before[i].raw) == k;
        assert decls[i] == before[i];
      }
      if exists i :: 0 <= i < |decls| && UniformLabels.Normalize(decls[i].raw) == k {
        var i :| 0 <= i < |decls| && UniformLabels.Normalize(decls[i].raw) == k;
        if i < |before| { assert before[i] == decls[i]; }
      }
    }
  }

  /** The entry for a key comes from the last declaration with that key; a sampler
   *  gets as its unit the number of sampler declarations made before it. */
  lemma {:induction false} LastDeclarationWins(decls: seq<Declaration>, i: nat)
    requires i < |decls|
    requires forall j :: i < j < |decls| ==> UniformLabels.Normalize(decls[j].raw) != UniformLabels.Normalize(decls[i].raw)
    ensures var k := UniformLabels.Normalize(decls[i].raw);
      k in Registry(decls) &&
      Registry(decls)[k] == Uniform(k, decls[i].utype, if IsSampler(decls[i].utype) then Some(SamplerCount(decls[..i])) else None)
    decreases |decls|
  {
    var before := decls[..|decls| - 1];
    if i < |decls| - 1 {
      forall j | i < j < |before| ensures UniformLabels.Normalize(before[j].raw) != UniformLabels.Normalize(before[i].raw) {
        assert before[j] == decls[j];
      }
      LastDeclarationWins(before, i);
      assert before[i] == decls[i] && before[..i] == decls[..i];
    } else {
      assert before == decls[..i];
    }
  }

  lemma {:induction false} SamplerCountMonotone(decls: seq<Declaration>, i: nat, j: nat)
    requires i <= j <= |decls|
    ensures SamplerCount(decls[..i]) + (if i < j && IsSampler(decls[i].utype) then 1 else 0) <= SamplerCount(decls[..j])
    decreases j - i
  {
    if i < j {
      var pre := decls[..j];
      assert pre[..j - 1] == decls[..j - 1];
      if i < j - 1 {
        SamplerCountMonotone(decls, i, j - 1);
        SamplerCountMonotone(decls, i + 1, j - 1);
        assert decls[..i + 1][..i] == decls[..i];
      } else {
        assert pre[j - 1] == decls[i];
      }
    }
  }

  /** Every registered sampler has a unit below `texture_counter`, and no two
   *  registered entries share a unit. */
  lemma {:induction false} TextureUnitsDistinct(decls: seq<Declaration>, k1: string, k2: string)
    requires k1 in Registry(decls) && k2 in Registry(decls) && k1 != k2
    requires Registry(decls)[k1].textureUnit.Some? && Registry(decls)[k2].textureUnit.Some?
    ensures Registry(decls)[k1].textureUnit.value < SamplerCount(decls)
    ensures Registry(decls)[k1].textureUnit != Registry(decls)[k2].textureUnit
  {
    var i1 := LastIndex(decls, k1);
    var i2 := LastIndex(decls, k2);
    LastDeclarationWins(decls, i1);
    LastDeclarationWins(decls, i2);
    assert decls[..|decls|] == decls;
    SamplerCountMonotone(decls, i1, |decls|);
    if i1 < i2 { SamplerCountMonotone(decls, i1, i2); }
    if i2 < i1 { SamplerCountMonotone(decls, i2, i1); }
  }

  /** The position of the last declaration whose key is `k`. */
  lemma LastIndex(decls: seq<Declaration>, k: string) returns (i: nat)
    requires k in Registry(decls)
    ensures i < |decls| && UniformLabels.Normalize(decls[i].raw) == k
    ensures forall j :: i < j < |decls| ==> UniformLabels.Normalize(decls[j].raw) != k
  {
    RegistryKeys(decls, k);
    var i0 :| 0 <= i0 < |decls| && UniformLabels.Normalize(decls[i0].raw) == k;
    i := i0;
    while exists j :: i < j < |decls| && UniformLabels.Normalize(decls[j].raw) == k
      invariant i < |decls| && UniformLabels.Normalize(decls[i].raw) == k
      decreases |decls| - i
    {
      var j :| i < j < |decls| && UniformLabels.Normalize(decls[j].raw) == k;
      i := j;
    }
  }

  /** A uniform declared with a bracketed label is registered under an array key,
   *  so `build` never looks its location up. */
  lemma ArrayDeclarationNotResolved(raw: string)
    requires !UniformLabels.BracketFree(raw)
    ensures IsArrayKey(UniformLabels.Normalize(raw))
  {
    UniformLabels.ArrayMarkerIff(raw);
  }

  /** A plain label is registered verbatim and is resolved by `build`. */
  lemma PlainDeclarationResolved(raw: string)
    requires UniformLabels.BracketFree(raw)
    ensures UniformLabels.Normalize(raw) == raw && !IsArrayKey(raw)
  {
    UniformLabels.PlainLabelUnchanged(raw);
    if |raw| >= 2 { assert !UniformLabels.IsBracket(raw[0]); }
  }

  /** The location table after `build`: every non-array key is looked up again. */
  function ResolvedLocations(locs: map<string, Option<nat>>, uniforms: map<string, Uniform>,
                             locate: string -> Option<nat>): (r: map<string, Option<nat>>)
    ensures forall k :: k in r <==> k in locs || (k in uniforms && !IsArrayKey(k))
    ensures forall k :: k in uniforms && !IsArrayKey(k) ==> r[k] == locate(k)
  {
    locs + map k | k in uniforms && !IsArrayKey(k) :: locate(k)
  }

  class ShaderProgram {
    const name: string
    var shaders: seq<nat>
    var program: Option<nat>                  // webgl_shader_program
    var uniforms: map<string, Uniform>
    var uniformLocs: map<string, Option<nat>>
    var textureCounter: nat
    ghost var declarations: seq<Declaration>  // the add_uniform calls so far

    ghost predicate Valid()
      reads this
    {
      uniforms == Registry(declarations) && textureCounter == SamplerCount(declarations)
    }

    constructor (name: string)
      ensures Valid() && this.name == name && declarations == []
      ensures shaders == [] && program == None && uniforms == map[] && uniformLocs == map[] && textureCounter == 0
    {
      this.name := name;
      shaders := [];
      program := None;
      uniforms := map[];
      uniformLocs := map[];
      textureCounter := 0;
      declarations := [];
    }

    /** `add_shader`: the compiled shader (created by the context) joins the list. */
    method AddShader(shader: nat)
      modifies this`shaders
      ensures shaders == old(shaders) + [shader]
    {
      shaders := shaders + [shader];
    }

    method AddUniform(raw: string, utype: UniformType)
      requires Valid()
      modifies this`uniforms, this`textureCounter, this`declarations
      ensures Valid() && declarations == old(declarations) + [Declaration(raw, utype)]
      ensures var key := UniformLabels.Normalize(raw);
        uniforms == old(uniforms)[key := Uniform(key, utype, if IsSampler(utype) then Some(old(textureCounter)) else None)]
      ensures textureCounter == old(textureCounter) + (if IsSampler(utype) then 1 else 0)
    {
      var key := UniformLabels.NormalizeUniformLabel(raw);
      uniforms := uniforms[key := Uniform(key, utype, None)];
      if utype == TEXTURE_2D || utype == TEXTURE_CUBE_MAP {
        uniforms := uniforms[key := uniforms[key].(textureUnit := Some(textureCounter))];
        textureCounter := textureCounter + 1;
      }
      RegistrySnoc(declarations, Declaration(raw, utype));
      declarations := declarations + [Declaration(raw, utype)];
    }

    /** `build`: link a fresh program object (created by the context), make it
     *  current, resolve the location of every non-array uniform, then leave no
     *  program current. */
    method Build(ctx: Context, handle: nat, locate: string -> Option<nat>)
      requires Valid() && ctx.Valid()
      modifies this`program, this`uniformLocs, ctx
      ensures Valid() && program == Some(handle)
      ensures uniformLocs == ResolvedLocations(old(uniformLocs), uniforms, locate)
      ensures ctx.Valid() && ctx.log == old(ctx.log) + [UseProgram(Some(name)), UseProgram(None)]
      ensures ctx.state == old(ctx.state).(program := None)
    {
      program := Some(handle);
      Use(ctx);
      LocateUniforms(locate);
      ctx.Issue(UseProgram(None));
    }

    /** The loop of `build` over the registry: every non-array key gets its
     *  location looked up again; array keys are located per element later. */
    method LocateUniforms(locate: string -> Option<nat>)
      modifies this`uniformLocs
      ensures uniformLocs == ResolvedLocations(old(uniformLocs), uniforms, locate)
    {
      var pending := uniforms.Keys;
      ghost var visited: set<string> := {};
      while pending != {}
        invariant pending + visited == uniforms.Keys && pending !! visited
        invariant forall k :: k in uniformLocs <==> k in old(uniformLocs) || (k in visited && !IsArrayKey(k))
        invariant forall k :: k in visited && !IsArrayKey(k) ==> uniformLocs[k] == locate(k)
        invariant forall k :: k in old(uniformLocs) && !(k in visited && !IsArrayKey(k)) ==> uniformLocs[k] == old(uniformLocs)[k]
        modifies this`uniformLocs
        decreases pending
      {
        var k :| k in pending;
        if !IsArrayKey(k) {
          uniformLocs := uniformLocs[k := locate(k)];
        }
        pending := pending - {k};
        visited := visited + {k};
      }
      ghost var expected := ResolvedLocations(old(uniformLocs), uniforms, locate);
      assert forall k :: k in uniformLocs <==> k in expected;
      assert forall k :: k in uniformLocs ==> uniformLocs[k] == expected[k];
    }

    /** `use`: make this program current through the graphics manager. */
    method Use(ctx: Context)
      requires ctx.Valid()
      modifies ctx
      ensures ctx.Valid() && ctx.log == old(ctx.log) + [UseProgram(Some(name))]
      ensures ctx.state == old(ctx.state).(program := Some(name))
    {
      ctx.Issue(UseProgram(Some(name)));
    }
  }
}
