/** `Mesh` and `Model` of src/graphics/assets.ts, written against the older
 *  graphics manager: mesh counts and the VAO bracket around a draw, and a
 *  model's program choice, texture table and `draw_start`. */
module LegacyAssets {
  import opened Wrappers
  import opened Seqs
  import opened LegacyGraphics
  import Gl

  const FLOAT: int := 0x1406

  class Mesh {
    const vao: nat
    const vertexCount: real
    const indexCount: nat

    /** The constructor: three attribute buffers and an index buffer recorded
     *  into a fresh VAO, which is unbound at the end. Buffer and VAO handles
     *  come from the context. */
    constructor (gm: GraphicsManager, verticesLength: nat, normalsLength: nat, uvsLength: nat, indicesLength: nat,
                 positions: nat, normals: nat, uvs: nat, indices: nat, vao: nat)
      modifies gm`calls
      ensures this.vao == vao && vertexCount == verticesLength as real / 3.0 && indexCount == indicesLength
      ensures gm.calls == old(gm.calls) +
        [BindVertexArray(Some(vao)),
         BindArrayBuffer(Some(positions)), BufferData(verticesLength, false), EnableVertexAttribArray(0), VertexAttribPointer(0, 3, FLOAT, false),
         BindArrayBuffer(Some(normals)), BufferData(normalsLength, false), EnableVertexAttribArray(1), VertexAttribPointer(1, 3, FLOAT, false),
         BindArrayBuffer(Some(uvs)), BufferData(uvsLength, false), EnableVertexAttribArray(2), VertexAttribPointer(2, 2, FLOAT, false),
         BindElementBuffer(Some(indices)), BufferData(indicesLength, false),
         BindVertexArray(None)]
      ensures BoundVao(gm.calls) == None
    {
      this.vao := vao;
      vertexCount := verticesLength as real / 3.0;
      indexCount := indicesLength;
      new;
      gm.calls := gm.calls +
        [BindVertexArray(Some(vao)),
         BindArrayBuffer(Some(positions)), BufferData(verticesLength, false), EnableVertexAttribArray(0), VertexAttribPointer(0, 3, FLOAT, false),
         BindArrayBuffer(Some(normals)), BufferData(normalsLength, false), EnableVertexAttribArray(1), VertexAttribPointer(1, 3, FLOAT, false),
         BindArrayBuffer(Some(uvs)), BufferData(uvsLength, false), EnableVertexAttribArray(2), VertexAttribPointer(2, 2, FLOAT, false),
         BindElementBuffer(Some(indices)), BufferData(indicesLength, false),
         BindVertexArray(None)];
    }

    /** `draw`: bind the VAO, draw every index as triangles, unbind. */
    method Draw(gm: GraphicsManager)
      modifies gm`calls
      ensures gm.calls == old(gm.calls) + [BindVertexArray(Some(vao)), DrawElements(Gl.TRIANGLES, indexCount, Gl.UNSIGNED_SHORT, 0), BindVertexArray(None)]
      ensures BoundVao(gm.calls) == None
    {
      gm.calls := gm.calls + [BindVertexArray(Some(vao)), DrawElements(Gl.TRIANGLES, indexCount, Gl.UNSIGNED_SHORT, 0), BindVertexArray(None)];
    }
  }

  /** The `shader_program` argument: absent or null, a program, or a name. */
  datatype ProgramArg = Unspecified | ByInstance(program: ShaderProgram) | ByName(name: string)

  /** The constructor's choice: a truthy argument is used directly or looked
   *  up by name (an unknown name gives `undefined`, here null); a falsy one,
   *  including the empty name, gives null. This mirrors the older
   *  `src/graphics/assets.ts`; `Materials.ResolveProgram` models the same
   *  choice in `src/graphics/assets/material.ts`. */
  function ResolveProgram(arg: ProgramArg, programs: map<string, ShaderProgram>): (p: ShaderProgram?)
    ensures arg == Unspecified || arg == ByName("") ==> p == null
    ensures arg.ByInstance? ==> p == arg.program
    ensures arg.ByName? && arg.name != "" ==> (p != null <==> arg.name in programs) && (p != null ==> p == programs[arg.name])
  {
    match arg
    case Unspecified => null
    case ByInstance(q) => q
    case ByName(n) => if n != "" && n in programs then programs[n] else null
  }

  /** The labels of a texture table, in insertion order. */
  function Labels(entries: seq<(string, nat)>): (ks: seq<string>)
    ensures |ks| == |entries| && forall i :: 0 <= i < |entries| ==> ks[i] == entries[i].0
  {
    if entries == [] then [] else Labels(entries[..|entries| - 1]) + [entries[|entries| - 1].0]
  }

  /** The texture stored under a label. */
  function Lookup(entries: seq<(string, nat)>, key: string): (t: Option<nat>)
    ensures t.Some? <==> key in Labels(entries)
  {
    if entries == [] then None
    else if entries[|entries| - 1].0 == key then Some(entries[|entries| - 1].1)
    else
      assert Labels(entries) == Labels(entries[..|entries| - 1]) + [entries[|entries| - 1].0];
      Lookup(entries[..|entries| - 1], key)
  }

  /** `textures[key] = t`: overwrite in place, or append a new key. */
  function Put(entries: seq<(string, nat)>, key: string, t: nat): (r: seq<(string, nat)>)
    requires NoDup(Labels(entries))
    ensures NoDup(Labels(r))
    ensures Labels(r) == if key in Labels(entries) then Labels(entries) else Labels(entries) + [key]
    ensures Lookup(r, key) == Some(t)
    ensures forall k :: k != key ==> Lookup(r, k) == Lookup(entries, k)
  {
    var i := IndexOf(Labels(entries), key);
    if i == -1 then
      assert Labels(entries + [(key, t)]) == Labels(entries) + [key];
      entries + [(key, t)]
    else
      var r := entries[i := (key, t)];
      assert Labels(r) == Labels(entries);
      assert forall j :: 0 <= j < |r| && j != i ==> r[j] == entries[j];
      PutLookup(entries, i, key, t);
      r
  }

  lemma PutLookup(entries: seq<(string, nat)>, i: nat, key: string, t: nat)
    requires i < |entries| && entries[i].0 == key && NoDup(Labels(entries))
    ensures Lookup(entries[i := (key, t)], key) == Some(t)
    ensures forall k :: k != key ==> Lookup(entries[i := (key, t)], k) == Lookup(entries, k)
  {
    PutLookupHit(entries, i, key, t);
    forall k | k != key
      ensures Lookup(entries[i := (key, t)], k) == Lookup(entries, k)
    {
      PutLookupOther(entries, i, key, t, k);
    }
  }

  /** Without repeated labels, the last entry's label occurs nowhere before it. */
  lemma NoDupLabelsInit(entries: seq<(string, nat)>)
    requires entries != [] && NoDup(Labels(entries))
    ensures var n := |entries| - 1;
      NoDup(Labels(entries[..n])) && forall j :: 0 <= j < n ==> entries[j].0 != entries[n].0
  {
    var n := |entries| - 1;
    var ls, init := Labels(entries), Labels(entries[..n]);
    forall a, b | 0 <= a < b < n
      ensures init[a] != init[b]
    {
      assert init[a] == ls[a] && init[b] == ls[b];
    }
    forall j | 0 <= j < n
      ensures entries[j].0 != entries[n].0
    {
      assert ls[j] == entries[j].0 && ls[n] == entries[n].0;
    }
  }

  lemma {:induction false} PutLookupHit(entries: seq<(string, nat)>, i: nat, key: string, t: nat)
    requires i < |entries| && entries[i].0 == key && NoDup(Labels(entries))
    ensures Lookup(entries[i := (key, t)], key) == Some(t)
    decreases |entries|
  {
    var r := entries[i := (key, t)];
    var n := |entries| - 1;
    if i < n {
      NoDupLabelsInit(entries);
      assert r[..n] == entries[..n][i := (key, t)] && r[n] == entries[n] && entries[n].0 != key;
      PutLookupHit(entries[..n], i, key, t);
    }
  }

  /** A lookup that misses the last entry is a lookup in the entries before it. */
  lemma LookupInit(entries: seq<(string, nat)>, k: string)
    requires entries != [] && entries[|entries| - 1].0 != k
    ensures Lookup(entries, k) == Lookup(entries[..|entries| - 1], k)
  {
  }

  lemma {:induction false} PutLookupOther(entries: seq<(string, nat)>, i: nat, key: string, t: nat, k: string)
    requires i < |entries| && entries[i].0 == key && k != key
    ensures Lookup(entries[i := (key, t)], k) == Lookup(entries, k)
    decreases |entries|
  {
    var r := entries[i := (key, t)];
    var n := |entries| - 1;
    assert |r| == |entries| && r != [];
    if i < n {
      assert r[n] == entries[n];
      if entries[n].0 == k {
        assert Lookup(r, k) == Some(entries[n].1);
      } else {
        var front := entries[..n];
        assert r[..n] == front[i := (key, t)];
        LookupInit(r, k);
        PutLookupOther(front, i, key, t, k);
        LookupInit(entries, k);
      }
    } else {
      assert r[..n] == entries[..n] && r[n].0 == key;
      assert Lookup(r, k) == Lookup(entries[..n], k);
    }
  }


  /** The uniform uploads of `draw_start`, one `set_uniform` per texture
   *  entry in table order, stopping at the first that throws. */
  function TexturesEffect(uniforms: map<string, Uniform>, program: Option<nat>, entries: seq<(string, nat)>,
                          locate: string -> Option<nat>): (e: Effect)
    requires AllWellFormed(uniforms)
    ensures AllWellFormed(e.uniforms) && e.uniforms.Keys == uniforms.Keys
    ensures e.outcome != Done ==> e.outcome == Fail(TypeError)
    decreases |entries|
  {
    if entries == [] then Effect(Done, uniforms, [])
    else
      var first := TexturesEffect(uniforms, program, entries[..|entries| - 1], locate);
      if first.outcome != Done then first
      else
        var last := entries[|entries| - 1];
        var e := SetUniformEffect(first.uniforms, program, last.0, Gl.Texture(last.1), false, locate);
        Effect(e.outcome, e.uniforms, first.calls + e.calls)
  }

  /** One more entry after a prefix that went through. */
  lemma TexturesEffectStep(uniforms: map<string, Uniform>, program: Option<nat>, entries: seq<(string, nat)>, i: nat,
                           locate: string -> Option<nat>)
    requires AllWellFormed(uniforms) && i < |entries|
    requires TexturesEffect(uniforms, program, entries[..i], locate).outcome == Done
    ensures var first := TexturesEffect(uniforms, program, entries[..i], locate);
      var e := SetUniformEffect(first.uniforms, program, entries[i].0, Gl.Texture(entries[i].1), false, locate);
      TexturesEffect(uniforms, program, entries[..i + 1], locate) == Effect(e.outcome, e.uniforms, first.calls + e.calls)
  {
    assert entries[..i + 1][..i] == entries[..i];
    assert entries[..i + 1][i] == entries[i];
  }

  /** Every label of `init + [last]` is a key exactly when every label of
   *  `init` is and the last one is too. */
  lemma KeysSnoc<V>(init: seq<(string, nat)>, last: (string, nat), m: map<string, V>)
    ensures (forall i :: 0 <= i < |init + [last]| ==> (init + [last])[i].0 in m) <==>
      (forall i :: 0 <= i < |init| ==> init[i].0 in m) && last.0 in m
  {
    assert forall i :: 0 <= i < |init| ==> (init + [last])[i] == init[i];
    assert (init + [last])[|init|] == last;
  }

  /** The same split for labels that are keys with a cached location. */
  lemma LocatedSnoc(init: seq<(string, nat)>, last: (string, nat), m: map<string, Uniform>)
    ensures (forall i :: 0 <= i < |init + [last]| ==> (init + [last])[i].0 in m && m[(init + [last])[i].0].loc.Some?) <==>
      (forall i :: 0 <= i < |init| ==> init[i].0 in m && m[init[i].0].loc.Some?) && last.0 in m && m[last.0].loc.Some?
  {
    assert forall i :: 0 <= i < |init| ==> (init + [last])[i] == init[i];
    assert (init + [last])[|init|] == last;
  }

  /** With a linked program every lookup is possible, so the uploads
   *  succeed exactly when every label is registered. */
  lemma {:induction false} TexturesEffectLinked(uniforms: map<string, Uniform>, program: Option<nat>,
                                              entries: seq<(string, nat)>, locate: string -> Option<nat>)
    requires AllWellFormed(uniforms) && program.Some?
    ensures TexturesEffect(uniforms, program, entries, locate).outcome == Done <==>
      forall i :: 0 <= i < |entries| ==> entries[i].0 in uniforms
    decreases |entries|
  {
    if entries != [] {
      var n := |entries| - 1;
      var init := entries[..n];
      TexturesEffectLinked(uniforms, program, init, locate);
      KeysSnoc(init, entries[n], uniforms);
      assert entries == init + [entries[n]];
      var first := TexturesEffect(uniforms, program, init, locate);
      if first.outcome == Done {
        var e := SetUniformEffect(first.uniforms, program, entries[n].0, Gl.Texture(entries[n].1), false, locate);
        assert entries[n].0 in first.uniforms <==> entries[n].0 in uniforms;
      }
    }
  }


  /** Without a linked program no location can be looked up, so the uploads
   *  succeed exactly when every label is registered and already has a
   *  location, and then the table is left as it was. */
  lemma {:induction false} TexturesEffectUnlinked(uniforms: map<string, Uniform>, program: Option<nat>,
                                                entries: seq<(string, nat)>, locate: string -> Option<nat>)
    requires AllWellFormed(uniforms) && program.None?
    ensures TexturesEffect(uniforms, program, entries, locate).outcome == Done <==>
      forall i :: 0 <= i < |entries| ==> entries[i].0 in uniforms && uniforms[entries[i].0].loc.Some?
    ensures TexturesEffect(uniforms, program, entries, locate).outcome == Done ==>
      TexturesEffect(uniforms, program, entries, locate).uniforms == uniforms
    decreases |entries|
  {
    if entries != [] {
      var n := |entries| - 1;
      var init := entries[..n];
      TexturesEffectUnlinked(uniforms, program, init, locate);
      LocatedSnoc(init, entries[n], uniforms);
      assert entries == init + [entries[n]];
      var first := TexturesEffect(uniforms, program, init, locate);
      if first.outcome == Done {
        var key := entries[n].0;
        assert first.uniforms == uniforms;
        SetUniformEffectMeaning(uniforms, program, key, Gl.Texture(entries[n].1), false, locate);
      }
    }
  }

  class Model {
    var mesh: Mesh
    var program: ShaderProgram?
    var textures: seq<(string, nat)>

    ghost predicate Valid()
      reads this
    {
      NoDup(Labels(textures))
    }

    constructor (gm: GraphicsManager, mesh: Mesh, albedoTexture: nat, arg: ProgramArg)
      ensures Valid() && this.mesh == mesh && program == ResolveProgram(arg, gm.shaderPrograms)
      ensures textures == [("albedo_texture", albedoTexture)]
    {
      this.mesh := mesh;
      program := ResolveProgram(arg, gm.shaderPrograms);
      textures := [("albedo_texture", albedoTexture)];
      new;
      assert Labels(textures) == ["albedo_texture"];
    }

    /** `set_shader_program`: an instance, or whatever is registered under the name. */
    method SetShaderProgram(gm: GraphicsManager, arg: ProgramArg)
      requires !arg.Unspecified?
      modifies this`program
      ensures arg.ByInstance? ==> program == arg.program
      ensures arg.ByName? ==> program == if arg.name in gm.shaderPrograms then gm.shaderPrograms[arg.name] else null
    {
      match arg
      case ByInstance(q) => program := q;
      case ByName(n) => program := if n in gm.shaderPrograms then gm.shaderPrograms[n] else null;
    }

    /** `add_texture`: insert or overwrite exactly one entry. */
    method AddTexture(key: string, texture: nat)
      requires Valid()
      modifies this`textures
      ensures Valid() && textures == Put(old(textures), key, texture)
    {
      textures := Put(textures, key, texture);
    }

    /** `draw_start`: throws without a program; otherwise the program is made
     *  current by name (which throws if the name is unregistered) and every
     *  texture entry is uploaded to the program now current. */
    method DrawStart(gm: GraphicsManager, locate: string -> Option<nat>) returns (r: Outcome)
      requires gm.ProgramsValid()
      modifies gm`active, gm`calls, gm.shaderPrograms.Values`uniforms
      ensures program == null ==> r == Fail(NoShaderProgram) && gm.calls == old(gm.calls) && gm.active == old(gm.active)
      ensures program != null && program.name !in gm.shaderPrograms ==>
        r == Fail(TypeError) && gm.calls == old(gm.calls) && gm.active == Missing
      ensures program == null || program.name !in gm.shaderPrograms ==>
        forall p :: p in gm.shaderPrograms.Values ==> p.uniforms == old(p.uniforms)
      ensures program != null && program.name in gm.shaderPrograms ==>
        var q := gm.shaderPrograms[program.name];
        var e := TexturesEffect(old(q.uniforms), q.program, textures, locate);
        && gm.active == Active(q) && r == e.outcome && q.uniforms == e.uniforms
        && gm.calls == old(gm.calls) + [UseProgram(q.program)] + e.calls
        && forall p :: p in gm.shaderPrograms.Values && p != q ==> p.uniforms == old(p.uniforms)
    {
      if program == null {
        return Fail(NoShaderProgram);
      }
      r := program.Use(gm);
      if r == Done {
        r := UploadTextures(gm, gm.shaderPrograms[program.name], locate);
      }
    }

    /** The loop of `draw_start`: one `set_uniform` per texture entry, in
     *  table order, until one throws. */
    method UploadTextures(gm: GraphicsManager, q: ShaderProgram, locate: string -> Option<nat>) returns (r: Outcome)
      requires gm.active == Active(q) && q.Valid()
      modifies gm`calls, q`uniforms
      ensures var e := TexturesEffect(old(q.uniforms), q.program, textures, locate);
        r == e.outcome && q.uniforms == e.uniforms && gm.calls == old(gm.calls) + e.calls
    {
      r := Done;
      var i := 0;
      ghost var done := TexturesEffect(old(q.uniforms), q.program, [], locate);
      assert textures[..0] == [];
      while i < |textures| && r == Done
        invariant 0 <= i <= |textures|
        invariant gm.active == Active(q) && q.Valid()
        invariant done == TexturesEffect(old(q.uniforms), q.program, textures[..i], locate)
        invariant r == done.outcome && q.uniforms == done.uniforms && gm.calls == old(gm.calls) + done.calls
      {
        TexturesEffectStep(old(q.uniforms), q.program, textures, i, locate);
        ghost var e := SetUniformEffect(q.uniforms, q.program, textures[i].0, Gl.Texture(textures[i].1), false, locate);
        r := SetTextureUniform(gm, q, textures[i].0, textures[i].1, locate);
        AppendAssoc(old(gm.calls), done.calls, e.calls);
        done := Effect(e.outcome, e.uniforms, done.calls + e.calls);
        i := i + 1;
      }
      if r != Done {
        TexturesEffectStops(old(q.uniforms), q.program, textures, i, locate);
      } else {
        assert textures[..i] == textures;
      }
    }

    /** One `set_uniform(name, texture)` of that loop on the active program `q`. */
    static method SetTextureUniform(gm: GraphicsManager, q: ShaderProgram, key: string, handle: nat,
                                    locate: string -> Option<nat>) returns (r: Outcome)
      requires gm.active == Active(q) && q.Valid()
      modifies gm`calls, q`uniforms
      ensures q.Valid()
      ensures var e := SetUniformEffect(old(q.uniforms), q.program, key, Gl.Texture(handle), false, locate);
        r == e.outcome && q.uniforms == e.uniforms && gm.calls == old(gm.calls) + e.calls
    {
      r := gm.SetUniform(key, Gl.Texture(handle), false, locate);
    }

    /** `draw_end`: the mesh draws itself. */
    method DrawEnd(gm: GraphicsManager)
      modifies gm`calls
      ensures gm.calls == old(gm.calls) + [BindVertexArray(Some(mesh.vao)), DrawElements(Gl.TRIANGLES, mesh.indexCount, Gl.UNSIGNED_SHORT, 0), BindVertexArray(None)]
      ensures BoundVao(gm.calls) == None
    {
      mesh.Draw(gm);
    }
  }

  /** A failure stays the result when more entries follow. */
  lemma {:induction false} TexturesEffectStops(uniforms: map<string, Uniform>, program: Option<nat>,
                                             entries: seq<(string, nat)>, i: nat, locate: string -> Option<nat>)
    requires AllWellFormed(uniforms) && i <= |entries|
    requires TexturesEffect(uniforms, program, entries[..i], locate).outcome != Done
    ensures TexturesEffect(uniforms, program, entries, locate) == TexturesEffect(uniforms, program, entries[..i], locate)
    decreases |entries| - i
  {
    if i < |entries| {
      assert entries[..i + 1][..i] == entries[..i];
      TexturesEffectStops(uniforms, program, entries, i + 1, locate);
    } else {
      assert entries[..i] == entries;
    }
  }
}
