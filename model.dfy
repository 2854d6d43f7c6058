/** `Model` of src/graphics/assets/model.ts: a mesh drawn with a material,
 *  whose program and GL toggles are skipped during a depth pass. The mesh
 *  of the newer engine (src/graphics/assets/mesh.ts) is not part of this
 *  model; its `draw` is one logged call. */
module Models {
  import opened Wrappers
  import opened Gl
  import opened Materials

  class Model {
    const mesh: nat
    const material: Material

    constructor (mesh: nat, material: Material)
      ensures this.mesh == mesh && this.material == material
    {
      this.mesh := mesh;
      this.material := material;
    }

    /** The calls of a successful `draw_start` under the given depth-pass flag. */
    function StartCalls(depthPass: bool): seq<Event>
      reads material
    {
      if depthPass || material.program == null then []
      else ModelStartEvents(false, material.enableDepthTest, material.blendFunction, material.program.name, material.UniformWrites())
    }

    /** The calls of `draw_end` under the given depth-pass flag. */
    function EndCalls(depthPass: bool): seq<Event>
    {
      ModelEndEvents(depthPass, mesh, material.enableDepthTest, material.blendFunction)
    }

    /** `draw_start`: the material's `draw_start`, unless the main scene is
     *  rendering a depth map. */
    method DrawStart(ctx: Context) returns (r: Outcome)
      requires ctx.Valid()
      modifies ctx
      ensures ctx.Valid() && ctx.state.depthPass == old(ctx.state.depthPass)
      ensures old(ctx.state.depthPass) ==> r == Done && ctx.log == old(ctx.log) && ctx.state == old(ctx.state)
      ensures !old(ctx.state.depthPass) && material.program == null ==>
        r == Fail(NoShaderProgram) && ctx.log == old(ctx.log) && ctx.state == old(ctx.state)
      ensures !old(ctx.state.depthPass) && material.program != null ==> (r == Done &&
        ctx.log == old(ctx.log) + StartEvents(material.enableDepthTest, material.blendFunction, material.program.name) +
                   Uniforms(material.UniformWrites()))
      ensures r == Done ==> ctx.log == old(ctx.log) + StartCalls(old(ctx.state.depthPass))
      ensures r != Done ==> r == Fail(NoShaderProgram) && ctx.log == old(ctx.log)
    {
      if !ctx.state.depthPass {
        r := material.DrawStart(ctx);
        if material.program != null {
          assert StartCalls(false) == StartEvents(material.enableDepthTest, material.blendFunction, material.program.name) +
                                      Uniforms(material.UniformWrites());
        }
      } else {
        r := Done;
        assert StartCalls(true) == [];
      }
    }

    /** `draw_end`: the mesh is always drawn; the material's `draw_end`
     *  follows unless the main scene is rendering a depth map. */
    method DrawEnd(ctx: Context)
      requires ctx.Valid()
      modifies ctx
      ensures ctx.Valid()
      ensures ctx.log == old(ctx.log) + [DrawMesh(mesh)] +
        (if old(ctx.state.depthPass) then [] else EndEvents(material.enableDepthTest, material.blendFunction))
      ensures ctx.log == old(ctx.log) + EndCalls(old(ctx.state.depthPass))
    {
      ctx.Issue(DrawMesh(mesh));
      if !ctx.state.depthPass {
        material.DrawEnd(ctx);
      } else {
        assert ctx.log == old(ctx.log) + [DrawMesh(mesh)] + [];
      }
    }
  }

  /** The calls of a model's `draw_start` with a program named `program`. */
  function ModelStartEvents(depthPass: bool, enableDepthTest: bool, blend: Option<BlendFunction>, program: string,
                            writes: seq<(string, Value)>): seq<Event>
  {
    if depthPass then [] else StartEvents(enableDepthTest, blend, program) + Uniforms(writes)
  }

  /** The calls of a model's `draw_end`. */
  function ModelEndEvents(depthPass: bool, mesh: nat, enableDepthTest: bool, blend: Option<BlendFunction>): seq<Event>
  {
    [DrawMesh(mesh)] + if depthPass then [] else EndEvents(enableDepthTest, blend)
  }

  /** `draw_start` leaves the depth-pass flag as it found it, so `draw_end`
   *  sees the same flag: in a depth pass neither half touches the GL state,
   *  and otherwise the pair leaves DEPTH_TEST and BLEND off and no program
   *  active. */
  lemma {:induction false} ModelBracket(s: GlState, mesh: nat, enableDepthTest: bool, blend: Option<BlendFunction>,
                                      program: string, writes: seq<(string, Value)>)
    ensures var start := ModelStartEvents(s.depthPass, enableDepthTest, blend, program, writes);
      Replay(s, start).depthPass == s.depthPass
    ensures var start := ModelStartEvents(s.depthPass, enableDepthTest, blend, program, writes);
      var t := Replay(s, start + ModelEndEvents(s.depthPass, mesh, enableDepthTest, blend));
      (s.depthPass ==> t == s) && (!s.depthPass ==> !t.depthTest && !t.blend && t.program == None && !t.depthPass)
  {
    var start := ModelStartEvents(s.depthPass, enableDepthTest, blend, program, writes);
    var end := ModelEndEvents(s.depthPass, mesh, enableDepthTest, blend);
    if s.depthPass {
      assert start + end == [DrawMesh(mesh)];
      ReplayOne(s, DrawMesh(mesh));
      assert Replay(s, start) == s;
    } else {
      var st := StartEvents(enableDepthTest, blend, program);
      var mid := Uniforms(writes) + [DrawMesh(mesh)];
      var en := EndEvents(enableDepthTest, blend);
      assert start + end == st + mid + en;
      UniformsNeutral(writes);
      assert Neutral(mid);
      BracketClears(s, enableDepthTest, blend, program, mid);
      ReplayAppend(s, st, Uniforms(writes));
      StartEventsState(s, enableDepthTest, blend, program);
      ReplayNeutral(Replay(s, st), Uniforms(writes));
    }
  }
}
