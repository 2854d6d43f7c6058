/** `Object3D.render_class` of src/node/object3d.ts: a model drawn with the
 *  camera position, every light of the engine's rosters, and the model, view
 *  and projection matrices as uniforms. */
module Objects {
  import opened Wrappers
  import opened Maths
  import opened Seqs
  import opened Gl
  import SceneGraph
  import opened Lights
  import Models

  /** What each light of a roster reads when it writes its uniforms. */
  ghost function States(lights: seq<Light>): (sts: seq<LightState>)
    reads Footprint(lights)
    ensures |sts| == |lights|
    ensures forall k :: 0 <= k < |lights| ==> sts[k] == lights[k].State()
  {
    seq(|lights|, k requires 0 <= k < |lights| reads if 0 <= k < |lights| then {lights[k], lights[k].node, lights[k].node.parent} else {} =>
          lights[k].State())
  }

  /** The writes of lights `0 .. n - 1` of a roster, light k under slot k. */
  function SlotWrites(sts: seq<LightState>, arrayName: string, n: nat): seq<(string, Value)>
    requires n <= |sts|
  {
    if n == 0 then [] else SlotWrites(sts, arrayName, n - 1) + StateWrites(sts[n - 1], arrayName, n - 1)
  }

  /** The count uniform `${array_name}_count`, written only for a non-empty roster. */
  function CountWrite(arrayName: string, n: nat): (w: seq<(string, Value)>)
    ensures |w| == if n == 0 then 0 else 1
    ensures n > 0 ==> w[0] == (arrayName + "_count", Integer(n))
  {
    if n == 0 then [] else [(arrayName + "_count", Integer(n))]
  }

  /** The writes for a whole roster: every light, with no capacity limit,
   *  then the count. */
  function RosterWrites(sts: seq<LightState>, arrayName: string): seq<(string, Value)>
  {
    SlotWrites(sts, arrayName, |sts|) + CountWrite(arrayName, |sts|)
  }

  /** Light k's writes sit, contiguously and under slot k, after those of
   *  the lights before it. */
  lemma {:induction false} SlotWritesAt(sts: seq<LightState>, arrayName: string, n: nat, k: nat)
    requires k < n <= |sts|
    ensures var w := SlotWrites(sts, arrayName, n);
      var at := |SlotWrites(sts, arrayName, k)|;
      at + |StateWrites(sts[k], arrayName, k)| <= |w| &&
      w[at..at + |StateWrites(sts[k], arrayName, k)|] == StateWrites(sts[k], arrayName, k)
    decreases n
  {
    var prev := SlotWrites(sts, arrayName, n - 1);
    var mine := StateWrites(sts[k], arrayName, k);
    if k == n - 1 {
      PrefixSlice(prev, mine);
    } else {
      SlotWritesAt(sts, arrayName, n - 1, k);
      SliceOfAppend(prev, StateWrites(sts[n - 1], arrayName, n - 1), |SlotWrites(sts, arrayName, k)|, |mine|);
    }
  }

  /** Each light contributes one write per field of its kind. */
  lemma {:induction false} SlotWritesLength(sts: seq<LightState>, arrayName: string, n: nat)
    requires n <= |sts|
    ensures |SlotWrites(sts, arrayName, n)| >= 5 * n
    decreases n
  {
    if n > 0 {
      SlotWritesLength(sts, arrayName, n - 1);
    }
  }

  /** Everything `render_class` writes between the model's start and end. */
  function ObjectWrites(cameraPosition: Vec3, points: seq<LightState>, spots: seq<LightState>, directionals: seq<LightState>,
                        model: Mat, view: Mat, projection: Mat): seq<(string, Value)>
  {
    [("camera_position", Vector(cameraPosition))] +
    RosterWrites(points, "point_lights") + RosterWrites(spots, "spot_lights") +
    RosterWrites(directionals, "directional_lights") +
    [("u_model", Matrix(model)), ("u_view", Matrix(view)), ("u_projection", Matrix(projection))]
  }

  /** One turn of a roster's loop: light `index` writes its slot. */
  method WriteSlot(ctx: Context, lights: seq<Light>, arrayName: string, index: nat,
                   ghost base: seq<Event>, ghost sts: seq<LightState>)
    requires index < |lights| && States(lights) == sts
    requires ctx.Valid() && ctx.log == base + Uniforms(SlotWrites(sts, arrayName, index))
    modifies ctx
    ensures ctx.Valid() && ctx.state == old(ctx.state) && States(lights) == sts
    ensures ctx.log == base + Uniforms(SlotWrites(sts, arrayName, index + 1))
  {
    ghost var before := SlotWrites(sts, arrayName, index);
    ghost var mine := StateWrites(sts[index], arrayName, index);
    lights[index].SetUniforms(ctx, arrayName, index);
    assert lights[index].Writes(arrayName, index) == mine;
    UniformsAppend(before, mine);
    AppendAssoc(base, Uniforms(before), Uniforms(mine));
    assert SlotWrites(sts, arrayName, index + 1) == before + mine;
  }

  /** After a roster's loop: the count, if the index moved. */
  method WriteCount(ctx: Context, arrayName: string, n: nat, ghost base: seq<Event>, ghost before: seq<(string, Value)>)
    requires ctx.Valid() && ctx.log == base + Uniforms(before)
    modifies ctx
    ensures ctx.Valid() && ctx.state == old(ctx.state)
    ensures ctx.log == base + Uniforms(before + CountWrite(arrayName, n))
  {
    if n > 0 {
      ctx.Issue(SetUniform(arrayName + "_count", Integer(n)));
      ReplayOne(old(ctx.state), SetUniform(arrayName + "_count", Integer(n)));
    }
    UniformsAppend(before, CountWrite(arrayName, n));
  }

  /** A roster's loop: `light.set_uniforms(array_name, index)` with a running
   *  index, light by light. */
  method WriteSlots(ctx: Context, lights: seq<Light>, arrayName: string, ghost sts: seq<LightState>)
    requires ctx.Valid() && States(lights) == sts
    modifies ctx
    ensures ctx.Valid() && ctx.state == old(ctx.state)
    ensures ctx.log == old(ctx.log) + Uniforms(SlotWrites(sts, arrayName, |sts|))
  {
    var index := 0;
    while index < |lights|
      invariant 0 <= index <= |lights|
      invariant ctx.Valid() && ctx.state == old(ctx.state)
      invariant ctx.log == old(ctx.log) + Uniforms(SlotWrites(sts, arrayName, index))
      invariant States(lights) == sts
    {
      WriteSlot(ctx, lights, arrayName, index, old(ctx.log), sts);
      index := index + 1;
    }
  }

  /** One roster: its loop, then the count if the index moved. */
  method WriteRoster(ctx: Context, lights: seq<Light>, arrayName: string, ghost sts: seq<LightState>)
    requires ctx.Valid()
    requires |sts| == |lights| && forall k :: 0 <= k < |lights| ==> lights[k].State() == sts[k]
    modifies ctx
    ensures ctx.Valid() && ctx.state == old(ctx.state)
    ensures ctx.log == old(ctx.log) + Uniforms(RosterWrites(sts, arrayName))
  {
    assert States(lights) == sts;
    WriteSlots(ctx, lights, arrayName, sts);
    WriteCount(ctx, arrayName, |lights|, old(ctx.log), SlotWrites(sts, arrayName, |sts|));
  }

  /** The uniform calls of `ObjectWrites`, group by group, after `log`. */
  lemma ObjectUniforms(log: seq<Event>, cameraPosition: Vec3, points: seq<LightState>, spots: seq<LightState>,
                       directionals: seq<LightState>, model: Mat, view: Mat, projection: Mat)
    ensures log + Uniforms(ObjectWrites(cameraPosition, points, spots, directionals, model, view, projection)) ==
      log + Uniforms([("camera_position", Vector(cameraPosition))]) + Uniforms(RosterWrites(points, "point_lights")) +
      Uniforms(RosterWrites(spots, "spot_lights")) + Uniforms(RosterWrites(directionals, "directional_lights")) +
      Uniforms([("u_model", Matrix(model)), ("u_view", Matrix(view)), ("u_projection", Matrix(projection))])
  {
    var camera := [("camera_position", Vector(cameraPosition))];
    var matrices := [("u_model", Matrix(model)), ("u_view", Matrix(view)), ("u_projection", Matrix(projection))];
    var p := RosterWrites(points, "point_lights");
    var s := RosterWrites(spots, "spot_lights");
    var d := RosterWrites(directionals, "directional_lights");
    UniformsAppend(camera + p + s + d, matrices);
    UniformsAppend(camera + p + s, d);
    UniformsAppend(camera + p, s);
    UniformsAppend(camera, p);
    var uc, up, us, ud, um := Uniforms(camera), Uniforms(p), Uniforms(s), Uniforms(d), Uniforms(matrices);
    AppendAssoc(log, uc + up + us + ud, um);
    AppendAssoc(log, uc + up + us, ud);
    AppendAssoc(log, uc + up, us);
    AppendAssoc(log, uc, up);
  }

  /** The camera position, the three rosters and the matrices. */
  method WriteObjectUniforms(ctx: Context, rosters: Rosters, cameraPosition: Vec3, model: Mat, view: Mat, projection: Mat,
                             ghost ps: seq<LightState>, ghost ss: seq<LightState>, ghost ds: seq<LightState>)
    requires ctx.Valid()
    requires |ps| == |rosters.pointLights| && forall k :: 0 <= k < |ps| ==> rosters.pointLights[k].State() == ps[k]
    requires |ss| == |rosters.spotLights| && forall k :: 0 <= k < |ss| ==> rosters.spotLights[k].State() == ss[k]
    requires |ds| == |rosters.directionalLights| && forall k :: 0 <= k < |ds| ==> rosters.directionalLights[k].State() == ds[k]
    modifies ctx
    ensures ctx.Valid() && ctx.state == old(ctx.state)
    ensures ctx.log == old(ctx.log) + Uniforms(ObjectWrites(cameraPosition, ps, ss, ds, model, view, projection))
  {
    ctx.SetUniforms([("camera_position", Vector(cameraPosition))]);
    WriteRoster(ctx, rosters.pointLights, "point_lights", ps);
    WriteRoster(ctx, rosters.spotLights, "spot_lights", ss);
    WriteRoster(ctx, rosters.directionalLights, "directional_lights", ds);
    ctx.SetUniforms([("u_model", Matrix(model)), ("u_view", Matrix(view)), ("u_projection", Matrix(projection))]);
    ObjectUniforms(old(ctx.log), cameraPosition, ps, ss, ds, model, view, projection);
  }

  class Object3D {
    /** The `Node3D` this object is. */
    const node: SceneGraph.Node
    const model: Models.Model

    constructor (name: string, local: Mat, model: Models.Model)
      ensures fresh(node) && node.name == name && node.kind == SceneGraph.ThreeD && node.local == local
      ensures node.parent == null && node.children == [] && this.model == model
    {
      node := new SceneGraph.Node(name, SceneGraph.ThreeD, local);
      this.model := model;
    }

    /** `render_class`: the model's `draw_start` (which may throw), then the
     *  camera position, the point, spot and directional rosters, the model,
     *  view and 3D projection matrices, then the model's `draw_end`. */
    method RenderClass(ctx: Context, rosters: Rosters, cameraPosition: Vec3, view: Mat, projection3d: Mat, projection2d: Mat)
      returns (r: Outcome)
      requires ctx.Valid()
      modifies ctx
      ensures ctx.Valid()
      ensures r != Done ==> r == Fail(NoShaderProgram) && ctx.log == old(ctx.log)
      ensures r == Done ==> (ctx.log == old(ctx.log) + old(model.StartCalls(ctx.state.depthPass)) +
        Uniforms(ObjectWrites(cameraPosition, old(States(rosters.pointLights)), old(States(rosters.spotLights)),
                              old(States(rosters.directionalLights)), old(node.WorldMatrix()), view, projection3d)) +
        old(model.EndCalls(ctx.state.depthPass)))
    {
      ghost var ps, ss, ds := States(rosters.pointLights), States(rosters.spotLights), States(rosters.directionalLights);
      ghost var startCalls, endCalls := model.StartCalls(ctx.state.depthPass), model.EndCalls(ctx.state.depthPass);
      var world := node.WorldMatrix();
      r := model.DrawStart(ctx);
      if r != Done {
        return;
      }
      ghost var started := ctx.log;
      WriteObjectUniforms(ctx, rosters, cameraPosition, world, view, projection3d, ps, ss, ds);
      ghost var written := ctx.log;
      model.DrawEnd(ctx);
      AppendAssoc(old(ctx.log), startCalls, Uniforms(ObjectWrites(cameraPosition, ps, ss, ds, world, view, projection3d)));
    }
  }
}
