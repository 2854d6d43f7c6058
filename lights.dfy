/** The light classes of src/node/lights.ts (`PointLight`, `SpotLight`,
 *  `DirectionalLight` over a common `Light`): the uniform writes each kind
 *  makes for one slot of a uniform array, and the engine's per-kind rosters
 *  that `on_parented`/`on_removed` maintain. */
module Lights {
  import opened Wrappers
  import opened Maths
  import opened Seqs
  import opened Gl
  import SceneGraph
  import ShaderPrograms
  import UniformLabels

  datatype LightKind = PointKind | SpotKind | DirectionalKind

  /** The label `${array_name}[${index}].${field}`. */
  function Label(arrayName: string, index: nat, field: string): string
  {
    arrayName + "[" + NatToString(index) + "]." + field
  }

  /** Every slot of one arrayName field normalises to the same registry key. */
  lemma LabelKey(arrayName: string, index: nat, field: string)
    requires UniformLabels.BracketFree(arrayName) && UniformLabels.BracketFree(field)
    ensures UniformLabels.Normalize(Label(arrayName, index, field)) == "[]" + arrayName + "." + field
  {
    var digits := NatToString(index);
    assert UniformLabels.BracketFree(digits);
    assert Label(arrayName, index, field) == arrayName + "[" + digits + "]" + ("." + field);
    UniformLabels.ElementKey(arrayName, digits, "." + field);
    assert UniformLabels.BracketFree("." + field);
    UniformLabels.BracketFreeScan("." + field, false);
  }

  /** The fields written for one light, in the order they are written: the
   *  kind's own fields first, then those of `Light.set_uniforms`. */
  function Fields(kind: LightKind): (fs: seq<string>)
    ensures |fs| >= 5 && fs[|fs| - 5..] == ["color", "ambient", "diffuse", "specular", "energy"]
  {
    var own := match kind
      case PointKind => ["position", "range"]
      case SpotKind => ["position", "rotation", "range", "cookie_radius"]
      case DirectionalKind => ["rotation"];
    own + ["color", "ambient", "diffuse", "specular", "energy"]
  }

  /** The inputs of one light's uniform writes. */
  datatype LightState = LightState(kind: LightKind, world: Mat, color: Vec3, ambient: real, diffuse: real,
                                   specular: real, energy: real, range: real, cookieRadius: real)

  /** The value uploaded for a field. */
  function StateValue(st: LightState, field: string): Value
  {
    if field == "position" then Vector(TranslationOf(st.world))
    else if field == "rotation" then Matrix(RotationOf(st.world))
    else if field == "range" then Number(st.range)
    else if field == "cookie_radius" then Number(st.cookieRadius)
    else if field == "color" then Vector(st.color)
    else if field == "ambient" then Number(st.ambient)
    else if field == "diffuse" then Number(st.diffuse)
    else if field == "specular" then Number(st.specular)
    else Number(st.energy)
  }

  /** The writes of a light in slot `index` of `array_name`: one per field of
   *  its kind, in `Fields` order, each with that field's value. */
  function StateWrites(st: LightState, arrayName: string, index: nat): (w: seq<(string, Value)>)
    ensures |w| == |Fields(st.kind)|
  {
    var fs := Fields(st.kind);
    seq(|fs|, i requires 0 <= i < |fs| => (Label(arrayName, index, fs[i]), StateValue(st, fs[i])))
  }

  class Light {
    const kind: LightKind
    /** The `Node3D` this light is. */
    const node: SceneGraph.Node
    var color: Vec3
    var ambient: real
    var diffuse: real
    var specular: real
    var energy: real
    var range: real         // point and spot lights
    var cookieRadius: real  // spot lights

    constructor (kind: LightKind, name: string, local: Mat, color: Vec3, ambient: real, diffuse: real,
                 specular: real, energy: real, range: real, cookieRadius: real)
      ensures this.kind == kind && fresh(node) && node.name == name && node.kind == SceneGraph.ThreeD
      ensures node.parent == null && node.children == [] && node.local == local
      ensures this.color == color && this.ambient == ambient && this.diffuse == diffuse
      ensures this.specular == specular && this.energy == energy
      ensures this.range == range && this.cookieRadius == cookieRadius
    {
      this.kind := kind;
      node := new SceneGraph.Node(name, SceneGraph.ThreeD, local);
      this.color := color;
      this.ambient := ambient;
      this.diffuse := diffuse;
      this.specular := specular;
      this.energy := energy;
      this.range := range;
      this.cookieRadius := cookieRadius;
    }

    /** What `set_uniforms` reads of this light: its fields and its world matrix. */
    function State(): (st: LightState)
      reads this, node, node.parent
      ensures st.kind == kind
    {
      LightState(kind, node.WorldMatrix(), color, ambient, diffuse, specular, energy, range, cookieRadius)
    }

    /** `set_uniforms(array_name, index)`: the (label, value) pairs written. */
    function Writes(arrayName: string, index: nat): seq<(string, Value)>
      reads this, node, node.parent
    {
      StateWrites(State(), arrayName, index)
    }

    /** `set_uniforms(array_name, index)`. */
    method SetUniforms(ctx: Context, arrayName: string, index: nat)
      requires ctx.Valid()
      modifies ctx
      ensures ctx.Valid() && ctx.log == old(ctx.log) + Uniforms(Writes(arrayName, index)) && ctx.state == old(ctx.state)
    {
      ctx.SetUniforms(Writes(arrayName, index));
    }

    /** `set_shader_uniforms(program, array_name, index)`: bracketed by the program's
     *  `use` and `clear_shader`, so no program is active afterwards. */
    method SetShaderUniforms(program: ShaderPrograms.ShaderProgram, ctx: Context, arrayName: string, index: nat)
      requires ctx.Valid()
      modifies ctx
      ensures ctx.Valid() && ctx.state == old(ctx.state).(program := None)
      ensures ctx.log == old(ctx.log) + [UseProgram(Some(program.name))] + Uniforms(Writes(arrayName, index)) + [UseProgram(None)]
    {
      var writes := Writes(arrayName, index);
      program.Use(ctx);
      ctx.SetUniforms(writes);
      ctx.Issue(UseProgram(None));
    }

    /** `on_parented`: join the end of this kind's roster. */
    method OnParented(rosters: Rosters)
      modifies rosters
      ensures rosters.Of(kind) == old(rosters.Of(kind)) + [this]
      ensures forall k :: k != kind ==> rosters.Of(k) == old(rosters.Of(k))
    {
      match kind
      case PointKind => rosters.pointLights := rosters.pointLights + [this];
      case SpotKind => rosters.spotLights := rosters.spotLights + [this];
      case DirectionalKind => rosters.directionalLights := rosters.directionalLights + [this];
    }

    /** `on_removed`: the first occurrence leaves this kind's roster, if present. */
    method OnRemoved(rosters: Rosters)
      modifies rosters
      ensures rosters.Of(kind) == RemoveFirst(old(rosters.Of(kind)), this)
      ensures forall k :: k != kind ==> rosters.Of(k) == old(rosters.Of(k))
    {
      var roster := rosters.Of(kind);
      var i := IndexOf(roster, this);
      if i > -1 {
        roster := roster[..i] + roster[i + 1..];
      }
      assert roster == RemoveFirst(old(rosters.Of(kind)), this);
      match kind
      case PointKind => rosters.pointLights := roster;
      case SpotKind => rosters.spotLights := roster;
      case DirectionalKind => rosters.directionalLights := roster;
    }
  }

  /** The engine's `point_lights`, `spot_lights` and `directional_lights`. */
  class Rosters {
    var pointLights: seq<Light>
    var spotLights: seq<Light>
    var directionalLights: seq<Light>

    constructor ()
      ensures pointLights == [] && spotLights == [] && directionalLights == []
    {
      pointLights := [];
      spotLights := [];
      directionalLights := [];
    }

    function Of(kind: LightKind): seq<Light>
      reads this
    {
      match kind
      case PointKind => pointLights
      case SpotKind => spotLights
      case DirectionalKind => directionalLights
    }
  }

  /** A light that joins a roster it was not in and then leaves it restores the roster. */
  lemma ParentedThenRemoved(roster: seq<Light>, l: Light)
    requires l !in roster
    ensures RemoveFirst(roster + [l], l) == roster
  {
    RemoveFirstAppended(roster, l);
  }

  /** Everything a light's writes read. */
  ghost function Footprint(lights: seq<Light>): set<object?>
    reads set l | l in lights :: l.node
  {
    (set l | l in lights :: l as object?) + (set l | l in lights :: l.node as object?) + (set l | l in lights :: l.node.parent as object?)
  }
}
