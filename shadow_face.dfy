/** `get_point_shadow_face_index` of the default 3D fragment shader
 *  (src/shaders/default_3d.fs.ts): which of a point light's six depth layers
 *  a fragment samples, from the direction light -> fragment. */
module ShadowFaces {
  import opened Maths
  import PointLights

  /** A GLSL `vec3` direction. */
  datatype Direction = Direction(x: real, y: real, z: real)

  /** GLSL `abs`. */
  function Abs(r: real): (a: real)
    ensures a >= 0.0 && (a == r || a == -r)
  {
    if r < 0.0 then -r else r
  }

  /** Component `axis` of a direction: 0 is x, 1 is y, 2 is z. */
  function Component(dir: Direction, axis: nat): real
    requires axis < 3
  {
    if axis == 0 then dir.x else if axis == 1 then dir.y else dir.z
  }

  /** The face within the light: the dominant axis, ties going to x and then
   *  to y, on its positive side only when that component is above zero. */
  function Face(dir: Direction): (k: nat)
    ensures k < 6
  {
    var ax := Abs(dir.x);
    var ay := Abs(dir.y);
    var az := Abs(dir.z);
    if ax >= ay && ax >= az then (if dir.x > 0.0 then 0 else 1)
    else if ay >= az then (if dir.y > 0.0 then 2 else 3)
    else (if dir.z > 0.0 then 4 else 5)
  }

  /** `get_point_shadow_face_index(origin, dir)`. */
  function FaceIndex(origin: int, dir: Direction): (f: int)
    ensures origin <= f <= origin + 5
  {
    origin + Face(dir)
  }

  /** The axis: x exactly when |x| is at least |y| and |z|; otherwise y exactly
   *  when |y| is at least |z|; otherwise z. */
  lemma AxisChoice(dir: Direction)
    ensures var k := Face(dir);
      && (k / 2 == 0 <==> Abs(dir.x) >= Abs(dir.y) && Abs(dir.x) >= Abs(dir.z))
      && (k / 2 == 1 <==> !(Abs(dir.x) >= Abs(dir.y) && Abs(dir.x) >= Abs(dir.z)) && Abs(dir.y) >= Abs(dir.z))
      && (k / 2 == 2 <==> !(Abs(dir.x) >= Abs(dir.y) && Abs(dir.x) >= Abs(dir.z)) && Abs(dir.y) < Abs(dir.z))
  {
  }

  /** The positive face exactly when the chosen component is above zero, so a
   *  zero component picks the negative face. */
  lemma SignChoice(dir: Direction)
    ensures var k := Face(dir);
      k % 2 == 0 <==> Component(dir, k / 2) > 0.0
  {
  }

  /** The chosen component is at least as large in magnitude as every other. */
  lemma Dominant(dir: Direction)
    ensures forall a :: 0 <= a < 3 ==> Abs(Component(dir, a)) <= Abs(Component(dir, Face(dir) / 2))
  {
  }

  /** How far `dir` points along a unit axis. */
  function Along(axis: Vec3, dir: Direction): real
    requires axis.Vec3?
  {
    axis.x * dir.x + axis.y * dir.y + axis.z * dir.z
  }

  lemma AlongAxis(j: nat, dir: Direction)
    requires j < 6
    ensures Along(PointLights.Axis(j), dir) == if j % 2 == 0 then Component(dir, j / 2) else -Component(dir, j / 2)
  {
  }

  /** The chosen layer is the face of the point light's cube whose view axis
   *  (the same table the depth pass renders with) points most nearly along
   *  `dir`, and it points along it by the dominant magnitude. */
  lemma BestAligned(dir: Direction)
    ensures Along(PointLights.Axis(Face(dir)), dir) == Abs(Component(dir, Face(dir) / 2))
    ensures forall j :: 0 <= j < 6 ==> Along(PointLights.Axis(j), dir) <= Along(PointLights.Axis(Face(dir)), dir)
  {
    var k := Face(dir);
    AlongAxis(k, dir);
    SignChoice(dir);
    Dominant(dir);
    forall j | 0 <= j < 6
      ensures Along(PointLights.Axis(j), dir) <= Along(PointLights.Axis(k), dir)
    {
      AlongAxis(j, dir);
      assert Abs(Component(dir, j / 2)) <= Abs(Component(dir, k / 2));
    }
  }

  /** At the call site the origin is `index * 6`: light `index` samples one of
   *  its own layers `6 * index .. 6 * index + 5`, all inside the array of
   *  `6 * lights` matrices. */
  lemma LightLayers(index: nat, lights: nat, dir: Direction)
    requires index < lights
    ensures 6 * index <= FaceIndex(index * 6, dir) < 6 * index + 6
    ensures FaceIndex(index * 6, dir) < 6 * lights
    ensures FaceIndex(index * 6, dir) - 6 * index == Face(dir)
  {
  }
}
