/** The shared vertex arrays of src/graphics/assets/vaos.ts: a unit cube for
 *  the skybox and a textured quad for sprites, each built on first request
 *  and cached for every later one. */
module Vaos {
  import opened Wrappers
  import opened Gl

  /** `VAOInfo`. */
  datatype VaoInfo = VaoInfo(vao: nat, indexCount: nat, vertexCount: nat)

  /** The eight cube corners, three coordinates each. */
  function CubeVertices(): (vs: seq<real>)
    ensures |vs| == 24
  {
    [-1.0, -1.0, -1.0,   1.0, -1.0, -1.0,   1.0, 1.0, -1.0,   -1.0, 1.0, -1.0,
     -1.0, -1.0, 1.0,    1.0, -1.0, 1.0,    1.0, 1.0, 1.0,    -1.0, 1.0, 1.0]
  }

  /** Two triangles for each of the six cube faces, indexing the 8 corners. */
  function CubeIndices(): (ix: seq<nat>)
    ensures |ix| == 36 && |ix| % 3 == 0
    ensures forall i :: 0 <= i < |ix| ==> ix[i] < |CubeVertices()| / 3
  {
    [0, 1, 2, 2, 3, 0,   4, 5, 6, 6, 7, 4,   0, 4, 7, 7, 3, 0,
     1, 5, 6, 6, 2, 1,   3, 2, 6, 6, 7, 3,   0, 1, 5, 5, 4, 0]
  }

  /** The four quad corners: position (x, y, z) then texture coordinate (u, v). */
  function QuadVertices(): (vs: seq<real>)
    ensures |vs| == 20 && |vs| % 5 == 0
  {
    [-0.5, -0.5, 0.0, 0.0, 0.0,
      0.5, -0.5, 0.0, 1.0, 0.0,
      0.5,  0.5, 0.0, 1.0, 1.0,
     -0.5,  0.5, 0.0, 0.0, 1.0]
  }

  /** Two triangles covering the quad. */
  function QuadIndices(): (ix: seq<nat>)
    ensures |ix| == 6
    ensures forall i :: 0 <= i < |ix| ==> ix[i] < |QuadVertices()| / 5
  {
    [0, 1, 2, 2, 3, 0]
  }

  /** The calls that build the skybox VAO. */
  function SkyboxSetup(vao: nat, vbo: nat, ibo: nat): seq<Event>
  {
    [BindVertexArray(Some(vao)),
     BindBuffer(ARRAY_BUFFER, Some(vbo)), BufferData(ARRAY_BUFFER, |CubeVertices()|),
     EnableVertexAttribArray(0), VertexAttribPointer(0, 3, 0, 0),
     BindBuffer(ELEMENT_ARRAY_BUFFER, Some(ibo)), BufferData(ELEMENT_ARRAY_BUFFER, |CubeIndices()|),
     BindVertexArray(None), BindBuffer(ARRAY_BUFFER, None)]
  }

  /** The calls that build the sprite VAO: a 20-byte stride, the texture
   *  coordinate 12 bytes into each vertex. */
  function SpriteSetup(vao: nat, vbo: nat, ebo: nat): seq<Event>
  {
    [BindVertexArray(Some(vao)),
     BindBuffer(ARRAY_BUFFER, Some(vbo)), BufferData(ARRAY_BUFFER, |QuadVertices()|),
     EnableVertexAttribArray(0), VertexAttribPointer(0, 3, 20, 0),
     EnableVertexAttribArray(1), VertexAttribPointer(1, 2, 20, 12),
     BindBuffer(ELEMENT_ARRAY_BUFFER, Some(ebo)), BufferData(ELEMENT_ARRAY_BUFFER, |QuadIndices()|),
     BindVertexArray(None), BindBuffer(ARRAY_BUFFER, None)]
  }

  /** Building either VAO leaves no VAO bound. */
  lemma SetupUnbinds(s: GlState, vao: nat, b1: nat, b2: nat)
    ensures Replay(s, SkyboxSetup(vao, b1, b2)).vao == None
    ensures Replay(s, SpriteSetup(vao, b1, b2)).vao == None
  {
    var sky := SkyboxSetup(vao, b1, b2);
    var spr := SpriteSetup(vao, b1, b2);
    ReplayAppend(s, sky[..8], sky[8..]);
    assert sky[..8] + sky[8..] == sky;
    ReplayOne(Replay(s, sky[..8]), sky[8]);
    assert sky[8..] == [sky[8]];
    assert sky[..8][..7] == sky[..7];
    ReplayAppend(s, spr[..10], spr[10..]);
    assert spr[..10] + spr[10..] == spr;
    ReplayOne(Replay(s, spr[..10]), spr[10]);
    assert spr[10..] == [spr[10]];
    assert spr[..10][..9] == spr[..9];
  }

  /** The module-level cache variables. */
  class VaoCache {
    var skybox: Option<VaoInfo>
    var sprite: Option<VaoInfo>

    /** A cached entry always carries the counts it was built with. */
    ghost predicate Valid()
      reads this
    {
      (skybox.Some? ==> skybox.value.indexCount == 36 && skybox.value.vertexCount == 24) &&
      (sprite.Some? ==> sprite.value.indexCount == 6 && sprite.value.vertexCount == 4)
    }

    constructor ()
      ensures Valid() && skybox == None && sprite == None
    {
      skybox := None;
      sprite := None;
    }

    /** `get_skybox_vao`: built once, from handles the context creates; every
     *  later call returns the cached handle and counts. The vertex count is
     *  the number of floats, 24, not the 8 corners. */
    method GetSkyboxVao(ctx: Context, vao: nat, vbo: nat, ibo: nat) returns (info: VaoInfo)
      requires Valid() && ctx.Valid()
      modifies this`skybox, ctx
      ensures Valid() && ctx.Valid() && skybox == Some(info)
      ensures old(skybox).Some? ==> info == old(skybox).value && ctx.log == old(ctx.log) && ctx.state == old(ctx.state)
      ensures old(skybox).None? ==> (info == VaoInfo(vao, |CubeIndices()|, |CubeVertices()|) &&
        ctx.log == old(ctx.log) + SkyboxSetup(vao, vbo, ibo) && ctx.state == old(ctx.state).(vao := None))
    {
      if skybox.Some? {
        return skybox.value;
      }
      var setup := SkyboxSetup(vao, vbo, ibo);
      SetupUnbinds(ctx.state, vao, vbo, ibo);
      ctx.IssueAll(setup);
      ReplayVaoOnly(old(ctx.state), setup);
      info := VaoInfo(vao, |CubeIndices()|, |CubeVertices()|);
      skybox := Some(info);
    }

    /** `get_sprite_vao`: cached the same way; four vertices of five floats. */
    method GetSpriteVao(ctx: Context, vao: nat, vbo: nat, ebo: nat) returns (info: VaoInfo)
      requires Valid() && ctx.Valid()
      modifies this`sprite, ctx
      ensures Valid() && ctx.Valid() && sprite == Some(info)
      ensures old(sprite).Some? ==> info == old(sprite).value && ctx.log == old(ctx.log) && ctx.state == old(ctx.state)
      ensures old(sprite).None? ==> (info == VaoInfo(vao, |QuadIndices()|, |QuadVertices()| / 5) &&
        ctx.log == old(ctx.log) + SpriteSetup(vao, vbo, ebo) && ctx.state == old(ctx.state).(vao := None))
    {
      if sprite.Some? {
        return sprite.value;
      }
      var setup := SpriteSetup(vao, vbo, ebo);
      SetupUnbinds(ctx.state, vao, vbo, ebo);
      ctx.IssueAll(setup);
      ReplayVaoOnly(old(ctx.state), setup);
      info := VaoInfo(vao, |QuadIndices()|, |QuadVertices()| / 5);
      sprite := Some(info);
    }
  }

  /** Calls that bind nothing but vertex arrays change only the VAO slot. */
  lemma {:induction false} ReplayVaoOnly(s: GlState, es: seq<Event>)
    requires forall i :: 0 <= i < |es| ==> Inert(es[i]) || es[i].BindVertexArray?
    ensures Replay(s, es) == s.(vao := Replay(s, es).vao)
    decreases |es|
  {
    if es != [] {
      ReplayVaoOnly(s, es[..|es| - 1]);
    }
  }
}
