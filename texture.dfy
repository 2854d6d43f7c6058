/** Textures (src/graphics/assets/texture.ts): the overloaded `Texture`
 *  constructor's choice among its argument shapes, the `create_*` creators it
 *  dispatches to with the GL calls each issues, and the `CubeMapTexture`
 *  constructor's two paths and face order. */
module Textures {
  import opened Wrappers
  import opened Gl
  import Seqs

  datatype TextureType = Color | Depth | ColorArray | DepthArray

  /** The string value of each `TextureType` member. */
  function TypeName(t: TextureType): string
  {
    match t
    case Color => "COLOR"
    case Depth => "DEPTH"
    case ColorArray => "COLOR_ARRAY"
    case DepthArray => "DEPTH_ARRAY"
  }

  /** The member a value is, if it is one (`Object.values(TextureType).includes(v)`). */
  function TypeOf(v: JsValue): (t: Option<TextureType>)
    ensures t.Some? ==> v == Str(TypeName(t.value))
  {
    if v == Str("COLOR") then Some(Color)
    else if v == Str("DEPTH") then Some(Depth)
    else if v == Str("COLOR_ARRAY") then Some(ColorArray)
    else if v == Str("DEPTH_ARRAY") then Some(DepthArray)
    else None
  }

  /** Every member's name is recognised as that member. */
  lemma TypeOfName(t: TextureType)
    ensures TypeOf(Str(TypeName(t))) == Some(t)
  {
    match t
    case Color =>
    case Depth =>
      assert "DEPTH"[0] != "COLOR"[0];
    case ColorArray =>
      assert |"COLOR_ARRAY"| != |"COLOR"|;
    case DepthArray =>
      assert "DEPTH_ARRAY"[0] != "COLOR_ARRAY"[0];
  }

  /** The texture target a type is created on. */
  function Target(t: TextureType): int
  {
    if t == Color || t == Depth then TEXTURE_2D else TEXTURE_2D_ARRAY
  }

  // ---------------------------------------------------------------- parameters

  /** `Object.entries(v)`: throws for `undefined` and `null`; an object yields
   *  its entries; a number yields none. */
  function Entries(v: JsValue): (r: Result<seq<(int, int)>>)
    ensures r.Err? <==> v == Undefined || v == Null
  {
    match v
    case Undefined => Err(TypeError)
    case Null => Err(TypeError)
    case Params(es) => Ok(es)
    case _ => Ok([])
  }

  /** One `texParameteri` per entry, in order. */
  function ParameterCalls(target: int, entries: seq<(int, int)>): (es: seq<Event>)
    ensures |es| == |entries|
  {
    if entries == [] then []
    else ParameterCalls(target, entries[..|entries| - 1])
           + [TexParameter(target, entries[|entries| - 1].0, entries[|entries| - 1].1)]
  }

  /** The value the last `texParameteri` on `target` gave `pname`, if any. */
  function LastParameter(es: seq<Event>, target: int, pname: int): Option<int>
  {
    if es == [] then None
    else
      var e := es[|es| - 1];
      if e.TexParameter? && e.target == target && e.pname == pname then Some(e.param)
      else LastParameter(es[..|es| - 1], target, pname)
  }

  /** The value the last entry for `pname` gives it, if any. */
  function LastEntry(entries: seq<(int, int)>, pname: int): Option<int>
  {
    if entries == [] then None
    else if entries[|entries| - 1].0 == pname then Some(entries[|entries| - 1].1)
    else LastEntry(entries[..|entries| - 1], pname)
  }

  lemma {:induction false} LastParameterAppend(a: seq<Event>, b: seq<Event>, target: int, pname: int)
    ensures LastParameter(a + b, target, pname)
      == if LastParameter(b, target, pname).Some? then LastParameter(b, target, pname) else LastParameter(a, target, pname)
    decreases |b|
  {
    if b == [] {
      assert a + b == a;
    } else {
      assert (a + b)[..|a + b| - 1] == a + b[..|b| - 1];
      LastParameterAppend(a, b[..|b| - 1], target, pname);
    }
  }

  /** The parameter calls leave each parameter at its last entry's value. */
  lemma {:induction false} ParameterCallsLast(target: int, entries: seq<(int, int)>, pname: int)
    ensures LastParameter(ParameterCalls(target, entries), target, pname) == LastEntry(entries, pname)
    decreases |entries|
  {
    if entries != [] {
      var init := entries[..|entries| - 1];
      ParameterCallsLast(target, init, pname);
      assert ParameterCalls(target, entries)[..|entries| - 1] == ParameterCalls(target, init);
    }
  }

  /** Caller parameters are applied after a creator's built-in ones, so the
   *  caller's value of a parameter wins, and the built-in one stands otherwise. */
  lemma CallerParametersWin(target: int, builtIn: seq<(int, int)>, caller: seq<(int, int)>, pname: int)
    ensures var es := ParameterCalls(target, builtIn) + ParameterCalls(target, caller);
      LastParameter(es, target, pname) == if LastEntry(caller, pname).Some? then LastEntry(caller, pname) else LastEntry(builtIn, pname)
  {
    LastParameterAppend(ParameterCalls(target, builtIn), ParameterCalls(target, caller), target, pname);
    ParameterCallsLast(target, builtIn, pname);
    ParameterCallsLast(target, caller, pname);
  }

  /** The loop over `Object.entries(texture_parameters)`. */
  method SetParameters(ctx: Context, target: int, entries: seq<(int, int)>)
    requires ctx.Valid()
    modifies ctx
    ensures ctx.Valid() && ctx.state == old(ctx.state)
    ensures ctx.log == old(ctx.log) + ParameterCalls(target, entries)
  {
    var i := 0;
    while i < |entries|
      invariant 0 <= i <= |entries|
      invariant ctx.Valid() && ctx.state == old(ctx.state)
      invariant ctx.log == old(ctx.log) + ParameterCalls(target, entries[..i])
    {
      ctx.Issue(TexParameter(target, entries[i].0, entries[i].1));
      assert entries[..i + 1][..i] == entries[..i];
      i := i + 1;
    }
    assert entries[..i] == entries;
  }

  // ---------------------------------------------------------------- layers

  /** `Math.max(images, 1)` for the count or `null` a creator is handed. */
  function MaxLayers(images: JsValue): (l: LayerCount)
    ensures images.Num? ==> l == Layers(if images.n >= 1 then images.n else 1)
    ensures images == Null ==> l == Layers(1)
    ensures l.Layers? ==> l.n >= 1
  {
    match images
    case Num(n) => Layers(if n >= 1 then n else 1)
    case Null => Layers(1)
    case _ => NaNLayers
  }

  /** One `texSubImage3D` per image: the uploads of an image-list colour array. */
  function LayerUploads(level: JsValue, ids: seq<nat>, imageType: JsValue): (es: seq<Event>)
    ensures |es| == |ids|
  {
    if ids == [] then []
    else LayerUploads(level, ids[..|ids| - 1], imageType)
           + [TexSubImage3D(TEXTURE_2D_ARRAY, level, |ids| - 1, ids[|ids| - 1], RGBA, imageType)]
  }

  lemma LayerUploadsStep(level: JsValue, ids: seq<nat>, i: nat, imageType: JsValue)
    requires i < |ids|
    ensures LayerUploads(level, ids[..i + 1], imageType) ==
      LayerUploads(level, ids[..i], imageType) + [TexSubImage3D(TEXTURE_2D_ARRAY, level, i, ids[i], RGBA, imageType)]
  {
    var next := ids[..i + 1];
    assert |next| - 1 == i && next[i] == ids[i] && next[..i] == ids[..i];
  }

  /** Image `i` goes into layer `i`, once, at the creation's level and type. */
  lemma {:induction false} LayerUploadsIndexed(level: JsValue, ids: seq<nat>, imageType: JsValue)
    ensures forall i :: 0 <= i < |ids| ==>
      LayerUploads(level, ids, imageType)[i] == TexSubImage3D(TEXTURE_2D_ARRAY, level, i, ids[i], RGBA, imageType)
    decreases |ids|
  {
    if ids != [] {
      var init := ids[..|ids| - 1];
      LayerUploadsIndexed(level, init, imageType);
      assert forall i :: 0 <= i < |init| ==> init[i] == ids[i];
    }
  }

  /** The `for` loop over the images of an image-list colour array. */
  method UploadLayers(ctx: Context, level: JsValue, ids: seq<nat>, imageType: JsValue)
    requires ctx.Valid()
    modifies ctx
    ensures ctx.Valid() && ctx.state == old(ctx.state)
    ensures ctx.log == old(ctx.log) + LayerUploads(level, ids, imageType)
  {
    var i := 0;
    while i < |ids|
      invariant 0 <= i <= |ids|
      invariant ctx.Valid() && ctx.state == old(ctx.state)
      invariant ctx.log == old(ctx.log) + LayerUploads(level, ids[..i], imageType)
    {
      var upload := TexSubImage3D(TEXTURE_2D_ARRAY, level, i, ids[i], RGBA, imageType);
      assert Inert(upload);
      ghost var done := LayerUploads(level, ids[..i], imageType);
      ctx.Issue(upload);
      LayerUploadsStep(level, ids, i, imageType);
      Seqs.AppendAssoc(old(ctx.log), done, [upload]);
      i := i + 1;
    }
    assert ids[..i] == ids;
  }

  // ---------------------------------------------------------------- creators

  const DepthArrayParameters: seq<(int, int)> :=
    [(TEXTURE_MIN_FILTER, NEAREST), (TEXTURE_MAG_FILTER, NEAREST),
     (TEXTURE_WRAP_S, CLAMP_TO_EDGE), (TEXTURE_WRAP_T, CLAMP_TO_EDGE),
     (TEXTURE_BASE_LEVEL, 0), (TEXTURE_MAX_LEVEL, 0)]

  /** The calls of a creator: `head`, then the caller's parameters and `tail`,
   *  or `head` alone when `Object.entries` throws. */
  function Creator(head: seq<Event>, target: int, parameters: JsValue, tail: seq<Event>): (c: Calls)
    ensures c.outcome == Done <==> Entries(parameters).Ok?
  {
    match Entries(parameters)
    case Err(e) => Calls(head, Fail(e))
    case Ok(entries) => Calls(head + ParameterCalls(target, entries) + tail, Done)
  }

  /** Whatever happens to the caller's parameters, the head is issued first. */
  lemma CreatorPrefix(head: seq<Event>, target: int, parameters: JsValue, tail: seq<Event>)
    ensures var es := Creator(head, target, parameters, tail).events;
      |es| >= |head| && es[..|head|] == head
  {
    if Entries(parameters).Ok? {
      var p := ParameterCalls(target, Entries(parameters).value);
      assert (head + p + tail)[..|head|] == head;
    }
  }

  /** The calls of `create_depth_array_texture` before the caller's parameters. */
  function DepthArrayHead(handle: nat, layers: LayerCount, width: JsValue, height: JsValue): seq<Event>
  {
    [BindTexture(TEXTURE_2D_ARRAY, Some(handle)), TexImage3D(TEXTURE_2D_ARRAY, Num(0), DepthFormat, width, height, layers, Num(UNSIGNED_INT))]
      + ParameterCalls(TEXTURE_2D_ARRAY, DepthArrayParameters)
  }

  /** `create_depth_array_texture`. */
  function DepthArrayCalls(handle: nat, layers: LayerCount, width: JsValue, height: JsValue, parameters: JsValue): Calls
  {
    Creator(DepthArrayHead(handle, layers, width, height), TEXTURE_2D_ARRAY, parameters, [BindTexture(TEXTURE_2D_ARRAY, None)])
  }

  /** The allocation (and uploads) of `create_color_array_texture`. */
  function ColorArrayStorage(images: JsValue, width: JsValue, height: JsValue, imageType: JsValue, level: JsValue): seq<Event>
  {
    if images.Images?
    then [TexImage3D(TEXTURE_2D_ARRAY, level, ColorFormat, width, height, Layers(|images.ids|), imageType)]
           + LayerUploads(level, images.ids, imageType)
    else [TexImage3D(TEXTURE_2D_ARRAY, level, ColorFormat, width, height, MaxLayers(images), imageType)]
  }

  /** Mipmaps are generated only for a truthy image list or count. */
  function ColorArrayTail(images: JsValue): seq<Event>
  {
    (if Truthy(images) then [GenerateMipmap(TEXTURE_2D_ARRAY)] else []) + [BindTexture(TEXTURE_2D_ARRAY, None)]
  }

  /** `create_color_array_texture`. */
  function ColorArrayCalls(handle: nat, images: JsValue, width: JsValue, height: JsValue, imageType: JsValue,
                           level: JsValue, parameters: JsValue): Calls
  {
    Creator([BindTexture(TEXTURE_2D_ARRAY, Some(handle))] + ColorArrayStorage(images, width, height, imageType, level),
            TEXTURE_2D_ARRAY, parameters, ColorArrayTail(images))
  }

  /** The `texImage2D` of the 2D creators: a blank allocation of the given size
   *  for `null`, an upload of the image (with no size) otherwise. */
  function Upload2D(formats: TexFormat, image: JsValue, level: JsValue, width: JsValue, height: JsValue, imageType: JsValue): Event
  {
    if image == Null then TexImage2D(TEXTURE_2D, level, formats, width, height, Null, imageType)
    else TexImage2D(TEXTURE_2D, level, formats, Undefined, Undefined, image, imageType)
  }

  const Texture2DTail := [GenerateMipmap(TEXTURE_2D), BindTexture(TEXTURE_2D, None)]

  /** `create_color_texture` with `ColorFormat` and, with `DepthFormat` at
   *  level 0, `create_depth_texture`. */
  function Texture2DCalls(handle: nat, formats: TexFormat, image: JsValue, width: JsValue, height: JsValue, imageType: JsValue,
                          level: JsValue, parameters: JsValue): Calls
  {
    Creator([BindTexture(TEXTURE_2D, Some(handle)), Upload2D(formats, image, level, width, height, imageType)],
            TEXTURE_2D, parameters, Texture2DTail)
  }

  /** What the constructor hands `create_texture`. `kind` is `None` for a
   *  `texture_type` that is no member, for which the `switch` has no case. */
  datatype Creation = Creation(source: JsValue, kind: Option<TextureType>, parameters: JsValue,
                               level: JsValue, imageType: JsValue, width: JsValue, height: JsValue)

  /** `create_texture`: the creator chosen by the type. */
  function CreationCalls(handle: nat, c: Creation): Calls
  {
    match c.kind
    case None => Calls([], Done)
    case Some(Color) => Texture2DCalls(handle, ColorFormat, c.source, c.width, c.height, c.imageType, c.level, c.parameters)
    case Some(Depth) => Texture2DCalls(handle, DepthFormat, c.source, c.width, c.height, c.imageType, Num(0), c.parameters)
    case Some(ColorArray) => ColorArrayCalls(handle, c.source, c.width, c.height, c.imageType, c.level, c.parameters)
    case Some(DepthArray) => DepthArrayCalls(handle, MaxLayers(c.source), c.width, c.height, c.parameters)
  }

  /** The texture target a texture call addresses. */
  function TargetOf(e: Event): (t: Option<int>)
    ensures t.Some? ==> Inert(e)
  {
    match e
    case BindTexture(t, _) => Some(t)
    case TexImage2D(t, _, _, _, _, _, _) => Some(t)
    case TexImage3D(t, _, _, _, _, _, _) => Some(t)
    case TexSubImage3D(t, _, _, _, _, _) => Some(t)
    case TexParameter(t, _, _) => Some(t)
    case GenerateMipmap(t) => Some(t)
    case _ => None
  }

  predicate OnTarget(es: seq<Event>, target: int)
  {
    forall k :: 0 <= k < |es| ==> TargetOf(es[k]) == Some(target)
  }

  lemma OnTargetNeutral(es: seq<Event>, target: int)
    requires OnTarget(es, target)
    ensures Neutral(es)
  {
    forall k | 0 <= k < |es|
      ensures Inert(es[k])
    {
      assert TargetOf(es[k]).Some?;
    }
  }

  lemma {:induction false} ParameterCallsOnTarget(target: int, entries: seq<(int, int)>)
    ensures OnTarget(ParameterCalls(target, entries), target)
    decreases |entries|
  {
    if entries != [] {
      ParameterCallsOnTarget(target, entries[..|entries| - 1]);
    }
  }

  lemma LayerUploadsOnTarget(level: JsValue, ids: seq<nat>, imageType: JsValue)
    ensures OnTarget(LayerUploads(level, ids, imageType), TEXTURE_2D_ARRAY)
  {
    LayerUploadsIndexed(level, ids, imageType);
  }

  lemma CreatorOnTarget(head: seq<Event>, target: int, parameters: JsValue, tail: seq<Event>)
    requires OnTarget(head, target) && OnTarget(tail, target)
    ensures OnTarget(Creator(head, target, parameters, tail).events, target)
  {
    if Entries(parameters).Ok? {
      ParameterCallsOnTarget(target, Entries(parameters).value);
    }
  }

  lemma DepthArrayHeadOnTarget(handle: nat, layers: LayerCount, width: JsValue, height: JsValue)
    ensures OnTarget(DepthArrayHead(handle, layers, width, height), TEXTURE_2D_ARRAY)
  {
    ParameterCallsOnTarget(TEXTURE_2D_ARRAY, DepthArrayParameters);
  }

  lemma ColorArrayHeadOnTarget(handle: nat, images: JsValue, width: JsValue, height: JsValue, imageType: JsValue, level: JsValue)
    ensures OnTarget([BindTexture(TEXTURE_2D_ARRAY, Some(handle))] + ColorArrayStorage(images, width, height, imageType, level), TEXTURE_2D_ARRAY)
  {
    if images.Images? {
      LayerUploadsOnTarget(level, images.ids, imageType);
    }
  }

  /** `create_texture` runs exactly one creator, the one for the type: every
   *  call it makes addresses that type's target, the first binds the new
   *  texture there, and a creator that finishes ends by unbinding it. A value
   *  that is no type makes no call. */
  lemma CreationDispatch(handle: nat, c: Creation)
    ensures var r := CreationCalls(handle, c);
      && (c.kind.None? ==> r == Calls([], Done))
      && (c.kind.Some? ==>
            && OnTarget(r.events, Target(c.kind.value))
            && r.events[0] == BindTexture(Target(c.kind.value), Some(handle))
            && (r.outcome == Done <==> Entries(c.parameters).Ok?)
            && (r.outcome == Done ==> r.events[|r.events| - 1] == BindTexture(Target(c.kind.value), None)))
  {
    if c.kind.Some? {
      var t := Target(c.kind.value);
      match c.kind.value
      case DepthArray =>
        var head := DepthArrayHead(handle, MaxLayers(c.source), c.width, c.height);
        DepthArrayHeadOnTarget(handle, MaxLayers(c.source), c.width, c.height);
        CreatorOnTarget(head, t, c.parameters, [BindTexture(t, None)]);
        CreatorPrefix(head, t, c.parameters, [BindTexture(t, None)]);
      case ColorArray =>
        var head := [BindTexture(t, Some(handle))] + ColorArrayStorage(c.source, c.width, c.height, c.imageType, c.level);
        ColorArrayHeadOnTarget(handle, c.source, c.width, c.height, c.imageType, c.level);
        CreatorOnTarget(head, t, c.parameters, ColorArrayTail(c.source));
        CreatorPrefix(head, t, c.parameters, ColorArrayTail(c.source));
      case Color =>
        CreatorOnTarget([BindTexture(t, Some(handle)), Upload2D(ColorFormat, c.source, c.level, c.width, c.height, c.imageType)],
                        t, c.parameters, Texture2DTail);
      case Depth =>
        CreatorOnTarget([BindTexture(t, Some(handle)), Upload2D(DepthFormat, c.source, Num(0), c.width, c.height, c.imageType)],
                        t, c.parameters, Texture2DTail);
    }
  }

  // ---------------------------------------------------------------- formats

  /** The formats a creator passes: the depth formats for the two depth
   *  types, RGBA for the two colour types. */
  function FormatsOf(t: TextureType): (f: TexFormat)
    ensures f == DepthFormat <==> t == Depth || t == DepthArray
    ensures f == ColorFormat <==> t == Color || t == ColorArray
  {
    assert DepthFormat != ColorFormat by {
      assert DepthFormat.internalFormat != ColorFormat.internalFormat;
    }
    match t
    case Depth => DepthFormat
    case DepthArray => DepthFormat
    case Color => ColorFormat
    case ColorArray => ColorFormat
  }

  /** Every allocation and upload in `es` passes the formats `f`. */
  predicate FormatsIn(es: seq<Event>, f: TexFormat)
  {
    forall k :: 0 <= k < |es| ==>
      && (es[k].TexImage2D? || es[k].TexImage3D? ==> es[k].formats == f)
      && (es[k].TexSubImage3D? ==> es[k].format == f.format)
  }

  lemma {:induction false} ParameterCallsFormatFree(target: int, entries: seq<(int, int)>, f: TexFormat)
    ensures FormatsIn(ParameterCalls(target, entries), f)
    decreases |entries|
  {
    if entries != [] {
      ParameterCallsFormatFree(target, entries[..|entries| - 1], f);
    }
  }

  lemma CreatorFormats(head: seq<Event>, target: int, parameters: JsValue, tail: seq<Event>, f: TexFormat)
    requires FormatsIn(head, f) && FormatsIn(tail, f)
    ensures FormatsIn(Creator(head, target, parameters, tail).events, f)
  {
    if Entries(parameters).Ok? {
      ParameterCallsFormatFree(target, Entries(parameters).value, f);
    }
  }

  /** The creator of each type passes that type's formats to every allocation
   *  and upload it makes, and its second call is the first allocation. So the
   *  log of a depth texture differs from that of a colour texture. */
  lemma CreationFormats(handle: nat, c: Creation)
    requires c.kind.Some?
    ensures var es := CreationCalls(handle, c).events;
      && FormatsIn(es, FormatsOf(c.kind.value))
      && |es| >= 2 && (es[1].TexImage2D? || es[1].TexImage3D?) && es[1].formats == FormatsOf(c.kind.value)
  {
    var f := FormatsOf(c.kind.value);
    var t := Target(c.kind.value);
    match c.kind.value
    case DepthArray =>
      var head := DepthArrayHead(handle, MaxLayers(c.source), c.width, c.height);
      ParameterCallsFormatFree(t, DepthArrayParameters, f);
      CreatorFormats(head, t, c.parameters, [BindTexture(t, None)], f);
      CreatorPrefix(head, t, c.parameters, [BindTexture(t, None)]);
    case ColorArray =>
      var head := [BindTexture(t, Some(handle))] + ColorArrayStorage(c.source, c.width, c.height, c.imageType, c.level);
      if c.source.Images? {
        LayerUploadsIndexed(c.level, c.source.ids, c.imageType);
      }
      CreatorFormats(head, t, c.parameters, ColorArrayTail(c.source), f);
      CreatorPrefix(head, t, c.parameters, ColorArrayTail(c.source));
    case Color =>
      var head := [BindTexture(t, Some(handle)), Upload2D(f, c.source, c.level, c.width, c.height, c.imageType)];
      CreatorFormats(head, t, c.parameters, Texture2DTail, f);
      CreatorPrefix(head, t, c.parameters, Texture2DTail);
    case Depth =>
      var head := [BindTexture(t, Some(handle)), Upload2D(f, c.source, Num(0), c.width, c.height, c.imageType)];
      CreatorFormats(head, t, c.parameters, Texture2DTail, f);
      CreatorPrefix(head, t, c.parameters, Texture2DTail);
  }

  /** A depth array, and a colour array given a count or `null`, allocate
   *  `max(n, 1)` layers: the allocation follows the bind. */
  lemma DepthArrayLayers(handle: nat, c: Creation)
    requires c.kind == Some(DepthArray)
    ensures var es := CreationCalls(handle, c).events;
      && es[1] == TexImage3D(TEXTURE_2D_ARRAY, Num(0), DepthFormat, c.width, c.height, MaxLayers(c.source), Num(UNSIGNED_INT))
      && (c.source.Num? ==> es[1].layers == Layers(if c.source.n >= 1 then c.source.n else 1))
      && (c.source == Null ==> es[1].layers == Layers(1))
  {
    var head := DepthArrayHead(handle, MaxLayers(c.source), c.width, c.height);
    CreatorPrefix(head, TEXTURE_2D_ARRAY, c.parameters, [BindTexture(TEXTURE_2D_ARRAY, None)]);
    assert head[1] == CreationCalls(handle, c).events[..|head|][1];
  }

  /** A colour array allocates `max(n, 1)` layers for a count or `null`, and
   *  one per image for an image list, uploading image `i` into layer `i`. */
  lemma ColorArrayLayers(handle: nat, c: Creation)
    requires c.kind == Some(ColorArray)
    ensures var es := CreationCalls(handle, c).events;
      && |es| >= 2 && es[1].TexImage3D? && es[1].level == c.level
      && (c.source.Num? ==> es[1].layers == Layers(if c.source.n >= 1 then c.source.n else 1))
      && (c.source == Null ==> es[1].layers == Layers(1))
      && (c.source.Images? ==>
            && es[1].layers == Layers(|c.source.ids|)
            && |es| >= 2 + |c.source.ids|
            && forall i :: 0 <= i < |c.source.ids| ==>
                 es[2 + i] == TexSubImage3D(TEXTURE_2D_ARRAY, c.level, i, c.source.ids[i], RGBA, c.imageType))
  {
    var head := [BindTexture(TEXTURE_2D_ARRAY, Some(handle))] + ColorArrayStorage(c.source, c.width, c.height, c.imageType, c.level);
    CreatorPrefix(head, TEXTURE_2D_ARRAY, c.parameters, ColorArrayTail(c.source));
    var es := CreationCalls(handle, c).events;
    assert es[1] == head[1];
    if c.source.Images? {
      LayerUploadsIndexed(c.level, c.source.ids, c.imageType);
      forall i | 0 <= i < |c.source.ids|
        ensures es[2 + i] == TexSubImage3D(TEXTURE_2D_ARRAY, c.level, i, c.source.ids[i], RGBA, c.imageType)
      {
        assert es[2 + i] == head[2 + i];
      }
    }
  }

  /** The depth array's built-in parameters come first, so a caller's entry
   *  for a parameter overrides them, and the built-in value stands otherwise. */
  lemma DepthArrayCallerWins(handle: nat, layers: LayerCount, width: JsValue, height: JsValue,
                             entries: seq<(int, int)>, pname: int)
    ensures var es := DepthArrayCalls(handle, layers, width, height, Params(entries)).events;
      LastParameter(es, TEXTURE_2D_ARRAY, pname)
        == if LastEntry(entries, pname).Some? then LastEntry(entries, pname) else LastEntry(DepthArrayParameters, pname)
  {
    var t := TEXTURE_2D_ARRAY;
    var head := [BindTexture(t, Some(handle)), TexImage3D(t, Num(0), DepthFormat, width, height, layers, Num(UNSIGNED_INT))];
    var tail := [BindTexture(t, None)];
    var b := ParameterCalls(t, DepthArrayParameters);
    var u := ParameterCalls(t, entries);
    assert DepthArrayCalls(handle, layers, width, height, Params(entries)).events == head + (b + u) + tail;
    LastParameterAppend(head + (b + u), tail, t, pname);
    assert LastParameter(tail, t, pname) == None;
    LastParameterAppend(head, b + u, t, pname);
    CallerParametersWin(t, DepthArrayParameters, entries, pname);
    assert LastParameter(head, t, pname) == None;
  }

  // ---------------------------------------------------------------- creator methods

  /** The end of every creator: the loop over the caller's parameters (unless
   *  `Object.entries` throws) and the calls after it. */
  method FinishCreator(ctx: Context, target: int, parameters: JsValue, tail: seq<Event>) returns (r: Outcome)
    requires ctx.Valid() && Neutral(tail)
    modifies ctx
    ensures ctx.Valid() && ctx.state == old(ctx.state)
    ensures var c := Creator([], target, parameters, tail);
      ctx.log == old(ctx.log) + c.events && r == c.outcome
  {
    var entries := Entries(parameters);
    if entries.Err? {
      return Fail(entries.error);
    }
    SetParameters(ctx, target, entries.value);
    ctx.IssueAll(tail);
    ReplayNeutral(old(ctx.state), tail);
    Seqs.AppendAssoc(old(ctx.log), ParameterCalls(target, entries.value), tail);
    assert [] + ParameterCalls(target, entries.value) + tail == ParameterCalls(target, entries.value) + tail;
    r := Done;
  }

  /** A creator's calls are its head followed by the calls after the head. */
  lemma CreatorSplit(start: seq<Event>, head: seq<Event>, target: int, parameters: JsValue, tail: seq<Event>)
    ensures start + head + Creator([], target, parameters, tail).events == start + Creator(head, target, parameters, tail).events
    ensures Creator([], target, parameters, tail).outcome == Creator(head, target, parameters, tail).outcome
  {
    if Entries(parameters).Ok? {
      var p := ParameterCalls(target, Entries(parameters).value);
      assert [] + p + tail == p + tail;
      Seqs.AppendAssoc(head, p, tail);
      Seqs.AppendAssoc(start, head, p + tail);
    } else {
      assert head + [] == head;
    }
  }

  lemma Texture2DNeutral(handle: nat, formats: TexFormat, image: JsValue, level: JsValue, width: JsValue, height: JsValue, imageType: JsValue)
    ensures Neutral([BindTexture(TEXTURE_2D, Some(handle)), Upload2D(formats, image, level, width, height, imageType)])
    ensures Neutral(Texture2DTail)
  {
    var upload := Upload2D(formats, image, level, width, height, imageType);
    assert upload.TexImage2D?;
    var head := [BindTexture(TEXTURE_2D, Some(handle)), upload];
    assert forall i :: 0 <= i < |head| ==> head[i] == BindTexture(TEXTURE_2D, Some(handle)) || head[i] == upload;
  }

  lemma ColorArrayTailNeutral(images: JsValue)
    ensures Neutral(ColorArrayTail(images))
  {
  }

  /** A creator whose calls before the parameters involve no loop. */
  method RunCreator(ctx: Context, head: seq<Event>, target: int, parameters: JsValue, tail: seq<Event>) returns (r: Outcome)
    requires ctx.Valid() && Neutral(head) && Neutral(tail)
    modifies ctx
    ensures ctx.Valid() && ctx.state == old(ctx.state)
    ensures var c := Creator(head, target, parameters, tail);
      ctx.log == old(ctx.log) + c.events && r == c.outcome
  {
    ctx.IssueAll(head);
    ReplayNeutral(old(ctx.state), head);
    r := FinishCreator(ctx, target, parameters, tail);
    CreatorSplit(old(ctx.log), head, target, parameters, tail);
  }

  /** `create_depth_array_texture`. */
  method CreateDepthArrayTexture(ctx: Context, handle: nat, layers: LayerCount, width: JsValue, height: JsValue, parameters: JsValue)
    returns (r: Outcome)
    requires ctx.Valid()
    modifies ctx
    ensures ctx.Valid() && ctx.state == old(ctx.state)
    ensures var c := DepthArrayCalls(handle, layers, width, height, parameters);
      ctx.log == old(ctx.log) + c.events && r == c.outcome
  {
    DepthArrayHeadOnTarget(handle, layers, width, height);
    OnTargetNeutral(DepthArrayHead(handle, layers, width, height), TEXTURE_2D_ARRAY);
    r := RunCreator(ctx, DepthArrayHead(handle, layers, width, height), TEXTURE_2D_ARRAY, parameters, [BindTexture(TEXTURE_2D_ARRAY, None)]);
  }

  /** `create_color_texture`. */
  method CreateColorTexture(ctx: Context, handle: nat, image: JsValue, width: JsValue, height: JsValue, imageType: JsValue,
                            level: JsValue, parameters: JsValue)
    returns (r: Outcome)
    requires ctx.Valid()
    modifies ctx
    ensures ctx.Valid() && ctx.state == old(ctx.state)
    ensures var c := Texture2DCalls(handle, ColorFormat, image, width, height, imageType, level, parameters);
      ctx.log == old(ctx.log) + c.events && r == c.outcome
  {
    var head := [BindTexture(TEXTURE_2D, Some(handle)), Upload2D(ColorFormat, image, level, width, height, imageType)];
    Texture2DNeutral(handle, ColorFormat, image, level, width, height, imageType);
    r := RunCreator(ctx, head, TEXTURE_2D, parameters, Texture2DTail);
  }

  /** `create_depth_texture`: as the colour one, with the depth formats and
   *  always at level 0. */
  method CreateDepthTexture(ctx: Context, handle: nat, image: JsValue, width: JsValue, height: JsValue, imageType: JsValue,
                            parameters: JsValue)
    returns (r: Outcome)
    requires ctx.Valid()
    modifies ctx
    ensures ctx.Valid() && ctx.state == old(ctx.state)
    ensures var c := Texture2DCalls(handle, DepthFormat, image, width, height, imageType, Num(0), parameters);
      ctx.log == old(ctx.log) + c.events && r == c.outcome
  {
    var head := [BindTexture(TEXTURE_2D, Some(handle)), Upload2D(DepthFormat, image, Num(0), width, height, imageType)];
    Texture2DNeutral(handle, DepthFormat, image, Num(0), width, height, imageType);
    r := RunCreator(ctx, head, TEXTURE_2D, parameters, Texture2DTail);
  }

  /** `create_color_array_texture`. */
  method CreateColorArrayTexture(ctx: Context, handle: nat, images: JsValue, width: JsValue, height: JsValue, imageType: JsValue,
                                 level: JsValue, parameters: JsValue)
    returns (r: Outcome)
    requires ctx.Valid()
    modifies ctx
    ensures ctx.Valid() && ctx.state == old(ctx.state)
    ensures var c := ColorArrayCalls(handle, images, width, height, imageType, level, parameters);
      ctx.log == old(ctx.log) + c.events && r == c.outcome
  {
    ColorArrayTailNeutral(images);
    ctx.Issue(BindTexture(TEXTURE_2D_ARRAY, Some(handle)));
    AllocateColorArray(ctx, images, width, height, imageType, level);
    ghost var head := [BindTexture(TEXTURE_2D_ARRAY, Some(handle))] + ColorArrayStorage(images, width, height, imageType, level);
    Seqs.AppendAssoc(old(ctx.log), [BindTexture(TEXTURE_2D_ARRAY, Some(handle))], ColorArrayStorage(images, width, height, imageType, level));
    r := FinishCreator(ctx, TEXTURE_2D_ARRAY, parameters, ColorArrayTail(images));
    CreatorSplit(old(ctx.log), head, TEXTURE_2D_ARRAY, parameters, ColorArrayTail(images));
  }

  /** The `texImage3D` of `create_color_array_texture`, and the uploads of an image list. */
  method AllocateColorArray(ctx: Context, images: JsValue, width: JsValue, height: JsValue, imageType: JsValue, level: JsValue)
    requires ctx.Valid()
    modifies ctx
    ensures ctx.Valid() && ctx.state == old(ctx.state)
    ensures ctx.log == old(ctx.log) + ColorArrayStorage(images, width, height, imageType, level)
  {
    if images.Images? {
      ctx.Issue(TexImage3D(TEXTURE_2D_ARRAY, level, ColorFormat, width, height, Layers(|images.ids|), imageType));
      UploadLayers(ctx, level, images.ids, imageType);
      Seqs.AppendAssoc(old(ctx.log), [TexImage3D(TEXTURE_2D_ARRAY, level, ColorFormat, width, height, Layers(|images.ids|), imageType)],
                       LayerUploads(level, images.ids, imageType));
    } else {
      ctx.Issue(TexImage3D(TEXTURE_2D_ARRAY, level, ColorFormat, width, height, MaxLayers(images), imageType));
    }
  }

  /** `create_texture`. */
  method CreateTexture(ctx: Context, handle: nat, c: Creation) returns (r: Outcome)
    requires ctx.Valid()
    modifies ctx
    ensures ctx.Valid() && ctx.state == old(ctx.state)
    ensures ctx.log == old(ctx.log) + CreationCalls(handle, c).events && r == CreationCalls(handle, c).outcome
  {
    match c.kind
    case None =>
      r := Done;
    case Some(Color) =>
      r := CreateColorTexture(ctx, handle, c.source, c.width, c.height, c.imageType, c.level, c.parameters);
    case Some(Depth) =>
      r := CreateDepthTexture(ctx, handle, c.source, c.width, c.height, c.imageType, c.parameters);
    case Some(ColorArray) =>
      r := CreateColorArrayTexture(ctx, handle, c.source, c.width, c.height, c.imageType, c.level, c.parameters);
    case Some(DepthArray) =>
      r := CreateDepthArrayTexture(ctx, handle, MaxLayers(c.source), c.width, c.height, c.parameters);
  }

  // ---------------------------------------------------------------- the Texture constructor

  /** The constructor's arguments after `gm` and `name`. */
  datatype TextureArgs = TextureArgs(arg1: JsValue, arg2: JsValue, arg3: JsValue, arg4: JsValue,
                                     arg5: JsValue, arg6: JsValue, arg7: JsValue)

  /** `v === undefined ? d : v`, and a default parameter value. */
  function OrDefault(v: JsValue, d: JsValue): (r: JsValue)
    ensures v != Undefined ==> r == v
    ensures v == Undefined ==> r == d
  {
    if v == Undefined then d else v
  }

  /** The blank overload: two numbers and a texture type. */
  predicate BlankShape(a: TextureArgs)
  {
    a.arg1.Num? && a.arg2.Num? && TypeOf(a.arg3).Some?
  }

  /** The mip level of the single-image overload, as written: `arg3` (the
   *  parameter object) is passed whenever `arg4` is given. */
  function ImageLevelAsWritten(a: TextureArgs): JsValue
  {
    if a.arg4 == Undefined then Num(0) else a.arg3
  }

  /** ... and as intended: `arg4`, or 0. */
  function ImageLevel(a: TextureArgs): JsValue
  {
    OrDefault(a.arg4, Num(0))
  }

  /** The constructor's choice among its overloads, and what it hands
   *  `create_texture`, with `singleLevel` the mip level of the single-image
   *  overload. */
  function ClassifyWith(a: TextureArgs, singleLevel: JsValue): Result<Creation>
  {
    if BlankShape(a) then
      var t := TypeOf(a.arg3).value;
      var fallback := if t == Depth then UNSIGNED_INT else UNSIGNED_BYTE;
      Ok(Creation(Null, Some(t), if Truthy(a.arg4) then a.arg4 else Params([]), Num(0),
                  if Truthy(a.arg5) then a.arg5 else Num(fallback), a.arg1, a.arg2))
    else if a.arg1.Num? then
      var t := TypeOf(a.arg4);
      if t != Some(ColorArray) && t != Some(DepthArray) then Err(InvalidTextureType)
      else Ok(Creation(a.arg1, t, OrDefault(a.arg5, Params([])), OrDefault(a.arg6, Num(0)),
                       OrDefault(a.arg7, Num(UNSIGNED_BYTE)), a.arg2, a.arg3))
    else if a.arg1.Images? then
      if TypeOf(a.arg2) != Some(ColorArray) then Err(InvalidTextureType)
      else Ok(Creation(a.arg1, Some(ColorArray), OrDefault(a.arg3, Params([])), OrDefault(a.arg4, Num(0)),
                       OrDefault(a.arg5, Num(UNSIGNED_BYTE)), Num(0), Num(0)))
    else
      Ok(Creation(a.arg1, TypeOf(a.arg2), OrDefault(a.arg3, Params([])), singleLevel,
                  OrDefault(a.arg5, Num(UNSIGNED_BYTE)), Num(0), Num(0)))
  }

  /** The constructor as written. */
  function Classify(a: TextureArgs): Result<Creation>
  {
    ClassifyWith(a, ImageLevelAsWritten(a))
  }

  /** The constructor with the single-image level read from `arg4`. */
  function ClassifyIntended(a: TextureArgs): Result<Creation>
  {
    ClassifyWith(a, ImageLevel(a))
  }

  /** Passing a mip level to the single-image overload hands its parameter
   *  object to `texImage2D` as the level, where the intended level is the one passed. */
  lemma ImageLevelAsWrittenMisses(image: nat, entries: seq<(int, int)>, level: int)
    ensures var a := TextureArgs(Image(image), Str("COLOR"), Params(entries), Num(level), Undefined, Undefined, Undefined);
      && Classify(a).Ok? && Classify(a).value.level == Params(entries) && Classify(a).value.level != Num(level)
      && ClassifyIntended(a).Ok? && ClassifyIntended(a).value.level == Num(level)
  {
  }

  /** The blank overload allocates at level 0 with no image; its image type is
   *  the one passed, or UNSIGNED_INT for a depth texture and UNSIGNED_BYTE for
   *  the others. */
  lemma BlankDefaults(a: TextureArgs)
    requires BlankShape(a)
    ensures var t := TypeOf(a.arg3).value;
      && Classify(a).Ok?
      && Classify(a).value.kind == Some(t)
      && Classify(a).value.source == Null && Classify(a).value.level == Num(0)
      && Classify(a).value.width == a.arg1 && Classify(a).value.height == a.arg2
      && (Truthy(a.arg5) ==> Classify(a).value.imageType == a.arg5)
      && (!Truthy(a.arg5) && t == Depth ==> Classify(a).value.imageType == Num(5125))
      && (!Truthy(a.arg5) && t != Depth ==> Classify(a).value.imageType == Num(5121))
  {
  }

  /** The count overload throws unless the type is an array type. */
  lemma CountTypeChecked(a: TextureArgs)
    requires a.arg1.Num? && !BlankShape(a)
    ensures Classify(a).Ok? <==> a.arg4 == Str("COLOR_ARRAY") || a.arg4 == Str("DEPTH_ARRAY")
    ensures Classify(a).Err? ==> Classify(a).error == InvalidTextureType
    ensures Classify(a).Ok? ==> Classify(a).value.source == a.arg1 && Classify(a).value.kind == TypeOf(a.arg4)
  {
    TypeOfName(ColorArray);
    TypeOfName(DepthArray);
  }

  /** The image-list overload throws unless the type is COLOR_ARRAY. */
  lemma ImagesTypeChecked(a: TextureArgs)
    requires a.arg1.Images?
    ensures Classify(a).Ok? <==> a.arg2 == Str("COLOR_ARRAY")
    ensures Classify(a).Err? ==> Classify(a).error == InvalidTextureType
    ensures Classify(a).Ok? ==> Classify(a).value.kind == Some(ColorArray) && Classify(a).value.source == a.arg1
  {
    TypeOfName(ColorArray);
  }

  /** The single-image overload never throws itself: its type picks the creator,
   *  or none when it is no type; as written its level is 0 when no level is
   *  passed and the parameter argument when one is. */
  lemma ImageShape(a: TextureArgs)
    requires !a.arg1.Num? && !a.arg1.Images?
    ensures Classify(a).Ok?
    ensures Classify(a).value.kind == TypeOf(a.arg2) && Classify(a).value.source == a.arg1
    ensures Classify(a).value.level == (if a.arg4 == Undefined then Num(0) else a.arg3)
  {
  }

  /** With the correction the single-image level is the one passed, or 0, and
   *  every other overload is unchanged. */
  lemma ImageShapeIntended(a: TextureArgs)
    ensures !a.arg1.Num? && !a.arg1.Images? ==>
      && ClassifyIntended(a).Ok?
      && ClassifyIntended(a).value == Classify(a).value.(level := if a.arg4 == Undefined then Num(0) else a.arg4)
    ensures a.arg1.Num? || a.arg1.Images? ==> ClassifyIntended(a) == Classify(a)
  {
  }

  class Texture {
    const name: string
    const textureType: Option<TextureType>   // None: a `texture_type` that is no member
    const webglTexture: Option<nat>          // None: `create_texture` returned `undefined`

    constructor (name: string, textureType: Option<TextureType>, webglTexture: Option<nat>)
      ensures this.name == name && this.textureType == textureType && this.webglTexture == webglTexture
    {
      this.name := name;
      this.textureType := textureType;
      this.webglTexture := webglTexture;
    }
  }

  /** `new Texture(gm, name, ...args)`; `handle` is what `createTexture` returns. */
  method NewTexture(ctx: Context, name: string, handle: nat, a: TextureArgs) returns (r: Result<Texture>)
    requires ctx.Valid()
    modifies ctx
    ensures ctx.Valid() && ctx.state == old(ctx.state)
    ensures Classify(a).Err? ==> r == Err(Classify(a).error) && ctx.log == old(ctx.log)
    ensures Classify(a).Ok? ==>
      var c := Classify(a).value;
      var calls := CreationCalls(handle, c);
      && ctx.log == old(ctx.log) + calls.events
      && (r.Ok? <==> calls.outcome == Done)
      && (r.Err? ==> r.error == calls.outcome.error)
      && (r.Ok? ==> fresh(r.value) && r.value.name == name && r.value.textureType == c.kind
                    && r.value.webglTexture == (if c.kind.Some? then Some(handle) else None))
  {
    var plan := Classify(a);
    if plan.Err? {
      return Err(plan.error);
    }
    var c := plan.value;
    var out := CreateTexture(ctx, handle, c);
    if out.Fail? {
      return Err(out.error);
    }
    var t := new Texture(name, c.kind, if c.kind.Some? then Some(handle) else None);
    r := Ok(t);
  }

  // ---------------------------------------------------------------- cube maps

  const CubeDepthParameters: seq<(int, int)> :=
    [(TEXTURE_MAG_FILTER, NEAREST), (TEXTURE_MIN_FILTER, NEAREST),
     (TEXTURE_WRAP_S, CLAMP_TO_EDGE), (TEXTURE_WRAP_T, CLAMP_TO_EDGE), (TEXTURE_WRAP_R, CLAMP_TO_EDGE)]

  const CubeImageParameters: seq<(int, int)> :=
    [(TEXTURE_MIN_FILTER, LINEAR_MIPMAP_LINEAR), (TEXTURE_MAG_FILTER, LINEAR),
     (TEXTURE_WRAP_S, CLAMP_TO_EDGE), (TEXTURE_WRAP_T, CLAMP_TO_EDGE), (TEXTURE_WRAP_R, CLAMP_TO_EDGE)]

  /** The blank allocations of the first `n` faces, in the order +X, -X, +Y,
   *  -Y, +Z, -Z (consecutive enumerants from TEXTURE_CUBE_MAP_POSITIVE_X). */
  function FaceAllocations(size: JsValue, level: JsValue, imageType: JsValue, n: nat): (es: seq<Event>)
    ensures |es| == n
  {
    if n == 0 then []
    else FaceAllocations(size, level, imageType, n - 1)
           + [TexImage2D(TEXTURE_CUBE_MAP_POSITIVE_X + n - 1, level, DepthFormat, size, size, Null, imageType)]
  }

  /** The uploads of the first `n` faces, face `i` from `images[i]`. */
  function FaceUploads(images: seq<JsValue>, level: JsValue, imageType: JsValue, n: nat): (es: seq<Event>)
    requires n <= |images|
    ensures |es| == n
  {
    if n == 0 then []
    else FaceUploads(images, level, imageType, n - 1)
           + [TexImage2D(TEXTURE_CUBE_MAP_POSITIVE_X + n - 1, level, ColorFormat, Undefined, Undefined, images[n - 1], imageType)]
  }

  lemma {:induction false} FaceAllocationsIndexed(size: JsValue, level: JsValue, imageType: JsValue, n: nat)
    ensures forall i :: 0 <= i < n ==>
      FaceAllocations(size, level, imageType, n)[i] == TexImage2D(TEXTURE_CUBE_MAP_POSITIVE_X + i, level, DepthFormat, size, size, Null, imageType)
  {
    if n > 0 {
      FaceAllocationsIndexed(size, level, imageType, n - 1);
    }
  }

  lemma {:induction false} FaceUploadsIndexed(images: seq<JsValue>, level: JsValue, imageType: JsValue, n: nat)
    requires n <= |images|
    ensures forall i :: 0 <= i < n ==>
      FaceUploads(images, level, imageType, n)[i] == TexImage2D(TEXTURE_CUBE_MAP_POSITIVE_X + i, level, ColorFormat, Undefined, Undefined, images[i], imageType)
  {
    if n > 0 {
      FaceUploadsIndexed(images, level, imageType, n - 1);
    }
  }

  /** The constructor's arguments after `gm`. */
  datatype CubeArgs = CubeArgs(arg1: JsValue, arg2: JsValue, arg3: JsValue, arg4: JsValue, arg5: JsValue,
                               arg6: JsValue, arg7: JsValue, arg8: JsValue, arg9: JsValue, arg10: JsValue)

  /** The six images in upload order: right, left, top, bottom, front, back
   *  (the defaults of `arg3`..`arg5` apply to them as to any argument). */
  function FaceImages(a: CubeArgs): (images: seq<JsValue>)
    ensures |images| == 6
  {
    [a.arg7, a.arg6, a.arg2, OrDefault(a.arg3, Num(0)), OrDefault(a.arg4, Num(UNSIGNED_INT)), OrDefault(a.arg5, Params([]))]
  }

  function CubeDepthHead(handle: nat, size: JsValue, level: JsValue, imageType: JsValue): seq<Event>
  {
    [BindTexture(TEXTURE_CUBE_MAP, Some(handle))] + FaceAllocations(size, level, imageType, 6)
      + ParameterCalls(TEXTURE_CUBE_MAP, CubeDepthParameters)
  }

  function CubeImageHead(handle: nat, images: seq<JsValue>, level: JsValue, imageType: JsValue): seq<Event>
    requires |images| == 6
  {
    [BindTexture(TEXTURE_CUBE_MAP, Some(handle))] + FaceUploads(images, level, imageType, 6)
      + [GenerateMipmap(TEXTURE_CUBE_MAP)] + ParameterCalls(TEXTURE_CUBE_MAP, CubeImageParameters)
  }

  /** The calls of the `CubeMapTexture` constructor: the depth path when `arg6`
   *  is undefined, the six-image path otherwise. Neither unbinds the texture. */
  function CubeMapCalls(handle: nat, a: CubeArgs): Calls
  {
    if a.arg6 == Undefined then
      Creator(CubeDepthHead(handle, a.arg1, OrDefault(a.arg3, Num(0)), OrDefault(a.arg4, Num(UNSIGNED_INT))),
              TEXTURE_CUBE_MAP, OrDefault(a.arg5, Params([])), [])
    else
      Creator(CubeImageHead(handle, FaceImages(a), a.arg9, OrDefault(a.arg10, Num(UNSIGNED_BYTE))),
              TEXTURE_CUBE_MAP, a.arg8, [])
  }

  /** The depth path allocates all six faces, +X to -Z, at the given size. */
  lemma CubeDepthAllocatesAllFaces(handle: nat, a: CubeArgs)
    requires a.arg6 == Undefined
    ensures var es := CubeMapCalls(handle, a).events;
      && |es| >= 7 && es[0] == BindTexture(TEXTURE_CUBE_MAP, Some(handle))
      && forall i :: 1 <= i < 7 ==>
           es[i] == TexImage2D(TEXTURE_CUBE_MAP_POSITIVE_X + i - 1, OrDefault(a.arg3, Num(0)), DepthFormat, a.arg1, a.arg1, Null,
                               OrDefault(a.arg4, Num(UNSIGNED_INT)))
  {
    var level, imageType := OrDefault(a.arg3, Num(0)), OrDefault(a.arg4, Num(UNSIGNED_INT));
    var head := CubeDepthHead(handle, a.arg1, level, imageType);
    CreatorPrefix(head, TEXTURE_CUBE_MAP, OrDefault(a.arg5, Params([])), []);
    FaceAllocationsIndexed(a.arg1, level, imageType, 6);
    var es := CubeMapCalls(handle, a).events;
    assert es[..|head|] == head;
    forall i | 1 <= i < 7
      ensures es[i] == TexImage2D(TEXTURE_CUBE_MAP_POSITIVE_X + i - 1, level, DepthFormat, a.arg1, a.arg1, Null, imageType)
    {
      assert es[i] == head[i];
    }
  }

  /** The image path uploads right, left, top, bottom, front and back to +X,
   *  -X, +Y, -Y, +Z and -Z, in that order. */
  lemma CubeImageFaceOrder(handle: nat, a: CubeArgs)
    requires a.arg6 != Undefined
    ensures var es := CubeMapCalls(handle, a).events;
      && |es| >= 7
      && forall i :: 1 <= i < 7 ==>
           es[i] == TexImage2D(TEXTURE_CUBE_MAP_POSITIVE_X + i - 1, a.arg9, ColorFormat, Undefined, Undefined, FaceImages(a)[i - 1],
                               OrDefault(a.arg10, Num(UNSIGNED_BYTE)))
  {
    var level, imageType := a.arg9, OrDefault(a.arg10, Num(UNSIGNED_BYTE));
    var head := CubeImageHead(handle, FaceImages(a), level, imageType);
    CreatorPrefix(head, TEXTURE_CUBE_MAP, a.arg8, []);
    FaceUploadsIndexed(FaceImages(a), level, imageType, 6);
    var es := CubeMapCalls(handle, a).events;
    assert es[..|head|] == head;
    forall i | 1 <= i < 7
      ensures es[i] == TexImage2D(TEXTURE_CUBE_MAP_POSITIVE_X + i - 1, level, ColorFormat, Undefined, Undefined, FaceImages(a)[i - 1], imageType)
    {
      assert es[i] == head[i];
    }
  }

  /** The `for` loop of the depth path. */
  method AllocateFaces(ctx: Context, size: JsValue, level: JsValue, imageType: JsValue)
    requires ctx.Valid()
    modifies ctx
    ensures ctx.Valid() && ctx.state == old(ctx.state)
    ensures ctx.log == old(ctx.log) + FaceAllocations(size, level, imageType, 6)
  {
    var i := 0;
    while i < 6
      invariant 0 <= i <= 6
      invariant ctx.Valid() && ctx.state == old(ctx.state)
      invariant ctx.log == old(ctx.log) + FaceAllocations(size, level, imageType, i)
    {
      ctx.Issue(TexImage2D(TEXTURE_CUBE_MAP_POSITIVE_X + i, level, DepthFormat, size, size, Null, imageType));
      i := i + 1;
    }
  }

  /** The `forEach` over the face targets of the image path. */
  method UploadFaces(ctx: Context, images: seq<JsValue>, level: JsValue, imageType: JsValue)
    requires ctx.Valid() && |images| == 6
    modifies ctx
    ensures ctx.Valid() && ctx.state == old(ctx.state)
    ensures ctx.log == old(ctx.log) + FaceUploads(images, level, imageType, 6)
  {
    var i := 0;
    while i < 6
      invariant 0 <= i <= 6
      invariant ctx.Valid() && ctx.state == old(ctx.state)
      invariant ctx.log == old(ctx.log) + FaceUploads(images, level, imageType, i)
    {
      var upload := TexImage2D(TEXTURE_CUBE_MAP_POSITIVE_X + i, level, ColorFormat, Undefined, Undefined, images[i], imageType);
      assert Inert(upload);
      ghost var done := FaceUploads(images, level, imageType, i);
      ctx.Issue(upload);
      assert FaceUploads(images, level, imageType, i + 1) == done + [upload];
      Seqs.AppendAssoc(old(ctx.log), done, [upload]);
      i := i + 1;
    }
  }

  class CubeMapTexture {
    const webglTexture: nat

    constructor (webglTexture: nat)
      ensures this.webglTexture == webglTexture
    {
      this.webglTexture := webglTexture;
    }
  }

  /** The depth path up to the caller's parameters. */
  method StartCubeDepth(ctx: Context, handle: nat, size: JsValue, level: JsValue, imageType: JsValue)
    requires ctx.Valid()
    modifies ctx
    ensures ctx.Valid() && ctx.state == old(ctx.state)
    ensures ctx.log == old(ctx.log) + CubeDepthHead(handle, size, level, imageType)
  {
    ctx.Issue(BindTexture(TEXTURE_CUBE_MAP, Some(handle)));
    AllocateFaces(ctx, size, level, imageType);
    SetParameters(ctx, TEXTURE_CUBE_MAP, CubeDepthParameters);
    var b, f, p := [BindTexture(TEXTURE_CUBE_MAP, Some(handle))], FaceAllocations(size, level, imageType, 6),
                   ParameterCalls(TEXTURE_CUBE_MAP, CubeDepthParameters);
    Seqs.AppendAssoc(old(ctx.log), b, f);
    Seqs.AppendAssoc(old(ctx.log), b + f, p);
  }

  /** The image path up to the caller's parameters. */
  method StartCubeImages(ctx: Context, handle: nat, images: seq<JsValue>, level: JsValue, imageType: JsValue)
    requires ctx.Valid() && |images| == 6
    modifies ctx
    ensures ctx.Valid() && ctx.state == old(ctx.state)
    ensures ctx.log == old(ctx.log) + CubeImageHead(handle, images, level, imageType)
  {
    ctx.Issue(BindTexture(TEXTURE_CUBE_MAP, Some(handle)));
    UploadFaces(ctx, images, level, imageType);
    ctx.Issue(GenerateMipmap(TEXTURE_CUBE_MAP));
    SetParameters(ctx, TEXTURE_CUBE_MAP, CubeImageParameters);
    var b, f, g, p := [BindTexture(TEXTURE_CUBE_MAP, Some(handle))], FaceUploads(images, level, imageType, 6),
                      [GenerateMipmap(TEXTURE_CUBE_MAP)], ParameterCalls(TEXTURE_CUBE_MAP, CubeImageParameters);
    Seqs.AppendAssoc(old(ctx.log), b, f);
    Seqs.AppendAssoc(old(ctx.log), b + f, g);
    Seqs.AppendAssoc(old(ctx.log), b + f + g, p);
  }

  /** `new CubeMapTexture(gm, ...args)`; `handle` is what `createTexture` returns. */
  method NewCubeMapTexture(ctx: Context, handle: nat, a: CubeArgs) returns (r: Result<CubeMapTexture>)
    requires ctx.Valid()
    modifies ctx
    ensures ctx.Valid() && ctx.state == old(ctx.state)
    ensures var c := CubeMapCalls(handle, a);
      && ctx.log == old(ctx.log) + c.events
      && (r.Ok? <==> c.outcome == Done)
      && (r.Err? ==> r.error == c.outcome.error)
      && (r.Ok? ==> fresh(r.value) && r.value.webglTexture == handle)
  {
    var out;
    if a.arg6 == Undefined {
      var level, imageType := OrDefault(a.arg3, Num(0)), OrDefault(a.arg4, Num(UNSIGNED_INT));
      StartCubeDepth(ctx, handle, a.arg1, level, imageType);
      out := FinishCreator(ctx, TEXTURE_CUBE_MAP, OrDefault(a.arg5, Params([])), []);
      CreatorSplit(old(ctx.log), CubeDepthHead(handle, a.arg1, level, imageType), TEXTURE_CUBE_MAP, OrDefault(a.arg5, Params([])), []);
    } else {
      var level, imageType := a.arg9, OrDefault(a.arg10, Num(UNSIGNED_BYTE));
      StartCubeImages(ctx, handle, FaceImages(a), level, imageType);
      out := FinishCreator(ctx, TEXTURE_CUBE_MAP, a.arg8, []);
      CreatorSplit(old(ctx.log), CubeImageHead(handle, FaceImages(a), level, imageType), TEXTURE_CUBE_MAP, a.arg8, []);
    }
    if out.Fail? {
      return Err(out.error);
    }
    var t := new CubeMapTexture(handle);
    r := Ok(t);
  }
}
