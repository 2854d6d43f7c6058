/** Framebuffer objects (src/graphics/framebuffer.ts): the attachment bookkeeping done while a framebuffer is built (colour
 *  attachment numbering, depth/colour usage, the read source, the info map),
 *  and the bind-if-not-bound bracket of `set_attachment_texture_index`,
 *  `clear` and `set_attachment_cube_map_texture_face`. */
module Framebuffers {
  import opened Wrappers
  import opened Maths
  import opened Gl
  import Seqs
  import opened DrawFlags

  // ---------------------------------------------------------------- attachments

  datatype AttachmentType =
    | TextureColor | TextureDepth | TextureStencil | TextureDepthStencil
    | TextureArrayColor | TextureArrayDepth | TextureArrayStencil | TextureArrayDepthStencil
    | CubemapTextureColor | CubemapTextureDepth | CubemapTextureStencil | CubemapTextureDepthStencil

  /** The kinds `create_attachment` has a case for. */
  predicate Supported(t: AttachmentType)
  {
    t.TextureColor? || t.TextureDepth? || t.TextureDepthStencil? || t.TextureArrayColor?
      || t.TextureArrayDepth? || t.CubemapTextureColor? || t.CubemapTextureDepth?
  }

  /** The kinds that take a colour attachment number. */
  predicate IsColor(t: AttachmentType)
  {
    t.TextureColor? || t.TextureArrayColor? || t.CubemapTextureColor?
  }

  /** The supported kinds that set `use_depth_buffer`. */
  predicate IsDepth(t: AttachmentType)
  {
    t.TextureDepth? || t.TextureDepthStencil? || t.TextureArrayDepth? || t.CubemapTextureDepth?
  }

  predicate IsArray(t: AttachmentType)
  {
    t.TextureArrayColor? || t.TextureArrayDepth?
  }

  /** The texture object of an attachment: a `Texture` (2D or array) or a
   *  `CubeMapTexture`, each known by its WebGL handle. Neither class declares
   *  or assigns a `width`, `height` or `size` property. */
  datatype Surface =
    | Flat(handle: nat)
    | Cube(handle: nat)

  datatype AttachmentInfo = AttachmentInfo(
    name: string,
    kind: AttachmentType,
    texture: Surface,
    textureArrayIndex: Option<int>,
    mipmapLevel: Option<int>,
    textureParameters: Option<map<int, int>>,
    bufferSource: bool,
    colorAttachmentNumber: Option<int>)

  /** `attachment.mipmap_level === undefined ? 0 : attachment.mipmap_level` */
  function Level(info: AttachmentInfo): JsValue
  {
    Num(if info.mipmapLevel.Some? then info.mipmapLevel.value else 0)
  }

  /** The four parameters each supported `create_attachment_*` writes into the
   *  attachment's parameter object. */
  function DefaultParameters(t: AttachmentType): map<int, int>
  {
    var filter := if t.TextureColor? || t.TextureArrayColor? then LINEAR else NEAREST;
    map[TEXTURE_MIN_FILTER := filter, TEXTURE_MAG_FILTER := filter,
        TEXTURE_WRAP_S := CLAMP_TO_EDGE, TEXTURE_WRAP_T := CLAMP_TO_EDGE]
  }

  /** A supported attachment can be created; the arrays also need their index. */
  predicate Acceptable(info: AttachmentInfo)
  {
    Supported(info.kind) && (IsArray(info.kind) ==> info.textureArrayIndex.Some?)
  }

  /** The error `create_attachment` throws for an attachment it refuses. */
  function Rejection(info: AttachmentInfo): Error
  {
    if Supported(info.kind) then MissingTextureArrayIndex else UnsupportedAttachment
  }

  /** What building a framebuffer has accumulated: the fields of the object
   *  together with the constructor's local `attachment_numbers` list. */
  datatype Stage = Stage(
    colorCount: nat,
    useDepth: bool,
    useColor: bool,
    readSource: int,
    numbers: seq<int>,
    attachments: map<string, AttachmentInfo>,
    width: JsValue,
    height: JsValue)

  const Blank := Stage(0, false, false, 0, [], map[], Num(0), Num(0))

  /** Calls issued, the state reached, and whether the step threw. */
  datatype Step = Step(stage: Stage, events: seq<Event>, outcome: Outcome)

  /** The six `framebufferTexture2D` calls, one per cube face +X, -X, +Y, -Y, +Z, -Z. */
  function CubeFaceCalls(attachment: int, texture: nat, level: JsValue): (es: seq<Event>)
    ensures |es| == 6
    ensures forall i :: 0 <= i < 6 ==>
      es[i] == FramebufferTexture2D(attachment, TEXTURE_CUBE_MAP_POSITIVE_X + i, texture, level)
  {
    seq(6, i => FramebufferTexture2D(attachment, TEXTURE_CUBE_MAP_POSITIVE_X + i, texture, level))
  }

  /** The attachment as the map holds it afterwards: `create_attachment_*` wrote
   *  the number into it and its defaults into a parameter object it carries. */
  function Processed(colorCount: nat, info: AttachmentInfo): (p: AttachmentInfo)
    requires Acceptable(info)
  {
    var numbered := if IsColor(info.kind)
      then info.(colorAttachmentNumber := Some(COLOR_ATTACHMENT0 + colorCount))
      else info;
    if info.textureParameters.Some?
    then numbered.(textureParameters := Some(info.textureParameters.value + DefaultParameters(info.kind)))
    else numbered
  }

  function ColorStage(st: Stage, info: AttachmentInfo): Stage
  {
    var num := COLOR_ATTACHMENT0 + st.colorCount;
    st.(colorCount := st.colorCount + 1, useColor := true,
        readSource := if info.bufferSource then num else st.readSource,
        numbers := st.numbers + [num])
  }

  /** `create_attachment` and the `create_attachment_*` method it dispatches to. */
  function CreateEffect(st: Stage, info: AttachmentInfo): (s: Step)
    ensures s.outcome == Done <==> Acceptable(info)
    ensures s.outcome != Done ==> s == Step(st, [], Fail(Rejection(info)))
    ensures s.stage.attachments == st.attachments && s.stage.width == st.width && s.stage.height == st.height
  {
    var num := COLOR_ATTACHMENT0 + st.colorCount;
    var t := info.texture.handle;
    match info.kind
    case TextureDepth =>
      Step(st.(useDepth := true), [FramebufferTexture2D(DEPTH_ATTACHMENT, TEXTURE_2D, t, Level(info))], Done)
    case TextureDepthStencil =>
      Step(st.(useDepth := true), [FramebufferTexture2D(DEPTH_ATTACHMENT, TEXTURE_2D, t, Level(info))], Done)
    case TextureColor =>
      Step(ColorStage(st, info), [FramebufferTexture2D(num, TEXTURE_2D, t, Level(info))], Done)
    case TextureArrayColor =>
      if info.textureArrayIndex.None? then Step(st, [], Fail(MissingTextureArrayIndex))
      else Step(ColorStage(st, info), [FramebufferTextureLayer(num, t, Level(info), info.textureArrayIndex.value)], Done)
    case TextureArrayDepth =>
      if info.textureArrayIndex.None? then Step(st, [], Fail(MissingTextureArrayIndex))
      else Step(st.(useDepth := true), [FramebufferTextureLayer(DEPTH_ATTACHMENT, t, Num(0), info.textureArrayIndex.value)], Done)
    case CubemapTextureColor =>
      Step(ColorStage(st, info), CubeFaceCalls(num, t, Level(info)), Done)
    case CubemapTextureDepth =>
      Step(st.(useDepth := true), CubeFaceCalls(DEPTH_ATTACHMENT, t, Level(info)), Done)
    case _ => Step(st, [], Fail(UnsupportedAttachment))
  }

  /** What the constructor reads as the texture's size: `texture.width` and
   *  `texture.height` of a `Texture`, `texture.size` of a `CubeMapTexture`.
   *  None of these properties exists, so each read is `undefined`. */
  function TextureSize(s: Surface): JsValue
  {
    match s
    case Flat(_) => Undefined
    case Cube(_) => Undefined
  }

  /** One pass of the constructor's loop: create the attachment, file it under
   *  its name, and take the framebuffer's size from its texture. */
  function AttachEffect(st: Stage, info: AttachmentInfo): (s: Step)
    ensures s.outcome == Done <==> Acceptable(info)
  {
    var c := CreateEffect(st, info);
    if c.outcome != Done then c
    else Step(c.stage.(attachments := st.attachments[info.name := Processed(st.colorCount, info)],
                       width := TextureSize(info.texture), height := TextureSize(info.texture)),
              c.events, Done)
  }

  /** The whole loop over `attachment_infos`, stopping at the first throw. */
  function AttachAll(infos: seq<AttachmentInfo>): Step
  {
    if infos == [] then Step(Blank, [], Done)
    else
      var prev := AttachAll(infos[..|infos| - 1]);
      if prev.outcome != Done then prev
      else
        var s := AttachEffect(prev.stage, infos[|infos| - 1]);
        Step(s.stage, prev.events + s.events, s.outcome)
  }

  /** One more attachment on a prefix that went through. */
  lemma AttachAllSnoc(infos: seq<AttachmentInfo>, i: nat)
    requires i < |infos| && AttachAll(infos[..i]).outcome == Done
    ensures var s := AttachEffect(AttachAll(infos[..i]).stage, infos[i]);
      AttachAll(infos[..i + 1]) == Step(s.stage, AttachAll(infos[..i]).events + s.events, s.outcome)
  {
    assert infos[..i + 1][..i] == infos[..i];
  }

  /** How many of the attachments take a colour number. */
  function ColorCount(infos: seq<AttachmentInfo>): (n: nat)
    ensures n <= |infos|
  {
    if infos == [] then 0
    else ColorCount(infos[..|infos| - 1]) + (if IsColor(infos[|infos| - 1].kind) then 1 else 0)
  }

  /** What one accepted attachment adds to the stage. */
  lemma AttachStep(st: Stage, info: AttachmentInfo)
    requires Acceptable(info)
    ensures var s := AttachEffect(st, info).stage;
      && s.colorCount == st.colorCount + (if IsColor(info.kind) then 1 else 0)
      && s.numbers == st.numbers + (if IsColor(info.kind) then [COLOR_ATTACHMENT0 + st.colorCount] else [])
      && s.useColor == (st.useColor || IsColor(info.kind))
      && s.useDepth == (st.useDepth || IsDepth(info.kind))
      && s.readSource == (if IsColor(info.kind) && info.bufferSource then COLOR_ATTACHMENT0 + st.colorCount else st.readSource)
      && s.attachments == st.attachments[info.name := Processed(st.colorCount, info)]
  {
  }

  /** No attachment call binds or unbinds a framebuffer. */
  lemma AttachStepCalls(st: Stage, info: AttachmentInfo)
    ensures forall k :: 0 <= k < |AttachEffect(st, info).events| ==> !AttachEffect(st, info).events[k].BindFramebufferHandle?
  {
  }

  /** The constructor throws exactly when some attachment is refused. */
  lemma {:induction false} AttachAllOutcome(infos: seq<AttachmentInfo>)
    ensures AttachAll(infos).outcome == Done <==> forall i :: 0 <= i < |infos| ==> Acceptable(infos[i])
    decreases |infos|
  {
    if infos != [] {
      var init := infos[..|infos| - 1];
      AttachAllOutcome(init);
      assert forall i :: 0 <= i < |init| ==> init[i] == infos[i];
    }
  }

  /** It throws the error of the first refused attachment, having issued the
   *  calls of the attachments before it and nothing after. */
  lemma {:induction false} AttachAllStopsAtFirstRefusal(infos: seq<AttachmentInfo>, i: nat)
    requires i < |infos| && !Acceptable(infos[i])
    requires forall j :: 0 <= j < i ==> Acceptable(infos[j])
    ensures AttachAll(infos).outcome == Fail(Rejection(infos[i]))
    ensures AttachAll(infos).events == AttachAll(infos[..i]).events
    decreases |infos|
  {
    var init := infos[..|infos| - 1];
    if i == |infos| - 1 {
      assert init == infos[..i];
      AttachAllOutcome(init);
      assert forall j :: 0 <= j < |init| ==> init[j] == infos[j];
      assert AttachAll(init).outcome == Done;
    } else {
      assert forall j :: 0 <= j < |init| ==> init[j] == infos[j];
      assert init[..i] == infos[..i];
      AttachAllStopsAtFirstRefusal(init, i);
    }
  }

  /** A refusal right after a prefix that went through ends the loop there. */
  lemma AttachAllRefusedAt(infos: seq<AttachmentInfo>, i: nat)
    requires i < |infos| && AttachAll(infos[..i]).outcome == Done && !Acceptable(infos[i])
    ensures AttachAll(infos).outcome == Fail(Rejection(infos[i]))
    ensures AttachAll(infos).events == AttachAll(infos[..i]).events
  {
    AttachAllOutcome(infos[..i]);
    assert forall j :: 0 <= j < i ==> infos[..i][j] == infos[j];
    AttachAllStopsAtFirstRefusal(infos, i);
  }

  /** Colour attachments are numbered `COLOR_ATTACHMENT0 + k` in order, one per
   *  colour attachment, and the flags say which kinds occurred. */
  lemma AttachAllNumbering(infos: seq<AttachmentInfo>)
    requires AttachAll(infos).outcome == Done
    ensures var st := AttachAll(infos).stage;
      && st.colorCount == ColorCount(infos) == |st.numbers|
      && (forall k :: 0 <= k < |st.numbers| ==> st.numbers[k] == COLOR_ATTACHMENT0 + k)
      && (st.useColor <==> exists i :: 0 <= i < |infos| && IsColor(infos[i].kind))
      && (st.useDepth <==> exists i :: 0 <= i < |infos| && IsDepth(infos[i].kind))
  {
    AttachAllCount(infos);
    AttachAllFlags(infos);
  }

  lemma {:induction false} AttachAllCount(infos: seq<AttachmentInfo>)
    requires AttachAll(infos).outcome == Done
    ensures var st := AttachAll(infos).stage;
      && st.colorCount == ColorCount(infos) == |st.numbers|
      && (forall k :: 0 <= k < |st.numbers| ==> st.numbers[k] == COLOR_ATTACHMENT0 + k)
    decreases |infos|
  {
    if infos != [] {
      var n := |infos| - 1;
      AttachAllLast(infos);
      AttachAllCount(infos[..n]);
      AttachStep(AttachAll(infos[..n]).stage, infos[n]);
    }
  }

  lemma AttachAllFlags(infos: seq<AttachmentInfo>)
    requires AttachAll(infos).outcome == Done
    ensures var st := AttachAll(infos).stage;
      && (st.useColor <==> exists i :: 0 <= i < |infos| && IsColor(infos[i].kind))
      && (st.useDepth <==> exists i :: 0 <= i < |infos| && IsDepth(infos[i].kind))
  {
    AttachAllColorFlag(infos);
    AttachAllDepthFlag(infos);
  }

  lemma {:induction false} AttachAllColorFlag(infos: seq<AttachmentInfo>)
    requires AttachAll(infos).outcome == Done
    ensures AttachAll(infos).stage.useColor <==> exists i :: 0 <= i < |infos| && IsColor(infos[i].kind)
    decreases |infos|
  {
    if infos != [] {
      var n := |infos| - 1;
      var init := infos[..n];
      AttachAllLast(infos);
      AttachAllColorFlag(init);
      AttachStep(AttachAll(init).stage, infos[n]);
      if AttachAll(init).stage.useColor {
        var i :| 0 <= i < n && IsColor(init[i].kind);
        assert infos[i] == init[i];
      }
      if exists i :: 0 <= i < |infos| && IsColor(infos[i].kind) {
        var i :| 0 <= i < |infos| && IsColor(infos[i].kind);
        if i < n {
          assert init[i] == infos[i];
        }
      }
    }
  }

  lemma {:induction false} AttachAllDepthFlag(infos: seq<AttachmentInfo>)
    requires AttachAll(infos).outcome == Done
    ensures AttachAll(infos).stage.useDepth <==> exists i :: 0 <= i < |infos| && IsDepth(infos[i].kind)
    decreases |infos|
  {
    if infos != [] {
      var n := |infos| - 1;
      var init := infos[..n];
      AttachAllLast(infos);
      AttachAllDepthFlag(init);
      AttachStep(AttachAll(init).stage, infos[n]);
      if AttachAll(init).stage.useDepth {
        var i :| 0 <= i < n && IsDepth(init[i].kind);
        assert infos[i] == init[i];
      }
      if exists i :: 0 <= i < |infos| && IsDepth(infos[i].kind) {
        var i :| 0 <= i < |infos| && IsDepth(infos[i].kind);
        if i < n {
          assert init[i] == infos[i];
        }
      }
    }
  }



  /** The read source is `NONE` (0) unless a colour attachment asked to be the
   *  buffer source, and then it is one of the drawn colour attachments. */
  lemma AttachAllReadSource(infos: seq<AttachmentInfo>)
    requires AttachAll(infos).outcome == Done
    ensures var st := AttachAll(infos).stage;
      && (st.readSource == NONE <==> forall i :: 0 <= i < |infos| ==> !(IsColor(infos[i].kind) && infos[i].bufferSource))
      && (st.readSource != NONE ==> st.readSource in st.numbers)
  {
    ReadSourceNone(infos);
    ReadSourceDrawn(infos);
  }

  /** The last step of a loop that went through. */
  lemma AttachAllLast(infos: seq<AttachmentInfo>)
    requires infos != [] && AttachAll(infos).outcome == Done
    ensures var n := |infos| - 1;
      && AttachAll(infos[..n]).outcome == Done && Acceptable(infos[n])
      && AttachAll(infos).stage == AttachEffect(AttachAll(infos[..n]).stage, infos[n]).stage
  {
  }

  lemma {:induction false} ReadSourceNone(infos: seq<AttachmentInfo>)
    requires AttachAll(infos).outcome == Done
    ensures AttachAll(infos).stage.readSource == NONE <==>
      forall i :: 0 <= i < |infos| ==> !(IsColor(infos[i].kind) && infos[i].bufferSource)
    decreases |infos|
  {
    if infos != [] {
      var n := |infos| - 1;
      var init, last := infos[..n], infos[n];
      AttachAllLast(infos);
      var prev := AttachAll(init).stage;
      var st := AttachAll(infos).stage;
      ReadSourceNone(init);
      AttachStep(prev, last);
      if IsColor(last.kind) && last.bufferSource {
        assert st.readSource == COLOR_ATTACHMENT0 + prev.colorCount;
        assert IsColor(infos[n].kind) && infos[n].bufferSource;
      } else {
        assert st.readSource == prev.readSource;
        ForallSnoc(infos, init);
      }
    }
  }

  lemma ForallSnoc(infos: seq<AttachmentInfo>, init: seq<AttachmentInfo>)
    requires infos != [] && init == infos[..|infos| - 1]
    requires !(IsColor(infos[|infos| - 1].kind) && infos[|infos| - 1].bufferSource)
    ensures (forall i :: 0 <= i < |infos| ==> !(IsColor(infos[i].kind) && infos[i].bufferSource))
        <==> (forall i :: 0 <= i < |init| ==> !(IsColor(init[i].kind) && init[i].bufferSource))
  {
    assert forall i :: 0 <= i < |init| ==> infos[i] == init[i];
  }

  lemma {:induction false} ReadSourceDrawn(infos: seq<AttachmentInfo>)
    requires AttachAll(infos).outcome == Done
    ensures var st := AttachAll(infos).stage;
      st.readSource != NONE ==> st.readSource in st.numbers
    decreases |infos|
  {
    if infos != [] {
      var n := |infos| - 1;
      AttachAllLast(infos);
      var prev := AttachAll(infos[..n]).stage;
      ReadSourceDrawn(infos[..n]);
      AttachStep(prev, infos[n]);
      var st := AttachAll(infos).stage;
      if !(IsColor(infos[n].kind) && infos[n].bufferSource) && prev.readSource != NONE {
        assert prev.readSource in prev.numbers;
        assert st.numbers[..|prev.numbers|] == prev.numbers;
      }
    }
  }



  /** The map is keyed by exactly the attachments' names. */
  lemma {:induction false} AttachAllKeys(infos: seq<AttachmentInfo>)
    requires AttachAll(infos).outcome == Done
    ensures forall n :: n in AttachAll(infos).stage.attachments <==> exists i :: 0 <= i < |infos| && infos[i].name == n
    decreases |infos|
  {
    if infos != [] {
      var init := infos[..|infos| - 1];
      assert AttachAll(init).outcome == Done;
      AttachAllKeys(init);
      AttachAllOutcome(infos);
      AttachStep(AttachAll(init).stage, infos[|infos| - 1]);
      assert forall i :: 0 <= i < |init| ==> init[i] == infos[i];
      assert forall i :: 0 <= i < |infos| - 1 ==> infos[i] == init[i];
    }
  }

  /** Each name maps to the last attachment with that name, as it was processed:
   *  numbered by the colour attachments before it. */
  lemma {:induction false} AttachAllEntry(infos: seq<AttachmentInfo>, i: nat)
    requires AttachAll(infos).outcome == Done
    requires i < |infos| && forall j :: i < j < |infos| ==> infos[j].name != infos[i].name
    ensures Acceptable(infos[i])
    ensures infos[i].name in AttachAll(infos).stage.attachments
    ensures AttachAll(infos).stage.attachments[infos[i].name] == Processed(ColorCount(infos[..i]), infos[i])
    decreases |infos|
  {
    var init := infos[..|infos| - 1];
    assert AttachAll(init).outcome == Done;
    AttachAllOutcome(infos);
    if i == |infos| - 1 {
      AttachAllNumbering(init);
      assert init == infos[..i];
    } else {
      assert forall j :: 0 <= j < |init| ==> init[j] == infos[j];
      assert init[..i] == infos[..i];
      AttachAllEntry(init, i);
    }
  }

  /** The framebuffer's `width` and `height` keep their initial 0 when there
   *  are no attachments and are `undefined` after any attachment, whatever
   *  its texture. */
  lemma AttachAllSize(infos: seq<AttachmentInfo>)
    requires AttachAll(infos).outcome == Done
    ensures infos == [] ==> AttachAll(infos).stage.width == Num(0) && AttachAll(infos).stage.height == Num(0)
    ensures infos != [] ==> AttachAll(infos).stage.width == Undefined && AttachAll(infos).stage.height == Undefined
  {
  }

  /** `attachment_numbers.length ? attachment_numbers : [gl.NONE]` */
  function DrawList(numbers: seq<int>): (d: seq<int>)
    ensures |d| >= 1
    ensures numbers != [] ==> d == numbers
    ensures numbers == [] ==> d == [NONE]
  {
    if |numbers| > 0 then numbers else [NONE]
  }

  /** The `readBuffer` argument. */
  function ReadTarget(readFromBack: bool, readSource: int): (r: int)
    ensures readFromBack ==> r == BACK
    ensures !readFromBack ==> r == readSource
  {
    if readFromBack then BACK else if readSource == NONE then NONE else readSource
  }

  /** Everything the constructor issues after binding the new framebuffer.
   *  `complete` is what `checkFramebufferStatus` reports. */
  function ConstructionCalls(infos: seq<AttachmentInfo>, readFromBack: bool, complete: bool): (c: Step)
  {
    var a := AttachAll(infos);
    if a.outcome != Done then a
    else
      var tail := [DrawBuffers(DrawList(a.stage.numbers)), ReadBuffer(ReadTarget(readFromBack, a.stage.readSource))];
      if complete then Step(a.stage, a.events + tail + [BindFramebufferHandle(None)], Done)
      else Step(a.stage, a.events + tail, Fail(IncompleteFramebuffer))
  }

  /** The constructor succeeds exactly when every attachment is accepted and the
   *  result is complete; it then unbinds, and otherwise leaves the object bound. */
  lemma {:induction false} ConstructionOutcome(infos: seq<AttachmentInfo>, readFromBack: bool, complete: bool)
    ensures var c := ConstructionCalls(infos, readFromBack, complete);
      && (c.outcome == Done <==> complete && forall i :: 0 <= i < |infos| ==> Acceptable(infos[i]))
      && (c.outcome == Done ==> c.events[|c.events| - 1] == BindFramebufferHandle(None))
      && (BindFramebufferHandle(None) in c.events ==> c.outcome == Done)
  {
    AttachAllOutcome(infos);
    AttachAllUnbindFree(infos);
  }

  /** Attaching never unbinds. */
  lemma {:induction false} AttachAllUnbindFree(infos: seq<AttachmentInfo>)
    ensures BindFramebufferHandle(None) !in AttachAll(infos).events
    decreases |infos|
  {
    if infos != [] {
      var init := infos[..|infos| - 1];
      AttachAllUnbindFree(init);
      var prev := AttachAll(init);
      if prev.outcome == Done {
        AttachStepCalls(prev.stage, infos[|infos| - 1]);
        assert BindFramebufferHandle(None) !in AttachEffect(prev.stage, infos[|infos| - 1]).events;
      }
    }
  }

  /** The draw buffers are the colour attachments in order, or `[NONE]` when
   *  there are none. */
  lemma DrawBuffersListed(infos: seq<AttachmentInfo>)
    requires AttachAll(infos).outcome == Done
    ensures var n := ColorCount(infos);
      DrawList(AttachAll(infos).stage.numbers) == if n == 0 then [NONE] else seq(n, k => COLOR_ATTACHMENT0 + k)
  {
    AttachAllCount(infos);
    ConsecutiveNumbers(AttachAll(infos).stage.numbers, ColorCount(infos));
  }

  lemma ConsecutiveNumbers(numbers: seq<int>, n: nat)
    requires |numbers| == n && forall k :: 0 <= k < n ==> numbers[k] == COLOR_ATTACHMENT0 + k
    ensures DrawList(numbers) == if n == 0 then [NONE] else seq(n, k => COLOR_ATTACHMENT0 + k)
  {
    if n != 0 {
      assert numbers == seq(n, k => COLOR_ATTACHMENT0 + k);
    }
  }

  /** Every name a colour attachment gets lies among the sixteen
   *  `COLOR_ATTACHMENTi` enumerants when there are at most sixteen of them. */
  lemma ColorNumbersInRange(infos: seq<AttachmentInfo>)
    requires AttachAll(infos).outcome == Done && ColorCount(infos) <= MAX_COLOR_ATTACHMENTS
    ensures forall x :: x in AttachAll(infos).stage.numbers ==>
      COLOR_ATTACHMENT0 <= x < COLOR_ATTACHMENT0 + MAX_COLOR_ATTACHMENTS
  {
    AttachAllNumbering(infos);
  }

  // ---------------------------------------------------------------- the object

  /** What a bind-if-not-bound operation issues: `use()` when the framebuffer
   *  is not the bound one, the body, and `unuse_framebuffer()` at the end
   *  when it bound it and the body did not throw. */
  function Bracketed(name: string, bound: bool, body: seq<Event>, finished: bool): (es: seq<Event>)
    ensures |es| == |body| + (if bound then 0 else if finished then 2 else 1)
  {
    (if bound then [] else [UseFramebuffer(Some(name))])
      + body
      + (if bound || !finished then [] else [UseFramebuffer(None)])
  }

  /** The bracket binds first and unbinds last exactly when it was not bound;
   *  a bound framebuffer gets no binding calls beyond the body's. */
  lemma BracketedShape(name: string, bound: bool, body: seq<Event>, finished: bool)
    ensures var es := Bracketed(name, bound, body, finished);
      && (bound ==> es == body)
      && (!bound ==> es[0] == UseFramebuffer(Some(name)) && es[1..1 + |body|] == body)
      && (!bound && finished ==> es[|es| - 1] == UseFramebuffer(None))
      && (!bound && !finished ==> es == [UseFramebuffer(Some(name))] + body)
  {
  }

  /** The graphics state after the bracket: the framebuffer stays bound if it
   *  was, is unbound after a finished body, and stays bound after a throw. */
  lemma {:induction false} BracketedState(s: GlState, name: string, body: seq<Event>, finished: bool)
    requires Neutral(body)
    ensures var bound := s.framebuffer == Some(name);
      Replay(s, Bracketed(name, bound, body, finished))
        == s.(framebuffer := if bound || !finished then Some(name) else None)
  {
    var bound := s.framebuffer == Some(name);
    var pre := if bound then [] else [UseFramebuffer(Some(name))];
    var post := if bound || !finished then [] else [UseFramebuffer(None)];
    var mid := s.(framebuffer := Some(name));
    ReplayAppend(s, pre + body, post);
    ReplayAppend(s, pre, body);
    if !bound {
      ReplayOne(s, UseFramebuffer(Some(name)));
    } else {
      assert mid == s;
    }
    ReplayNeutral(mid, body);
    if post != [] {
      ReplayOne(mid, UseFramebuffer(None));
    }
  }

  /** The `switch` of `set_attachment_texture_index` on the attachment stored
   *  under the name (`None` when there is none: reading `.type` of `undefined`
   *  throws a TypeError). */
  function LayerCall(entry: Option<AttachmentInfo>, index: int): Result<Event>
  {
    if entry.None? then Err(TypeError)
    else
      var a := entry.value;
      match a.kind
      case TextureArrayColor =>
        if a.colorAttachmentNumber.None? then Err(MissingColorAttachment)
        else Ok(FramebufferTextureLayer(a.colorAttachmentNumber.value, a.texture.handle, Level(a), index))
      case TextureArrayDepth =>
        Ok(FramebufferTextureLayer(DEPTH_ATTACHMENT, a.texture.handle, Num(0), index))
      case _ => Err(UnsupportedAttachment)
  }

  /** It re-targets the layer of exactly the two array kinds, on the colour
   *  attachment's own number or on the depth attachment, and refuses the rest. */
  lemma LayerCallCases(entry: Option<AttachmentInfo>, index: int)
    ensures var c := LayerCall(entry, index);
      && (c.Ok? <==> entry.Some? && ((entry.value.kind.TextureArrayColor? && entry.value.colorAttachmentNumber.Some?)
                                    || entry.value.kind.TextureArrayDepth?))
      && (entry.None? ==> c == Err(TypeError))
      && (c.Ok? ==> c.value.FramebufferTextureLayer? && c.value.layer == index && c.value.texture == entry.value.texture.handle
                    && c.value.attachment == if entry.value.kind.TextureArrayDepth? then DEPTH_ATTACHMENT
                                             else entry.value.colorAttachmentNumber.value)
  {
  }

  function TextureIndexCalls(name: string, bound: bool, entry: Option<AttachmentInfo>, index: int): (c: Calls)
  {
    var call := LayerCall(entry, index);
    if call.Ok? then Calls(Bracketed(name, bound, [call.value], true), Done)
    else Calls(Bracketed(name, bound, [], false), Fail(call.error))
  }

  /** The body of `clear`: the clear values of the buffers in use, then one
   *  `clear` with their mask, or nothing when no buffer is in use. */
  function ClearBody(useDepth: bool, useColor: bool, clearColor: Vec4): (es: seq<Event>)
    ensures Neutral(es)
  {
    (if useDepth then [ClearDepth(1.0)] else [])
      + (if useColor then [ClearColor(clearColor)] else [])
      + (if useDepth || useColor then [Clear(ClearMask(useColor, useDepth))] else [])
  }

  /** `clear` clears once, with the mask of the buffers in use, exactly when
   *  some buffer is in use, and always last. */
  lemma ClearBodyClears(useDepth: bool, useColor: bool, clearColor: Vec4)
    ensures var es := ClearBody(useDepth, useColor, clearColor);
      && (es == [] <==> !useDepth && !useColor)
      && (es != [] ==> es[|es| - 1] == Clear(ClearMask(useColor, useDepth)))
      && (forall k :: 0 <= k < |es| - 1 ==> !es[k].Clear?)
  {
  }

  /** It sets the depth clear value exactly when depth is in use, and the
   *  colour clear value (the framebuffer's colour) exactly when colour is. */
  lemma ClearBodyValues(useDepth: bool, useColor: bool, clearColor: Vec4)
    ensures var es := ClearBody(useDepth, useColor, clearColor);
      && (ClearDepth(1.0) in es <==> useDepth)
      && (ClearColor(clearColor) in es <==> useColor)
      && (forall k :: 0 <= k < |es| && es[k].ClearColor? ==> es[k].color == clearColor)
  {
    var es := ClearBody(useDepth, useColor, clearColor);
    if useDepth {
      assert es[0] == ClearDepth(1.0);
    }
    if useColor {
      assert es[if useDepth then 1 else 0] == ClearColor(clearColor);
    }
  }

  /** The mask `clear` passes has the colour bit exactly when colour is used
   *  and the depth bit exactly when depth is. */
  lemma ClearMaskBits(useColor: bool, useDepth: bool)
    ensures HasFlag(ClearMask(useColor, useDepth), Pow2(COLOR_BUFFER_DIGIT)) <==> useColor
    ensures HasFlag(ClearMask(useColor, useDepth), Pow2(DEPTH_BUFFER_DIGIT)) <==> useDepth
    ensures Pow2(COLOR_BUFFER_DIGIT) == COLOR_BUFFER_BIT && Pow2(DEPTH_BUFFER_DIGIT) == DEPTH_BUFFER_BIT
  {
    HasSingleFlag(ClearMask(useColor, useDepth), COLOR_BUFFER_DIGIT);
    HasSingleFlag(ClearMask(useColor, useDepth), DEPTH_BUFFER_DIGIT);
    ClearMaskDigits(useColor, useDepth, COLOR_BUFFER_DIGIT);
    ClearMaskDigits(useColor, useDepth, DEPTH_BUFFER_DIGIT);
    BufferBits();
  }

  /** The attachment enumerant `set_attachment_cube_map_texture_face` passes
   *  for a colour cube map, as written (`COLOR_ATTACHMENT0` added to a number
   *  that already includes it). */
  function CubeFaceAttachmentAsWritten(number: int): int
  {
    COLOR_ATTACHMENT0 + number
  }

  /** ... and as intended: the number the attachment was created with. */
  function CubeFaceAttachment(number: int): int
  {
    number
  }

  /** For every number the constructor hands out, the written enumerant is not a
   *  colour attachment at all, while the intended one is the attachment the
   *  cube map was created on. */
  lemma CubeFaceAttachmentAsWrittenMisses(k: nat)
    requires k < MAX_COLOR_ATTACHMENTS
    ensures var number := COLOR_ATTACHMENT0 + k;
      && !(COLOR_ATTACHMENT0 <= CubeFaceAttachmentAsWritten(number) < COLOR_ATTACHMENT0 + MAX_COLOR_ATTACHMENTS)
      && CubeFaceAttachmentAsWritten(number) != number
  {
  }

  /** With the intended enumerant, a face call for a colour cube map targets
   *  exactly the colour attachment the cube map was created on. */
  lemma CubeFaceAttachmentHits(infos: seq<AttachmentInfo>, i: nat)
    requires AttachAll(infos).outcome == Done
    requires i < |infos| && forall j :: i < j < |infos| ==> infos[j].name != infos[i].name
    requires infos[i].kind.CubemapTextureColor?
    ensures infos[i].name in AttachAll(infos).stage.attachments
    ensures var a := AttachAll(infos).stage.attachments[infos[i].name];
      && a.colorAttachmentNumber.Some?
      && CubeFaceAttachment(a.colorAttachmentNumber.value) == COLOR_ATTACHMENT0 + ColorCount(infos[..i])
  {
    AttachAllEntry(infos, i);
  }

  /** The `switch` of `set_attachment_cube_map_texture_face`, with the colour
   *  attachment enumerant as written (`asWritten`) or as intended. */
  function FaceCallWith(entry: Option<AttachmentInfo>, face: int, asWritten: bool): Result<Event>
  {
    if entry.None? then Err(TypeError)
    else
      var a := entry.value;
      match a.kind
      case CubemapTextureColor =>
        if a.colorAttachmentNumber.None? then Err(MissingColorAttachment)
        else
          var number := a.colorAttachmentNumber.value;
          var attachment := if asWritten then CubeFaceAttachmentAsWritten(number) else CubeFaceAttachment(number);
          Ok(FramebufferTexture2D(attachment, face, a.texture.handle, Num(0)))
      case CubemapTextureDepth =>
        Ok(FramebufferTexture2D(DEPTH_ATTACHMENT, face, a.texture.handle, Num(0)))
      case _ => Err(UnsupportedAttachment)
  }

  /** The face call the program makes. */
  function FaceCall(entry: Option<AttachmentInfo>, face: int): Result<Event>
  {
    FaceCallWith(entry, face, true)
  }

  /** The face call with the corrected colour enumerant. */
  function FaceCallIntended(entry: Option<AttachmentInfo>, face: int): Result<Event>
  {
    FaceCallWith(entry, face, false)
  }

  /** Either way it re-targets the face of exactly the two cube-map kinds, at
   *  level 0, and refuses the rest; the two differ only in the colour
   *  enumerant, which as written is offset a second time by `COLOR_ATTACHMENT0`. */
  lemma FaceCallCases(entry: Option<AttachmentInfo>, face: int)
    ensures forall asWritten: bool {:trigger FaceCallWith(entry, face, asWritten)} ::
      var c := FaceCallWith(entry, face, asWritten);
      && (c.Ok? <==> entry.Some? && ((entry.value.kind.CubemapTextureColor? && entry.value.colorAttachmentNumber.Some?)
                                    || entry.value.kind.CubemapTextureDepth?))
      && (entry.None? ==> c == Err(TypeError))
      && (c.Ok? ==> c.value.FramebufferTexture2D? && c.value.target == face && c.value.level == Num(0)
                    && c.value.texture == entry.value.texture.handle
                    && c.value.attachment == if entry.value.kind.CubemapTextureDepth? then DEPTH_ATTACHMENT
                                             else if asWritten then COLOR_ATTACHMENT0 + entry.value.colorAttachmentNumber.value
                                             else entry.value.colorAttachmentNumber.value)
    ensures FaceCall(entry, face).Err? ==> FaceCall(entry, face) == FaceCallIntended(entry, face)
    ensures entry.Some? && entry.value.kind.CubemapTextureDepth? ==> FaceCall(entry, face) == FaceCallIntended(entry, face)
  {
  }

  function CubeFaceIndexCalls(name: string, bound: bool, entry: Option<AttachmentInfo>, face: int): (c: Calls)
  {
    var call := FaceCall(entry, face);
    if call.Ok? then Calls(Bracketed(name, bound, [call.value], true), Done)
    else Calls(Bracketed(name, bound, [], false), Fail(call.error))
  }

  class Framebuffer {
    const name: string
    const handle: nat          // the WebGLFramebuffer
    const clearColor: Vec4
    const drawFlags: nat
    var width: JsValue
    var height: JsValue
    var attachments: map<string, AttachmentInfo>
    var useDepthBuffer: bool
    var useColorBuffer: bool
    var colorAttachmentCount: nat
    var readSourceColorAttachment: int

    /** The fields as a `Stage`, with the constructor's local number list. */
    function Current(numbers: seq<int>): Stage
      reads this
    {
      Stage(colorAttachmentCount, useDepthBuffer, useColorBuffer, readSourceColorAttachment,
            numbers, attachments, width, height)
    }

    /** The field initialisers. */
    constructor Init(name: string, handle: nat, drawFlags: nat, clearColor: Vec4)
      ensures this.name == name && this.handle == handle && this.drawFlags == drawFlags && this.clearColor == clearColor
      ensures Current([]) == Blank
    {
      this.name := name;
      this.handle := handle;
      this.drawFlags := drawFlags;
      this.clearColor := clearColor;
      width, height := Num(0), Num(0);
      attachments := map[];
      useDepthBuffer, useColorBuffer := false, false;
      colorAttachmentCount := 0;
      readSourceColorAttachment := 0;
    }

    /** `create_attachment` together with the constructor's bookkeeping after it. */
    method CreateAttachment(ctx: Context, info: AttachmentInfo, numbers: seq<int>) returns (numbers': seq<int>, r: Outcome)
      requires ctx.Valid()
      modifies this, ctx
      ensures ctx.Valid() && ctx.state == old(ctx.state)
      ensures var s := AttachEffect(old(Current(numbers)), info);
        && ctx.log == old(ctx.log) + s.events && r == s.outcome
        && (r == Done ==> Current(numbers') == s.stage)
    {
      ghost var st0 := Current(numbers);
      var s := CreateEffect(Current(numbers), info);
      if s.outcome != Done {
        assert AttachEffect(st0, info) == s;
        return numbers, s.outcome;
      }
      var p := Processed(colorAttachmentCount, info);
      var st := s.stage;
      ghost var after := st.(attachments := st0.attachments[info.name := p],
                             width := TextureSize(info.texture), height := TextureSize(info.texture));
      assert AttachEffect(st0, info) == Step(after, s.events, Done);
      AttachEventsNeutral(st0, info);
      ctx.IssueAll(s.events);
      ReplayNeutral(old(ctx.state), s.events);
      colorAttachmentCount, useDepthBuffer, useColorBuffer, readSourceColorAttachment := st.colorCount, st.useDepth, st.useColor, st.readSource;
      attachments := attachments[info.name := p];
      width, height := TextureSize(info.texture), TextureSize(info.texture);
      numbers' := st.numbers;
      r := Done;
      assert Current(numbers') == after;
    }

    /** The constructor's loop over the attachment infos. */
    method AttachAllInfos(ctx: Context, infos: seq<AttachmentInfo>) returns (numbers: seq<int>, r: Outcome)
      requires ctx.Valid() && Current([]) == Blank
      modifies this, ctx
      ensures ctx.Valid() && ctx.state == old(ctx.state)
      ensures ctx.log == old(ctx.log) + AttachAll(infos).events && r == AttachAll(infos).outcome
      ensures r == Done ==> Current(numbers) == AttachAll(infos).stage
    {
      numbers := [];
      var i := 0;
      while i < |infos|
        invariant 0 <= i <= |infos|
        invariant ctx.Valid() && ctx.state == old(ctx.state)
        invariant AttachAll(infos[..i]).outcome == Done
        invariant ctx.log == old(ctx.log) + AttachAll(infos[..i]).events
        invariant Current(numbers) == AttachAll(infos[..i]).stage
      {
        var out;
        numbers, out := CreateAttachment(ctx, infos[i], numbers);
        if out != Done {
          AttachAllRefusedAt(infos, i);
          return numbers, out;
        }
        AttachAllSnoc(infos, i);
        Seqs.AppendAssoc(old(ctx.log), AttachAll(infos[..i]).events, AttachEffect(AttachAll(infos[..i]).stage, infos[i]).events);
        i := i + 1;
      }
      assert infos[..i] == infos;
      r := Done;
    }

    /** The attachment filed under a name, if any. */
    function Entry(attachmentName: string): (e: Option<AttachmentInfo>)
      reads this
      ensures e.Some? <==> attachmentName in attachments
      ensures e.Some? ==> e.value == attachments[attachmentName]
    {
      if attachmentName in attachments then Some(attachments[attachmentName]) else None
    }

    /** `use()`: make this the graphics manager's framebuffer. */
    method Use(ctx: Context)
      requires ctx.Valid()
      modifies ctx
      ensures ctx.Valid() && ctx.log == old(ctx.log) + [UseFramebuffer(Some(name))]
      ensures ctx.state == old(ctx.state).(framebuffer := Some(name))
    {
      ctx.Issue(UseFramebuffer(Some(name)));
    }

    /** Issue a body's one call inside the bind-if-not-bound bracket, or only
     *  the opening of the bracket when the body throws. */
    method RunBracketed(ctx: Context, call: Result<Event>) returns (r: Outcome)
      requires ctx.Valid() && (call.Ok? ==> Inert(call.value))
      modifies ctx
      ensures ctx.Valid()
      ensures var bound := old(ctx.state.framebuffer) == Some(name);
        && r == (if call.Ok? then Done else Fail(call.error))
        && ctx.log == old(ctx.log) + Bracketed(name, bound, if call.Ok? then [call.value] else [], call.Ok?)
        && ctx.state == old(ctx.state).(framebuffer := if bound || r != Done then Some(name) else None)
    {
      var bound := ctx.state.framebuffer == Some(name);
      if !bound {
        Use(ctx);
      }
      if call.Err? {
        return Fail(call.error);
      }
      ctx.Issue(call.value);
      if !bound {
        ctx.Issue(UseFramebuffer(None));
      }
      r := Done;
    }

    /** `set_attachment_texture_index`: point an array attachment at another layer. */
    method SetAttachmentTextureIndex(ctx: Context, attachmentName: string, index: int) returns (r: Outcome)
      requires ctx.Valid()
      modifies ctx
      ensures ctx.Valid()
      ensures var bound := old(ctx.state.framebuffer) == Some(name);
        var c := TextureIndexCalls(name, bound, Entry(attachmentName), index);
        && ctx.log == old(ctx.log) + c.events && r == c.outcome
        && ctx.state == old(ctx.state).(framebuffer := if bound || r != Done then Some(name) else None)
    {
      r := RunBracketed(ctx, LayerCall(Entry(attachmentName), index));
    }

    /** `set_attachment_cube_map_texture_face`: point a cube-map attachment at
     *  another face, with the colour enumerant as the program computes it. */
    method SetAttachmentCubeMapTextureFace(ctx: Context, attachmentName: string, face: int) returns (r: Outcome)
      requires ctx.Valid()
      modifies ctx
      ensures ctx.Valid()
      ensures var bound := old(ctx.state.framebuffer) == Some(name);
        var c := CubeFaceIndexCalls(name, bound, Entry(attachmentName), face);
        && ctx.log == old(ctx.log) + c.events && r == c.outcome
        && ctx.state == old(ctx.state).(framebuffer := if bound || r != Done then Some(name) else None)
    {
      r := RunBracketed(ctx, FaceCall(Entry(attachmentName), face));
    }

    /** The body of `clear`: set the clear values and clear. */
    method ClearBuffers(ctx: Context)
      requires ctx.Valid()
      modifies ctx
      ensures ctx.Valid() && ctx.state == old(ctx.state)
      ensures ctx.log == old(ctx.log) + ClearBody(useDepthBuffer, useColorBuffer, clearColor)
    {
      ghost var depth := if useDepthBuffer then [ClearDepth(1.0)] else [];
      ghost var color := if useColorBuffer then [ClearColor(clearColor)] else [];
      ghost var mask := if useDepthBuffer || useColorBuffer then [Gl.Clear(ClearMask(useColorBuffer, useDepthBuffer))] else [];
      if useDepthBuffer {
        ctx.Issue(ClearDepth(1.0));
      }
      assert ctx.log == old(ctx.log) + depth;
      if useColorBuffer {
        ctx.Issue(ClearColor(clearColor));
      }
      Seqs.AppendAssoc(old(ctx.log), depth, color);
      assert ctx.log == old(ctx.log) + (depth + color);
      if useDepthBuffer || useColorBuffer {
        ctx.Issue(Gl.Clear(ClearMask(useColorBuffer, useDepthBuffer)));
      }
      Seqs.AppendAssoc(old(ctx.log), depth + color, mask);
    }

    /** `clear`: clear the buffers in use, binding the framebuffer around it
     *  when it is not the bound one. */
    method Clear(ctx: Context)
      requires ctx.Valid()
      modifies ctx
      ensures ctx.Valid()
      ensures var bound := old(ctx.state.framebuffer) == Some(name);
        && ctx.log == old(ctx.log) + Bracketed(name, bound, ClearBody(useDepthBuffer, useColorBuffer, clearColor), true)
        && ctx.state == old(ctx.state).(framebuffer := if bound then Some(name) else None)
    {
      var bound := ctx.state.framebuffer == Some(name);
      ghost var body := ClearBody(useDepthBuffer, useColorBuffer, clearColor);
      if !bound {
        Use(ctx);
      }
      ghost var inside := ctx.log;
      ClearBuffers(ctx);
      if !bound {
        ctx.Issue(UseFramebuffer(None));
        Seqs.AppendAssoc(old(ctx.log), [UseFramebuffer(Some(name))], body);
        Seqs.AppendAssoc(old(ctx.log), [UseFramebuffer(Some(name))] + body, [UseFramebuffer(None)]);
      }
    }
  }

  /** Attaching issues only raw WebGL calls, which leave the modelled state alone. */
  lemma AttachEventsNeutral(st: Stage, info: AttachmentInfo)
    ensures Neutral(AttachEffect(st, info).events)
  {
  }

  /** `new Framebuffer(...)`: create the object, bind it, attach, set the draw
   *  and read buffers, check completeness and unbind. `handle` is the new
   *  WebGLFramebuffer; `complete` is the `checkFramebufferStatus` verdict. */
  method NewFramebuffer(ctx: Context, name: string, handle: nat, infos: seq<AttachmentInfo>, drawFlags: nat,
                        clearColor: Vec4, readFromBack: bool, complete: bool)
    returns (r: Result<Framebuffer>)
    requires ctx.Valid()
    modifies ctx
    ensures ctx.Valid() && ctx.state == old(ctx.state)
    ensures var c := ConstructionCalls(infos, readFromBack, complete);
      && ctx.log == old(ctx.log) + [BindFramebufferHandle(Some(handle))] + c.events
      && (r.Ok? <==> c.outcome == Done)
      && (r.Err? ==> r.error == c.outcome.error)
      && (r.Ok? ==> fresh(r.value) && r.value.Current(c.stage.numbers) == c.stage
                    && r.value.name == name && r.value.handle == handle
                    && r.value.drawFlags == drawFlags && r.value.clearColor == clearColor)
  {
    var fb := new Framebuffer.Init(name, handle, drawFlags, clearColor);
    ctx.Issue(BindFramebufferHandle(Some(handle)));
    ghost var bound := ctx.log;
    var numbers, out := fb.AttachAllInfos(ctx, infos);
    if out != Done {
      return Err(out.error);
    }
    ghost var attached := ctx.log;
    ctx.Issue(DrawBuffers(DrawList(numbers)));
    ctx.Issue(ReadBuffer(ReadTarget(readFromBack, fb.readSourceColorAttachment)));
    var tail := [DrawBuffers(DrawList(numbers)), ReadBuffer(ReadTarget(readFromBack, fb.readSourceColorAttachment))];
    assert ctx.log == attached + tail;
    if !complete {
      Seqs.AppendAssoc(bound, AttachAll(infos).events, tail);
      return Err(IncompleteFramebuffer);
    }
    ctx.Issue(BindFramebufferHandle(None));
    Seqs.AppendAssoc(bound, AttachAll(infos).events, tail);
    Seqs.AppendAssoc(bound, AttachAll(infos).events + tail, [BindFramebufferHandle(None)]);
    r := Ok(fb);
  }
}
