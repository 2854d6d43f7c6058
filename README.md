# A verified model of the webgl2-engine bookkeeping

webgl2-engine is a small TypeScript engine on top of WebGL 2. It has a scene
graph of nodes, shader programs with a uniform registry, framebuffers and
textures, materials and models, point, spot and directional lights that
render shadow maps, and two Wavefront OBJ loaders. This project models the
discrete, stateful part of that engine in Dafny and proves what the code
promises about it. The floating-point rendering is not modelled.

How the engine's pieces are represented:

- **GL calls.** In the newer code, the WebGL calls that bind, enable,
  upload, attach, draw and clear, and every call on the graphics manager,
  are `Event`s appended to a log (`Gl.Context`). Calls that only create an
  object, compile or link a shader, or look up a location are not logged
  (see "Left out"). The few slots the model reasons about form a `GlState`
  record, which the context keeps equal to the replay of its log:
  - the active program;
  - the bound framebuffer;
  - DEPTH_TEST;
  - BLEND;
  - the bound vertex array;
  - the depth-pass flag `rendering_depth_map`.
- **The older graphics manager.** `src/graphics/graphics_manager.ts` is
  modelled in its own terms by `LegacyGraphics`: a program table, one
  active-program slot, uniform uploads with cached locations, and vertex
  attributes. Its calls are `LegacyGraphics.Call`s appended to the
  manager's own `calls` sequence, not to a `Gl.Context`. `LegacyAssets` (`src/graphics/assets.ts`) and
  `LegacySceneGraph` (`src/graphics/node.ts`) are written against it.
- **Matrices and vectors** are symbolic terms (`Maths`). Two are equal when
  they were built the same way. A world matrix is `Mul(parent, local)`.
- **Nodes, programs, framebuffers, lights and rosters** are classes whose
  fields the methods update, with `modifies` clauses. Parsers, label
  normalisation, bit masks and the shader's face choice are functions, each
  with a loop-based method proved equal to it where the source loops.
- **Failure.** A thrown error is an `Outcome` (`Fail(...)`) or a `Result`.
  Every operation states both what it does and when it throws.
- **JavaScript number parsing.** `Number` and `parseInt` are parameters of
  the parsers (`string -> Scalar`, `string -> Option<int>`).

Modules follow the source files. Each is listed below with its source
file, relative to the repository root.

| module | file |
|---|---|
| `UniformLabels` | src/graphics/utility.ts |
| `ShaderPrograms` | src/graphics/shader_program.ts |
| `LegacyGraphics` | src/graphics/graphics_manager.ts |
| `SceneGraph` | src/node.ts |
| `LegacySceneGraph` | src/graphics/node.ts |
| `Engines` | src/engine.ts |
| `Scenes` | src/scene.ts |
| `DrawFlags` | src/graphics/framebuffer.ts (`DrawFlag`, `has_flag`, the clear mask) |
| `Framebuffers` | src/graphics/framebuffer.ts |
| `Textures` | src/graphics/assets/texture.ts |
| `Vaos` | src/graphics/assets/vaos.ts |
| `LegacyAssets` | src/graphics/assets.ts |
| `Models` | src/graphics/assets/model.ts |
| `Materials` | src/graphics/assets/material.ts |
| `Lights` | src/node/lights.ts |
| `PointLights` | src/node/lights/point_light.ts |
| `DirectionalLights` | src/node/lights/directional_light.ts |
| `Objects` | src/node/object3d.ts |
| `ShadowFaces` | src/shaders/default_3d.fs.ts (`get_point_shadow_face_index`) |
| `ObjText` | what the two OBJ loaders share |
| `ObjLoader` | src/graphics/assets/asset_loaders/obj.ts |
| `LegacyObjLoader` | src/graphics/asset_loaders/obj.ts |
| `Gl`, `Maths`, `Seqs`, `Wrappers` | shared vocabulary: the event log, symbolic matrices, sequence helpers, Option/Result/errors |

## Where the code does less than a reader might expect

The model follows the code in each case.

- **World matrix.** A reader might expect a world matrix composed along the
  whole chain of 3-D ancestors. `get_world_matrix` (src/node.ts:113-121,
  142-150; src/graphics/node.ts:53-61, 82-90) composes only the immediate
  parent's local matrix, and only when the parent is of the same kind.
  `SceneGraph.Node.WorldMatrix` models that.
- **Update callbacks.** A reader might expect the update callbacks to be
  suppressed during a shadow pass. `Node.render` (src/node.ts:79-83) fires the update
  callback on every call, and each shadow face calls `main_scene.render`. So
  callbacks fire once per shadow face as well, and `SceneGraph.RenderEventsAt`
  states that.
- **Which `Model` `Object3D` uses.** `src/node/object3d.ts:3` imports `Model`
  from `src/graphics/assets.ts`, but only as a type: nothing in the file
  depends on which class it is, and the light and camera rosters are read from
  `this.engine` (src/node/object3d.ts:20-41). The model that actually reaches an
  `Object3D` is built by the exported `load_obj` (src/index.ts:1 re-exports
  src/graphics/assets/asset_loaders/obj.ts, whose line 130 constructs the
  `Model` of `src/graphics/assets/model.ts`), and the pirate-ship example passes
  that result to `new Object3D` (examples/pirate_ship_example/src/main.ts:61,
  122). So `Objects.Object3D` is written against `Models.Model`.
- **The newer graphics manager.** Its source (`use_shader`, `set_uniform`,
  `use_framebuffer`, `resize_point_shadow_map`, ...) is not part of this
  model. The calls made on it are logged events whose effect on `GlState`
  is only the slot each one names.

## Model

| member | source | states |
|---|---|---|
| UniformLabels.NormalizeUniformLabel | src/graphics/utility.ts:5-32 | the character loop returns `Normalize(rawLabel)`: the kept characters, with `[]` in front when a bracket was seen |
| UniformLabels.KeptBracketFree | src/graphics/utility.ts:21-23 | the characters kept by the loop never include `[` or `]`, and there are no more of them than input characters |
| UniformLabels.PlainLabelUnchanged | src/graphics/utility.ts:9-31 | a label with no bracket is returned unchanged |
| UniformLabels.ArrayMarkerIff | src/graphics/utility.ts:11-29 | the result starts with `[]` exactly when the label holds a `[` or a `]`; then it is `[]` followed by the kept characters, and the part after `[]` is bracket-free |
| UniformLabels.Idempotent | src/graphics/utility.ts:5-32 | normalising a normalised label gives it back |
| UniformLabels.ElementKey | src/graphics/utility.ts:9-26 | `p[index]q` becomes `[]p` followed by what the loop keeps of `q`: the bracketed index is dropped |
| UniformLabels.IndexIndependent | src/graphics/utility.ts:11-23 | two labels that differ only inside one pair of brackets (`point_lights[0].color`, `point_lights[7].color`) get the same key |
| UniformLabels.UnclosedBracketDropsRest | src/graphics/utility.ts:11-23 | an unclosed `[` drops everything after it |
| UniformLabels.StrayClosingBracket | src/graphics/utility.ts:16-19 | a `]` with no `[` before it still adds the `[]` prefix and removes nothing |
| ShaderPrograms.RegistryKeys | src/graphics/shader_program.ts:56-61 | after a sequence of `add_uniform` calls, a key is registered exactly when it is the normalised label of one of them |
| ShaderPrograms.LastDeclarationWins | src/graphics/shader_program.ts:56-66 | the entry under a key comes from the last call with that key; a sampler gets the number of sampler calls before it as its unit, any other type no unit |
| ShaderPrograms.SamplerCountMonotone | src/graphics/shader_program.ts:63-66 | `texture_counter` never decreases and rises by one at each sampler declaration |
| ShaderPrograms.TextureUnitsDistinct | src/graphics/shader_program.ts:63-66 | two different registered samplers have different texture units, each below `texture_counter` |
| ShaderPrograms.LastIndex | src/graphics/shader_program.ts:56-61 | every registered key has a last declaration that produced it |
| ShaderPrograms.ArrayDeclarationNotResolved | src/graphics/shader_program.ts:57 | a label with a bracket is stored under a key starting with `[]`, which `build` skips (also lines 85-86) |
| ShaderPrograms.PlainDeclarationResolved | src/graphics/shader_program.ts:57 | a label with no bracket is stored under itself, which `build` does not skip (also lines 85-86) |
| ShaderPrograms.ResolvedLocations | src/graphics/shader_program.ts:84-94 | after the loop `uniform_locs` has a key for exactly its old keys plus every registered key not starting with `[]`, each mapped to the looked-up location (null when the shader has none) |
| ShaderPrograms.ShaderProgram.constructor | src/graphics/shader_program.ts:34-44 | the program starts with no shaders, no GL program, empty tables and `texture_counter` 0 |
| ShaderPrograms.ShaderProgram.AddShader | src/graphics/shader_program.ts:46-54 | the compiled shader is appended to `shaders` |
| ShaderPrograms.ShaderProgram.AddUniform | src/graphics/shader_program.ts:56-67 | the entry is stored under the normalised label; a sampler gets the old counter as its unit and the counter rises by one, any other type leaves it; the registry stays the replay of the declarations |
| ShaderPrograms.ShaderProgram.Build | src/graphics/shader_program.ts:69-97 | the program handle is set, `uniform_locs` is filled as `ResolvedLocations` says, and the GL log gains `use_shader(name)` then `clear_shader()`, so no program is active afterwards |
| ShaderPrograms.ShaderProgram.LocateUniforms | src/graphics/shader_program.ts:84-94 | the location loop produces `ResolvedLocations` of the old table |
| ShaderPrograms.ShaderProgram.Use | src/graphics/shader_program.ts:99-101 | the program becomes the active one |
| LegacyGraphics.RegistryEntry | src/graphics/graphics_manager.ts:88-98 | the entry under a label is the last `add_uniform` with that label, stored verbatim with no location; only TEXTURE_2D gets a unit, the number of TEXTURE_2D calls before it |
| LegacyGraphics.RegistryKeys | src/graphics/graphics_manager.ts:88-93 | a label is registered exactly when some `add_uniform` call used it, unnormalised |
| LegacyGraphics.RegistryWellFormed | src/graphics/graphics_manager.ts:88-98 | every entry is stored under its own label and has a texture unit exactly when it is a TEXTURE_2D |
| LegacyGraphics.UploadOf | src/graphics/graphics_manager.ts:205-250 | the switch has an upload function for every type but TEXTURE_2D (handled apart) and F4V/I4V, which fall to the default branch |
| LegacyGraphics.UploadCalls | src/graphics/graphics_manager.ts:205-250 | F4V and I4V upload nothing; a TEXTURE_2D activates unit TEXTURE0 + its unit, binds and uploads the unit number; any other type makes one upload of the value at the uniform's location |
| LegacyGraphics.SetUniformEffect | src/graphics/graphics_manager.ts:201-204 | the call goes through exactly when the label is registered and its location is known or the program exists; otherwise it throws a TypeError before any call, with the table unchanged |
| LegacyGraphics.SetUniformEffectMeaning | src/graphics/graphics_manager.ts:201-250 | only the location of the named entry can change, it is looked up only when it was null, and the calls issued are those of the entry's type |
| LegacyGraphics.LocationCachedAfterLookup | src/graphics/graphics_manager.ts:202-204 | once a non-null location has been found, a second `set_uniform` of the same label does not look it up again and leaves the table alone |
| LegacyGraphics.VectorFourUploadsNothing | src/graphics/graphics_manager.ts:248-249 | an F4V or I4V uniform uploads nothing |
| LegacyGraphics.ShaderProgram.constructor | src/graphics/graphics_manager.ts:67-76 | the older program starts with no shaders, no GL program, no uniforms and a counter of 0 |
| LegacyGraphics.ShaderProgram.AddShader | src/graphics/graphics_manager.ts:78-86 | the shader is appended to `shaders` |
| LegacyGraphics.ShaderProgram.AddUniform | src/graphics/graphics_manager.ts:88-98 | the label is stored verbatim with a null location; only TEXTURE_2D takes the counter as its unit and raises it by one |
| LegacyGraphics.ShaderProgram.Build | src/graphics/graphics_manager.ts:100-119 | `use()` throws a TypeError when the manager has no program of this name, leaving the table untouched; otherwise every entry gets its looked-up location and the build ends with no program active |
| LegacyGraphics.ShaderProgram.LocateUniforms | src/graphics/graphics_manager.ts:115-117 | every entry, including array keys, gets `getUniformLocation` of its own label and nothing else changes |
| LegacyGraphics.ShaderProgram.Use | src/graphics/graphics_manager.ts:121-123 | the manager's program of this name becomes active and is bound; an unknown name leaves the slot holding `undefined` and throws (also lines 186-189) |
| LegacyGraphics.GraphicsManager.constructor | src/graphics/graphics_manager.ts:129-141 | the manager starts with no programs, no vertex attributes, a vertex count of 0 and no active program |
| LegacyGraphics.GraphicsManager.CreateShaderProgram | src/graphics/graphics_manager.ts:180-184 | a fresh empty program is registered under its name, replacing any earlier one |
| LegacyGraphics.GraphicsManager.UseShader | src/graphics/graphics_manager.ts:186-189 | exactly the named program becomes active; an unknown name stores `undefined` and throws a TypeError |
| LegacyGraphics.GraphicsManager.ClearShader | src/graphics/graphics_manager.ts:191-194 | no program is active and `useProgram(null)` is issued |
| LegacyGraphics.GraphicsManager.SetUniform | src/graphics/graphics_manager.ts:196-251 | with no program it returns having done nothing; otherwise its effect on the active program's table and the calls issued are `SetUniformEffect` |
| LegacyGraphics.AttribLocation | src/graphics/graphics_manager.ts:155 | `getAttribLocation` answers a location only for a built program's `webgl_shader_program`; the `ShaderProgram` wrapper, or a program not yet built, throws a TypeError |
| LegacyGraphics.GraphicsManager.AddVertexAttribute | src/graphics/graphics_manager.ts:147-168 | as written: with no active program nothing is registered or issued; with one, the buffer is bound and filled and then `getAttribLocation`, handed the wrapper, throws a TypeError, so no attribute is stored and `vertex_count` is unchanged |
| LegacyGraphics.GraphicsManager.AddVertexAttributeIntended | src/graphics/graphics_manager.ts:147-168 | passing the active program's `webgl_shader_program`: once the program is built the attribute is stored under its label, the buffer, enable and pointer calls are issued at the looked-up location and `vertex_count` becomes data length / size; before `build` it throws after the buffer calls |
| LegacyGraphics.GraphicsManager.SetVertexAttributeData | src/graphics/graphics_manager.ts:174-178 | for a registered label the buffer is rebound and updated and `vertex_count` becomes data length / size; an unregistered label throws a TypeError with nothing issued |
| SceneGraph.Node.constructor | src/node.ts:6-18 | a new node has its name, no parent and no children |
| SceneGraph.Node.RemoveChild | src/node.ts:42-50 | the first occurrence of the node leaves the list and the rest keep their order, the node's parent is cleared even when it was not a child, the removed callback fires once; consistent links stay consistent when the node was this node's child or had no parent (also lines 74-76) |
| SceneGraph.Node.PushChild | src/node.ts:20-28 | the node is detached from its previous parent (first occurrence removed, removed callback fired), appended here and adopted, and its ready callback fires once with the new parent; pushing to the current parent moves it to the end; consistent links stay consistent |
| SceneGraph.Node.Attach | src/node.ts:25-27 | a node with no parent is appended, adopted and readied |
| SceneGraph.Node.RemoveChildNamed | src/node.ts:51-76 | the node that `engine.get_node(name)` finds from the root loses its parent; the first direct child with that name is spliced out and its removed callback fires; with no such child the list and the callbacks are unchanged |
| SceneGraph.Node.WorldMatrix | src/node.ts:113-121 | the parent's local matrix times the node's own when the parent is of the same 2D or 3D kind, else the node's own matrix: one level only (also lines 142-150) |
| SceneGraph.NamedIndex | src/node.ts:59-68 | the loop's `index`: the first position of a child with the name, or the length when there is none |
| SceneGraph.HasChildNamedIff | src/node.ts:30-40 | `has_child(name)` holds exactly when some direct child has that name |
| SceneGraph.PreOrder | src/engine.ts:35-48 | the pre-order listing of a subtree starts with its root and stays inside the graph |
| SceneGraph.FirstNamed | src/engine.ts:38-45 | the first node of a listing with the name: null exactly when no node has it, otherwise a node with the name before which none has it |
| SceneGraph.FirstNamedAppend | src/engine.ts:41-45 | searching a concatenation finds the first part's match when it has one, else the second part's |
| SceneGraph.GetNodeSearch | src/engine.ts:35-48 | the recursive search with its early return finds the first node with the name in pre-order, children in list order |
| SceneGraph.SearchSkipsRest | src/engine.ts:42-44 | once a child's subtree yields a match the remaining children are not searched |
| SceneGraph.GetNodeSearchMeaning | src/engine.ts:35-48 | a non-null result has the name, the start node is returned when it matches, and the result is null exactly when no node of the subtree has the name |
| SceneGraph.RenderEventsAt | src/node.ts:79-83 | each rendered node contributes its update callback and then its `render_class`, in that order |
| SceneGraph.Render | src/node.ts:79-89 | `render` issues the update callback and `render_class` of every node of the subtree in pre-order, children in list order |
| SceneGraph.RenderChild | src/node.ts:85-87 | one turn of `render`'s child loop appends child `i`'s whole pre-order walk after those of the children before it |
| Engines.Engine.constructor | src/engine.ts:14-28 | the engine starts with a fresh `root_node` and `camera0` and three empty light rosters |
| Engines.Engine.GetNode | src/engine.ts:30-48 | `get_node` searches from `root_node`: a non-null result has the name and is the first pre-order match, and null means no node of the tree has it |
| Scenes.Scene.constructor | src/scene.ts:8-28 | the scene stores the root and camera it is given and starts with empty light rosters |
| Scenes.Scene.GetNode | src/scene.ts:30-51 | null when there is no root, otherwise the first pre-order node with the name |
| Scenes.Scene.Render | src/scene.ts:53-59 | with a root the whole tree is rendered in pre-order; without one nothing is rendered |
| LegacySceneGraph.Node.constructor | src/graphics/node.ts:4-6 | a new node has no parent and no children |
| LegacySceneGraph.Node.RemoveChild | src/graphics/node.ts:20-26 | only the first occurrence leaves the list, the rest keep their order, and the parent is always cleared |
| LegacySceneGraph.Node.PushChild | src/graphics/node.ts:8-14 | the node is detached from its previous parent, appended last here, and adopted; the receiver then has it as a child |
| LegacySceneGraph.Node.WorldMatrix | src/graphics/node.ts:53-61 | the parent's local matrix times the node's own when the parent is of the same kind, else the node's own (also lines 82-90) |
| LegacySceneGraph.Walk | src/graphics/node.ts:28-33 | the older render visits a node and then its children's subtrees in list order |
| LegacySceneGraph.WalkSameMatrices | src/graphics/node.ts:28-33 | every node of the subtree is rendered with the same three matrices |
| LegacySceneGraph.WalkAllSameMatrices | src/graphics/node.ts:30-32 | the children loop passes the same matrices to every child |
| LegacySceneGraph.Render | src/graphics/node.ts:28-33 | `render` logs the node's visit and recurses into every child in order, which is `Walk` |
| DrawFlags.AndBit | src/graphics/framebuffer.ts:50-52 | a binary digit of `a & b` is set exactly when it is set in both |
| DrawFlags.OrBit | src/graphics/framebuffer.ts:160-163 | a binary digit of `a \| b` is set exactly when it is set in either |
| DrawFlags.BitsDetermine | src/graphics/framebuffer.ts:50-52 | two bit sets with the same digits are equal, so `===` on the masked value is a test on digits |
| DrawFlags.Pow2Bit | src/graphics/framebuffer.ts:34-45 | `1 << k` has digit `k` and no other |
| DrawFlags.HasFlagDigits | src/graphics/framebuffer.ts:50-52 | `has_flag(b, f)` holds exactly when every digit of `f` is set in `b` |
| DrawFlags.HasFlagAsUnion | src/graphics/framebuffer.ts:50-52 | `has_flag(b, f)` holds exactly when `b \| f == b` |
| DrawFlags.HasFlagOfUnion | src/graphics/framebuffer.ts:50-52 | `b` has `f \| g` exactly when it has `f` and has `g` |
| DrawFlags.HasSingleFlag | src/graphics/framebuffer.ts:50-52 | `b` has the one-digit flag `1 << k` exactly when digit `k` of `b` is set |
| DrawFlags.Shift | src/graphics/framebuffer.ts:33-45 | every flag other than `DEPTH_TEST` sits on one of the twelve digits 0 to 11 |
| DrawFlags.DepthTestAlwaysSet | src/graphics/framebuffer.ts:33-52 | `DEPTH_TEST` is 0, so `has_flag(b, DEPTH_TEST)` holds for every `b` |
| DrawFlags.ShiftInverse | src/graphics/framebuffer.ts:34-45 | no two flags other than `DEPTH_TEST` share a digit |
| DrawFlags.FlagBitsDistinct | src/graphics/framebuffer.ts:34-52 | a single non-zero flag's value has exactly that flag |
| DrawFlags.CombineHasFlag | src/graphics/framebuffer.ts:34-52 | a bit set made by `\|` of a list of flags has exactly the listed flags and `DEPTH_TEST` |
| DrawFlags.ClearMaskDigits | src/graphics/framebuffer.ts:160-163 | the clear mask has the colour digit exactly when colour is in use, the depth digit exactly when depth is in use, and no other |
| DrawFlags.ClearMaskEmpty | src/graphics/framebuffer.ts:159-163 | the mask is 0 exactly when neither buffer is in use |
| DrawFlags.BufferBits | src/graphics/framebuffer.ts:161-162 | the digits used are those of `COLOR_BUFFER_BIT` (0x4000) and `DEPTH_BUFFER_BIT` (0x0100) |
| Framebuffers.CubeFaceCalls | src/graphics/framebuffer.ts:353-366 | one `framebufferTexture2D` per cube face, in the order +X, −X, +Y, −Y, +Z, −Z (also lines 386-399) |
| Framebuffers.CreateEffect | src/graphics/framebuffer.ts:207-238 | an attachment is processed exactly when its type is supported and an array type carries `texture_array_index`; otherwise it throws before any call with the bookkeeping unchanged; the name table and size are not its business |
| Framebuffers.AttachEffect | src/graphics/framebuffer.ts:83-92 | one turn of the constructor's loop succeeds exactly when the attachment is acceptable |
| Framebuffers.ColorCount | src/graphics/framebuffer.ts:291 | the colour attachments are at most all of them (also lines 319 and 373) |
| Framebuffers.AttachStep | src/graphics/framebuffer.ts:241-374 | an accepted colour attachment gets `COLOR_ATTACHMENT0 + color_attachment_count`, is pushed on the number list and raises the count; `use_color_buffer`/`use_depth_buffer` become true for colour/depth kinds; a `buffer_source` colour attachment becomes the read source; the entry is stored under its name (also line 85) |
| Framebuffers.AttachStepCalls | src/graphics/framebuffer.ts:241-400 | creating an attachment never rebinds the framebuffer |
| Framebuffers.AttachAllOutcome | src/graphics/framebuffer.ts:83-92 | the loop completes exactly when every attachment is acceptable |
| Framebuffers.AttachAllStopsAtFirstRefusal | src/graphics/framebuffer.ts:83-84 | the first unacceptable attachment throws its error, after exactly the calls of the attachments before it (also lines 236-237, 242-244 and 264-266) |
| Framebuffers.AttachAllNumbering | src/graphics/framebuffer.ts:274-291 | colour attachments are numbered `COLOR_ATTACHMENT0 + 0, +1, …` in input order, `color_attachment_count` is their number, and the in-use flags say whether any colour or depth attachment exists (also lines 302-319 and 349-373) |
| Framebuffers.AttachAllReadSource | src/graphics/framebuffer.ts:286-287 | the read source stays NONE exactly when no colour attachment is a buffer source, and otherwise is one of the colour numbers (also lines 314-315 and 368-369) |
| Framebuffers.AttachAllKeys | src/graphics/framebuffer.ts:85 | `attachment_info_map` has exactly the attachments' names as keys |
| Framebuffers.AttachAllEntry | src/graphics/framebuffer.ts:85 | the entry under a name is the last attachment with that name, with its colour number filled in (also lines 289, 317 and 371) |
| Framebuffers.AttachAllSize | src/graphics/framebuffer.ts:57-91 | width and height start at 0 and stay 0 with no attachments; after any attachment both are undefined, because neither texture class has a width, height or size property to copy |
| Framebuffers.DrawList | src/graphics/framebuffer.ts:93 | the draw-buffer list is the number list, or `[NONE]` when it is empty |
| Framebuffers.ReadTarget | src/graphics/framebuffer.ts:94-99 | `readBuffer(BACK)` when reading from the back buffer, else the read source, which is NONE when unset |
| Framebuffers.ConstructionOutcome | src/graphics/framebuffer.ts:81-106 | construction succeeds exactly when every attachment is acceptable and the status oracle says complete; on success the last call unbinds the framebuffer, and an unbind happens only on success |
| Framebuffers.AttachAllUnbindFree | src/graphics/framebuffer.ts:83-92 | the attachment loop never unbinds the framebuffer |
| Framebuffers.DrawBuffersListed | src/graphics/framebuffer.ts:79-93 | the draw-buffer list is `COLOR_ATTACHMENT0 + 0 … + n−1` for `n` colour attachments, or `[NONE]` |
| Framebuffers.ColorNumbersInRange | src/graphics/framebuffer.ts:274 | with at most sixteen colour attachments every number is a valid colour attachment enumerant (also lines 302 and 349) |
| Framebuffers.Bracketed | src/graphics/framebuffer.ts:113-115 | the bind-if-not-bound bracket adds no call when already bound, one `use` when the body throws, and `use` plus `unuse_framebuffer` otherwise (also lines 145-146) |
| Framebuffers.BracketedShape | src/graphics/framebuffer.ts:113-115 | when bound the calls are the body alone; otherwise `use`, then the body, then the unbind when the body finished (also lines 145-146, 150-152 and 166-167) |
| Framebuffers.BracketedState | src/graphics/framebuffer.ts:113-115 | afterwards the bound framebuffer is unchanged when it was bound, none after a finished body, and this one after a throw (also lines 145-146) |
| Framebuffers.LayerCallCases | src/graphics/framebuffer.ts:116-143 | `set_attachment_texture_index` re-targets the layer of exactly the two array kinds, colour at its number, depth at `DEPTH_ATTACHMENT`; an unknown name throws a TypeError and other kinds throw |
| Framebuffers.ClearBody | src/graphics/framebuffer.ts:153-164 | clearing changes none of the modelled state slots |
| Framebuffers.ClearBodyClears | src/graphics/framebuffer.ts:159-164 | a `clear` is issued exactly when a depth or colour buffer is in use, last, with the mask of the buffers in use, and only once |
| Framebuffers.ClearBodyValues | src/graphics/framebuffer.ts:153-158 | `clearDepth(1.0)` exactly when depth is in use and `clearColor` of the framebuffer's colour exactly when colour is in use |
| Framebuffers.ClearMaskBits | src/graphics/framebuffer.ts:160-163 | the mask has `COLOR_BUFFER_BIT` exactly when colour is used and `DEPTH_BUFFER_BIT` exactly when depth is used |
| Framebuffers.CubeFaceAttachmentAsWrittenMisses | src/graphics/framebuffer.ts:182 | the enumerant as written, `COLOR_ATTACHMENT0` plus a number that already holds it, lies outside the colour attachment range for every number the constructor hands out |
| Framebuffers.CubeFaceAttachmentHits | src/graphics/framebuffer.ts:182 | with the number itself as the enumerant the face call reaches the colour attachment the cube map was created on (also lines 349 and 371) |
| Framebuffers.FaceCallCases | src/graphics/framebuffer.ts:174-201 | `set_attachment_cube_map_texture_face` re-targets exactly the two cube-map kinds at level 0 to the given face; an unknown name throws a TypeError and other kinds throw; the colour enumerant is `COLOR_ATTACHMENT0` plus the stored number as written and the stored number as intended, and the two versions agree on everything else |
| Framebuffers.Framebuffer.constructor | src/graphics/framebuffer.ts:54-77 | the object starts with its name, handle, flags and clear colour and blank bookkeeping |
| Framebuffers.Framebuffer.CreateAttachment | src/graphics/framebuffer.ts:207-400 | `create_attachment` issues the calls of `AttachEffect` and leaves the bookkeeping as it says |
| Framebuffers.Framebuffer.AttachAllInfos | src/graphics/framebuffer.ts:83-92 | the constructor's loop issues `AttachAll`'s calls and ends in its bookkeeping |
| Framebuffers.Framebuffer.Entry | src/graphics/framebuffer.ts:116 | the lookup in `attachment_info_map`: present exactly for stored names (also line 174) |
| Framebuffers.Framebuffer.Use | src/graphics/framebuffer.ts:402-404 | `use` binds this framebuffer by name |
| Framebuffers.Framebuffer.RunBracketed | src/graphics/framebuffer.ts:112-147 | one re-targeting call inside the bind-if-not-bound bracket |
| Framebuffers.Framebuffer.SetAttachmentTextureIndex | src/graphics/framebuffer.ts:112-147 | the calls, outcome and bound framebuffer are `TextureIndexCalls`; it binds and unbinds only when the framebuffer was not already bound |
| Framebuffers.Framebuffer.SetAttachmentCubeMapTextureFace | src/graphics/framebuffer.ts:170-205 | the calls, outcome and bound framebuffer are `CubeFaceIndexCalls`, with the colour enumerant as written |
| Framebuffers.Framebuffer.ClearBuffers | src/graphics/framebuffer.ts:153-164 | the clear calls are `ClearBody` of the in-use flags and the clear colour |
| Framebuffers.Framebuffer.Clear | src/graphics/framebuffer.ts:149-168 | `clear` is `ClearBody` inside the bind-if-not-bound bracket, and the bound framebuffer ends as it started |
| Framebuffers.AttachEventsNeutral | src/graphics/framebuffer.ts:241-400 | creating attachments changes none of the modelled state slots |
| Framebuffers.NewFramebuffer | src/graphics/framebuffer.ts:69-106 | the framebuffer is bound, the attachments processed, the draw and read buffers set, then it is unbound; it is returned exactly when `ConstructionCalls` succeeds, with its bookkeeping, and otherwise the error is the construction's |
| Textures.TypeOf | src/graphics/assets/texture.ts:7-12 | a value is a texture type only when it is the string of that member (also line 45) |
| Textures.TypeOfName | src/graphics/assets/texture.ts:7-12 | each member's string is recognised as that member |
| Textures.Entries | src/graphics/assets/texture.ts:159 | `Object.entries` of the parameters throws exactly when they are undefined or null (also lines 219, 261, 302, 433 and 468) |
| Textures.ParameterCalls | src/graphics/assets/texture.ts:159-162 | one `texParameteri` per parameter entry |
| Textures.LastParameterAppend | src/graphics/assets/texture.ts:152-162 | the last setting of a parameter in two runs of calls is the second run's when it sets it, else the first's |
| Textures.ParameterCallsLast | src/graphics/assets/texture.ts:159-162 | the parameter loop leaves each parameter at the last entry for it |
| Textures.CallerParametersWin | src/graphics/assets/texture.ts:152-162 | with the built-in settings first and the caller's after, a parameter the caller sets ends at the caller's value, and any other at the built-in one |
| Textures.SetParameters | src/graphics/assets/texture.ts:159-162 | the loop issues exactly `ParameterCalls` and changes no modelled state |
| Textures.MaxLayers | src/graphics/assets/texture.ts:126 | `Math.max(n, 1)` layers for a count, 1 for null, NaN for anything else, never fewer than 1 (also line 211) |
| Textures.LayerUploads | src/graphics/assets/texture.ts:190-203 | one upload per image |
| Textures.LayerUploadsIndexed | src/graphics/assets/texture.ts:190-203 | image `i` is uploaded into layer `i` at the mip level and image type given |
| Textures.UploadLayers | src/graphics/assets/texture.ts:190-203 | the `for` loop issues exactly `LayerUploads` |
| Textures.Creator | src/graphics/assets/texture.ts:159-166 | a creator finishes exactly when its parameter entries can be read (also lines 219-229) |
| Textures.CreatorPrefix | src/graphics/assets/texture.ts:131-167 | a creator's calls start with its fixed head |
| Textures.TargetOf | src/graphics/assets/texture.ts:131-312 | every texture call with a target changes none of the modelled state slots |
| Textures.OnTargetNeutral | src/graphics/assets/texture.ts:131-312 | calls that all address one texture target change none of the modelled state slots |
| Textures.ParameterCallsOnTarget | src/graphics/assets/texture.ts:159-162 | parameter calls address the texture's own target |
| Textures.LayerUploadsOnTarget | src/graphics/assets/texture.ts:190-203 | layer uploads address `TEXTURE_2D_ARRAY` |
| Textures.CreatorOnTarget | src/graphics/assets/texture.ts:131-312 | a creator whose head and tail address one target addresses only it |
| Textures.DepthArrayHeadOnTarget | src/graphics/assets/texture.ts:135-157 | the depth-array head addresses `TEXTURE_2D_ARRAY` |
| Textures.ColorArrayHeadOnTarget | src/graphics/assets/texture.ts:173-217 | the colour-array storage calls address `TEXTURE_2D_ARRAY` |
| Textures.CreationDispatch | src/graphics/assets/texture.ts:117-129 | `create_texture` runs exactly the creator chosen by the type, which binds the texture first and, when it finishes, unbinds it last, addressing only that type's target; a type that is no member runs nothing |
| Textures.DepthArrayLayers | src/graphics/assets/texture.ts:126 | the depth array is allocated at level 0 with `UNSIGNED_INT` and `max(n, 1)` layers (1 for null) (also lines 139-150) |
| Textures.ColorArrayLayers | src/graphics/assets/texture.ts:176-217 | the colour array is allocated at its mip level with `max(n, 1)` layers for a count, or one layer per image, each image `i` then uploaded into layer `i` |
| Textures.DepthArrayCallerWins | src/graphics/assets/texture.ts:152-162 | on a depth array a caller parameter overrides the built-in filter, wrap and level settings |
| Textures.FinishCreator | src/graphics/assets/texture.ts:159-166 | the parameter loop and tail issue `Creator`'s calls with its outcome |
| Textures.CreatorSplit | src/graphics/assets/texture.ts:131-167 | issuing a head and then the rest of a creator is the whole creator |
| Textures.RunCreator | src/graphics/assets/texture.ts:131-167 | a creator's calls are issued in order and its outcome returned |
| Textures.CreateDepthArrayTexture | src/graphics/assets/texture.ts:131-167 | `create_depth_array_texture` issues `DepthArrayCalls` |
| Textures.CreateColorTexture | src/graphics/assets/texture.ts:232-271 | `create_color_texture` issues `Texture2DCalls` with `RGBA`/`RGBA` at the given mip level |
| Textures.CreateDepthTexture | src/graphics/assets/texture.ts:273-312 | `create_depth_texture` issues `Texture2DCalls` with `DEPTH_COMPONENT24`/`DEPTH_COMPONENT` at level 0 |
| Textures.CreateColorArrayTexture | src/graphics/assets/texture.ts:169-230 | `create_color_array_texture` issues `ColorArrayCalls` |
| Textures.AllocateColorArray | src/graphics/assets/texture.ts:176-217 | the allocation and per-image upload loop issue `ColorArrayStorage` |
| Textures.CreateTexture | src/graphics/assets/texture.ts:117-129 | the dispatch issues `CreationCalls` and returns its outcome |
| Textures.FormatsOf | src/graphics/assets/texture.ts:131-312 | the formats are the depth pair exactly for the two depth types and the RGBA pair exactly for the two colour types |
| Textures.CreationFormats | src/graphics/assets/texture.ts:131-312 | every allocation and upload of a creator passes its type's formats (`DEPTH_COMPONENT24`/`DEPTH_COMPONENT` at lines 136-137 and 277-278, `RGBA`/`RGBA` at lines 174-175 and 236-237), and its second call is the allocation, so a depth texture's log differs from a colour texture's |
| Textures.OrDefault | src/graphics/assets/texture.ts:75-77 | `x === undefined ? d : x`: the value when given, the default otherwise (also lines 94-96 and 106-108) |
| Textures.ImageLevelAsWrittenMisses | src/graphics/assets/texture.ts:107 | for an image with parameters and a mip level, the level as written is the parameter object itself, not the level; the intended `arg4` is the level |
| Textures.BlankDefaults | src/graphics/assets/texture.ts:45-62 | the blank constructor makes a texture of the named type at level 0 from null with the given size; the image type is the one passed when truthy, else `UNSIGNED_INT` for DEPTH and `UNSIGNED_BYTE` otherwise |
| Textures.CountTypeChecked | src/graphics/assets/texture.ts:63-78 | the count constructor throws unless the type is COLOR_ARRAY or DEPTH_ARRAY, and then creates from the count |
| Textures.ImagesTypeChecked | src/graphics/assets/texture.ts:80-97 | the image-list constructor throws unless the type is COLOR_ARRAY, and then creates a colour array from the list |
| Textures.ImageShape | src/graphics/assets/texture.ts:98-109 | any other first argument is one image of the given type, at level 0 when no level is passed and otherwise at `arg3`, as written |
| Textures.ImageShapeIntended | src/graphics/assets/texture.ts:98-109 | reading the level from `arg4` changes only the level of a single image, which becomes the passed level; every other shape creates exactly what the program as written creates |
| Textures.Texture.constructor | src/graphics/assets/texture.ts:14-18 | the object records its name, type and handle |
| Textures.NewTexture | src/graphics/assets/texture.ts:41-129 | a wrong type argument throws before any call; otherwise the chosen creator's calls are issued, with a single image's level read as written, and the texture is returned exactly when it finishes, with its type and a handle only when the type is a member |
| Textures.FaceAllocations | src/graphics/assets/texture.ts:414-425 | one allocation per face |
| Textures.FaceUploads | src/graphics/assets/texture.ts:456-458 | one upload per face |
| Textures.FaceAllocationsIndexed | src/graphics/assets/texture.ts:414-425 | face `i` is allocated on `TEXTURE_CUBE_MAP_POSITIVE_X + i` with `DEPTH_COMPONENT24`/`DEPTH_COMPONENT`, size × size and no data |
| Textures.FaceUploadsIndexed | src/graphics/assets/texture.ts:446-458 | image `i` is uploaded on `TEXTURE_CUBE_MAP_POSITIVE_X + i` with `RGBA`/`RGBA` |
| Textures.FaceImages | src/graphics/assets/texture.ts:393-400 | six images, in the order right, left, top, bottom, front, back |
| Textures.CubeDepthAllocatesAllFaces | src/graphics/assets/texture.ts:373-379 | without a sixth argument the cube map binds its texture and allocates all six faces +X … −Z at the mip level (default 0) with the image type (default `UNSIGNED_INT`) (also lines 409-425) |
| Textures.CubeImageFaceOrder | src/graphics/assets/texture.ts:380-400 | with images, right, left, top, bottom, front and back go to +X, −X, +Y, −Y, +Z, −Z, with the image type defaulting to `UNSIGNED_BYTE` (also lines 441-458) |
| Textures.AllocateFaces | src/graphics/assets/texture.ts:414-425 | the six-face `for` loop issues `FaceAllocations` |
| Textures.UploadFaces | src/graphics/assets/texture.ts:456-458 | the `forEach` over the targets issues `FaceUploads` |
| Textures.CubeMapTexture.constructor | src/graphics/assets/texture.ts:315-317 | the object records its handle |
| Textures.StartCubeDepth | src/graphics/assets/texture.ts:412-431 | the depth path's bind, face allocations and built-in parameters |
| Textures.StartCubeImages | src/graphics/assets/texture.ts:444-466 | the image path's bind, uploads, mipmap and built-in parameters |
| Textures.NewCubeMapTexture | src/graphics/assets/texture.ts:370-474 | the cube map issues `CubeMapCalls` and is returned exactly when they finish |
| Vaos.CubeVertices | src/graphics/assets/vaos.ts:23-32 | the cube has 24 floats: eight corners of three coordinates |
| Vaos.CubeIndices | src/graphics/assets/vaos.ts:34-41 | 36 indices, twelve triangles, every one below the 8 corners |
| Vaos.QuadVertices | src/graphics/assets/vaos.ts:75-80 | the quad has 20 floats, five per vertex |
| Vaos.QuadIndices | src/graphics/assets/vaos.ts:82-85 | 6 indices, every one below the 4 vertices |
| Vaos.SetupUnbinds | src/graphics/assets/vaos.ts:47-66 | after either set-up no vertex array is bound (also lines 91-131) |
| Vaos.VaoCache.constructor | src/graphics/assets/vaos.ts:5-11 | both caches start empty |
| Vaos.VaoCache.GetSkyboxVao | src/graphics/assets/vaos.ts:19-69 | the first call builds the cube VAO and caches it with `index_count` 36 and `vertex_count` 24, the float count and not the vertex count, leaving no VAO bound; every later call returns the cached values and issues nothing |
| Vaos.VaoCache.GetSpriteVao | src/graphics/assets/vaos.ts:71-135 | the first call builds the quad VAO and caches it with `index_count` 6 and `vertex_count` 20 / 5 = 4, leaving no VAO bound; later calls return the cache and issue nothing |
| Vaos.ReplayVaoOnly | src/graphics/assets/vaos.ts:47-66 | buffer set-up calls change only the bound vertex array |
| LegacyAssets.Mesh.constructor | src/graphics/assets.ts:9-54 | `vertexCount` is the vertex array's length over three and `indexCount` the index count; the three attribute buffers (locations 0, 1, 2 with 3, 3, 2 floats) and the index buffer are recorded into the new VAO, which is unbound at the end |
| LegacyAssets.Mesh.Draw | src/graphics/assets.ts:56-60 | one triangle draw of every index between binding the VAO and unbinding it, so no VAO is left bound |
| LegacyAssets.ResolveProgram | src/graphics/assets.ts:105-116 | a program instance is taken as is; a non-empty name gives the program registered under it, and null when the name is unregistered; no argument or the empty name, both falsy, give null |
| LegacyAssets.Labels | src/graphics/assets.ts:99 | the labels of the texture table in insertion order, one per entry (also line 137) |
| LegacyAssets.Lookup | src/graphics/assets.ts:99 | a label has a texture exactly when it is among the table's labels (also line 130) |
| LegacyAssets.Put | src/graphics/assets.ts:129-131 | `textures[key] = t` keeps the labels distinct, appends a new label at the end and leaves an existing one in its place, makes `key` map to `t` and leaves every other label's texture unchanged |
| LegacyAssets.PutLookup | src/graphics/assets.ts:130 | overwriting the entry of an existing label changes that label's texture only |
| LegacyAssets.TexturesEffect | src/graphics/assets.ts:137-139 | the uploads of `draw_start` keep the registry's labels and well-formedness, and the only way they fail is the `TypeError` of a `set_uniform` |
| LegacyAssets.TexturesEffectLinked | src/graphics/assets.ts:137-139 | with a linked program the uploads succeed exactly when every texture label is a registered uniform |
| LegacyAssets.TexturesEffectUnlinked | src/graphics/assets.ts:137-139 | with no linked program the uploads succeed exactly when every texture label is registered and already has a location, and then the registry is unchanged |
| LegacyAssets.TexturesEffectStops | src/graphics/assets.ts:137-139 | after the first `set_uniform` that throws, no later entry is uploaded |
| LegacyAssets.Model.constructor | src/graphics/assets.ts:101-119 | the program is the constructor's resolution of its argument, and the texture table holds exactly `albedo_texture` |
| LegacyAssets.Model.SetShaderProgram | src/graphics/assets.ts:121-127 | an instance is taken as is; a name gives the program registered under it, or null (`undefined`) when there is none, with no falsy-name special case |
| LegacyAssets.Model.AddTexture | src/graphics/assets.ts:129-131 | the table becomes `Put` of the old table, one entry inserted or overwritten and the labels still distinct |
| LegacyAssets.Model.DrawStart | src/graphics/assets.ts:133-140 | without a program it throws and changes nothing; a program whose name is unregistered makes `use` throw, leaving no program active and no uniform table touched; otherwise the program is made current and the uniform uploads are exactly `TexturesEffect` of the table, in order, on that program alone |
| LegacyAssets.Model.UploadTextures | src/graphics/assets.ts:137-139 | the loop's outcome, registry and calls are those of `TexturesEffect` over the whole table |
| LegacyAssets.Model.DrawEnd | src/graphics/assets.ts:142-144 | the mesh's draw bracket, leaving no VAO bound |
| Models.Model.constructor | src/graphics/assets/model.ts:11-19 | the model keeps its mesh and material |
| Models.Model.DrawStart | src/graphics/assets/model.ts:22-25 | during the depth pass nothing is issued; otherwise the material's `draw_start` runs (its events, or its throw without a program), and the depth-pass flag is unchanged either way |
| Models.Model.DrawEnd | src/graphics/assets/model.ts:27-31 | the mesh draws, then during an ordinary pass the material's `draw_end` follows; during the depth pass nothing else |
| Models.ModelBracket | src/graphics/assets/model.ts:22-31 | a draw bracketed by `draw_start` and `draw_end` leaves the whole modelled state as it was during the depth pass, and otherwise ends with depth test and blending off and no program current |
| Materials.ResolveProgram | src/graphics/assets/material.ts:48-56 | a program instance is taken as is; a non-empty name gives the program registered under it, or null when none is; no argument or the empty name gives null |
| Materials.KeyedWrites | src/graphics/assets/material.ts:78-109 | `set_uniforms` writes eight uniforms with a normal texture and seven without |
| Materials.Named | src/graphics/assets/material.ts:80-107 | each write goes to the uniform named for its key, values unchanged and order kept |
| Materials.KeySet | src/graphics/assets/material.ts:78-109 | every written key is in the set of written keys |
| Materials.KeySetAppend | src/graphics/assets/material.ts:78-109 | the keys of consecutive writes are the union of each part's keys |
| Materials.MaterialFlags | src/graphics/assets/material.ts:79-108 | in order: the normal flag (and the texture when there is one), then for albedo, metalic and roughness the `has_..._texture` flag set exactly when the channel is a texture, followed by the texture or the constant value |
| Materials.KeyedWritesKeys | src/graphics/assets/material.ts:79-108 | the keys written are exactly the four flags, the normal texture when present, and per channel either its texture or its value |
| Materials.KeySetPair | src/graphics/assets/material.ts:79-108 | the keys of two writes are those two keys |
| Materials.MaterialKeys | src/graphics/assets/material.ts:79-108 | a channel's texture uniform is written exactly when it is a texture and its value uniform exactly when it is a constant; the normal never gets a value uniform and `ao` is never written |
| Materials.StartEventsState | src/graphics/assets/material.ts:115-127 | after `draw_start`'s state calls the depth test is on exactly when `enable_depth_test`, blending is on exactly when a blend function is set, and the material's program is current; nothing else changes |
| Materials.EndEventsState | src/graphics/assets/material.ts:132-141 | `draw_end` turns the depth test off only when the material enabled it, blending off only when it has a blend function, and always clears the program |
| Materials.BracketClears | src/graphics/assets/material.ts:111-141 | `draw_start`, then calls that touch no state, then `draw_end` always end with the depth test and blending off and no program, with framebuffer and depth pass unchanged |
| Materials.Material.constructor | src/graphics/assets/material.ts:29-62 | fields are kept as given, the program is resolved from the argument, `enable_depth_test` defaults to true when the option is undefined, and the blend function is the option's |
| Materials.Material.SetShaderProgram | src/graphics/assets/material.ts:64-70 | an instance is taken as is; a name gives the registered program, or null (`undefined`) when there is none |
| Materials.Material.SetUniforms | src/graphics/assets/material.ts:78-109 | exactly the named writes in order, with the state unchanged |
| Materials.Material.SetShaderUniforms | src/graphics/assets/material.ts:72-76 | the given program is made current, the material's uniforms are written, then the program is cleared |
| Materials.Material.DrawStart | src/graphics/assets/material.ts:111-130 | without a program it throws and issues nothing; otherwise it sets the depth test and blending from the options, makes the program current and writes the uniforms |
| Materials.Material.DrawEnd | src/graphics/assets/material.ts:132-141 | the state becomes that of `EndEventsState` |
| Lights.LabelKey | src/node/lights.ts:39-43 | every slot `${array_name}[${index}].field` normalises to the one registry key `[]array_name.field`, whatever the index (also lines 69-70) |
| Lights.Fields | src/node/lights.ts:39-43 | every kind writes its own fields first and ends with `color`, `ambient`, `diffuse`, `specular`, `energy` in that order (also lines 69-70, 121-124 and 161) |
| Lights.StateWrites | src/node/lights.ts:38-44 | one write per field of the light's kind, in order (also lines 67-72, 109-126 and 156-163) |
| Lights.Light.constructor | src/node/lights.ts:13-28 | a fresh parentless, childless 3-D node with the given name and local matrix, and the given colour, factors, energy, range and cookie radius (also lines 50-65, 90-107 and 141-154) |
| Lights.Light.State | src/node/lights.ts:68 | a light's uniform inputs are taken for its own kind (also lines 110 and 157) |
| Lights.Light.SetUniforms | src/node/lights.ts:38-44 | exactly the `StateWrites` of the light's current state, in order, with the modelled state unchanged (also lines 67-72, 109-126 and 156-163) |
| Lights.Light.SetShaderUniforms | src/node/lights.ts:32-36 | the program is made current, the light's writes follow, then the program is cleared |
| Lights.Light.OnParented | src/node/lights.ts:74-76 | the light joins the end of its own kind's roster and the other rosters are unchanged (also lines 128-130 and 165-167) |
| Lights.Light.OnRemoved | src/node/lights.ts:78-83 | the first occurrence of the light leaves its kind's roster, nothing happens when it is absent, and the other rosters are unchanged (also lines 132-137 and 169-174) |
| Lights.Rosters.constructor | src/node/lights.ts:75 | all three rosters start empty (also lines 129 and 166) |
| Lights.ParentedThenRemoved | src/node/lights.ts:74-83 | a light that was not in a roster, joins it and then leaves it, restores it exactly |
| PointLights.LookatTable | src/node/lights/point_light.ts:12-19 | the six faces are +X, -X, +Y, -Y, +Z, -Z in that order; the Y faces take +Z and -Z as up and every other face takes +Y |
| PointLights.FaceMatrixAlongAxis | src/node/lights/point_light.ts:72-84 | face `i`'s matrix is the projection times the view from the light towards the point one unit along face `i`'s axis, with that face's up vector |
| PointLights.FaceLoopSticks | src/node/lights/point_light.ts:116-133 | once a face throws, the later faces issue nothing |
| PointLights.Marks | src/node/lights/point_light.ts:118-131 | keeping only the layer switches, uniform writes and scene renders never lengthens a call sequence |
| PointLights.MarksAppend | src/node/lights/point_light.ts:116-133 | the kept calls of consecutive sequences are the kept calls of each, in order |
| PointLights.ClearHasNoMarks | src/node/lights/point_light.ts:120 | `framebuffer.clear()` issues no layer switch, uniform write or render |
| PointLights.MarksOfFace | src/node/lights/point_light.ts:118-131 | of one face's calls the kept ones are its layer switch, its `u_light_space_matrix` write and its render, in that order |
| PointLights.BlocksOfAppend | src/node/lights/point_light.ts:116-133 | appending one face's three kept calls leaves the earlier faces' blocks in place and puts the new face's block last |
| PointLights.InFaceOrderExtend | src/node/lights/point_light.ts:116-133 | adding face `n`'s block after the blocks of faces 0 to n-1 gives the blocks of faces 0 to n |
| PointLights.FaceLoopOrder | src/node/lights/point_light.ts:116-133 | when the layer switch is possible every face succeeds, and face `i` switches the depth attachment to layer `shadow_index_offset + i`, writes matrix `i` and renders the scene, faces in order 0 to 5 |
| PointLights.FaceMarks | src/node/lights/point_light.ts:116-133 | face `n-1` adds exactly its layer switch, matrix write and render to the kept calls |
| PointLights.FaceLoopOutcome | src/node/lights/point_light.ts:116-133 | the six faces succeed exactly when the framebuffer's depth attachment can be switched to a layer; otherwise the first face throws that error before issuing anything |
| PointLights.FaceLoopDone | src/node/lights/point_light.ts:116-133 | with a usable depth attachment no face throws |
| PointLights.FaceLoopNeutral | src/node/lights/point_light.ts:116-133 | the faces change none of the modelled state, and the scene is rendered only when there is at least one face |
| PointLights.PassHeadState | src/node/lights/point_light.ts:97-114 | the start of the pass turns the depth pass on and makes the shadow program and the shadow framebuffer current; nothing else changes |
| PointLights.PassTailState | src/node/lights/point_light.ts:135-139 | the end of the pass unbinds the framebuffer, clears the program and turns the depth pass off |
| PointLights.PassState | src/node/lights/point_light.ts:95-143 | a pass that completes leaves no program, no framebuffer and the depth pass off; a pass that throws leaves the shadow program, the shadow framebuffer and the depth pass on |
| PointLights.PassDepthMode | src/node/lights/point_light.ts:97 | every scene render during the pass happens with the depth pass on (also lines 126-131) |
| PointLights.UniformCallsOutcome | src/node/lights/point_light.ts:145-151 | `set_uniforms` writes position and range, then throws when the shared framebuffer has no depth attachment; otherwise it writes the depth texture and all six matrices to `u_point_light_space_matrix[index * 6]` |
| PointLights.PointLight.ParentWorld | src/node/lights/point_light.ts:99-100 | a parent world matrix is looked at exactly when the parent is a 3-D node, and it is that parent's world matrix |
| PointLights.PointLight.constructor | src/node/lights/point_light.ts:28-61 | a fresh parentless 3-D node whose range is the given one, whose projection is the shadow projection of that range, whose six face matrices fit it, whose cached parent matrix is the identity and whose offset is six times the number of point lights already registered |
| PointLights.PointLight.UpdateLsms | src/node/lights/point_light.ts:72-84 | the six face matrices fit the current projection and world position |
| PointLights.PointLight.SetRange | src/node/lights/point_light.ts:63-70 | the getter returns the new range, the projection is rebuilt for it and the face matrices fit the new projection (also lines 86-89) |
| PointLights.PointLight.OnChangePosition | src/node/lights/point_light.ts:91-93 | the face matrices fit the new position |
| PointLights.PointLight.RefreshCache | src/node/lights/point_light.ts:99-106 | the face matrices are recomputed, and the cached parent matrix replaced, exactly when a 3-D parent's world matrix differs from the cached one; otherwise both are kept |
| PointLights.PointLight.ClearAndDraw | src/node/lights/point_light.ts:120-131 | clear calls, the face's matrix write and the scene render, with the state unchanged |
| PointLights.PointLight.RenderFace | src/node/lights/point_light.ts:118-131 | one face's calls, or the layer switch's throw with nothing issued |
| PointLights.PointLight.RenderFaces | src/node/lights/point_light.ts:116-133 | the loop issues exactly the six faces' calls up to the first throw, with the state unchanged |
| PointLights.PointLight.SetUpPass | src/node/lights/point_light.ts:109-114 | the shadow program and framebuffer become current and `origin` and `range` are written |
| PointLights.PointLight.RenderPass | src/node/lights/point_light.ts:109-139 | set-up, the faces and, when no face threw, the tail; the state after is as in `PassState` without the depth-pass flag |
| PointLights.PointLight.RunPass | src/node/lights/point_light.ts:97-139 | the parent cache is refreshed and the calls are exactly `PassCalls`, with the state after it that `PassState` describes |
| PointLights.PointLight.DrawShadowMap | src/node/lights/point_light.ts:95-143 | without a main 3-D camera it throws and changes nothing; otherwise it is `RunPass` |
| PointLights.PointLight.SetUniforms | src/node/lights/point_light.ts:145-151 | exactly `UniformCalls` of the light's position, range, depth attachment and face matrices, with the state unchanged |
| PointLights.PointLight.OnParented | src/node/lights/point_light.ts:156-159 | the light joins the end of the point-light roster, then the shadow map is resized |
| PointLights.PointLight.OnRemoved | src/node/lights/point_light.ts:161-168 | the first occurrence leaves the roster if present, and the shadow map is resized either way |
| PointLights.Roster.constructor | src/node/lights/point_light.ts:58 | the point-light roster starts empty (also line 157) |
| PointLights.OffsetsCollideAfterRemoval | src/node/lights/point_light.ts:58 | after a light is removed from the middle of the roster, a light created next gets the same offset as the last remaining light, because offsets are fixed at construction (also lines 161-166) |
| DirectionalLights.Corners | src/node/lights/directional_light.ts:108-125 | eight corners, corner `k` being the `k`-th of the nested x, y, z loops |
| DirectionalLights.CornerOrder | src/node/lights/directional_light.ts:111-120 | corner `4x + 2y + z` is the NDC point `(2x-1, 2y-1, 2z-1, 1)` taken through the inverse and divided by its `w`, every coordinate being -1 or 1 |
| DirectionalLights.CornerDigits | src/node/lights/directional_light.ts:111-113 | the loop counters are recovered from the corner's index |
| DirectionalLights.CornersDistinct | src/node/lights/directional_light.ts:111-119 | the eight NDC points are pairwise distinct |
| DirectionalLights.FrustumCorners | src/node/lights/directional_light.ts:108-125 | the three nested loops push exactly `Corners` of the inverted `projection * view` |
| DirectionalLights.PassTargetsShadowIndex | src/node/lights/directional_light.ts:35-74 | the pass succeeds exactly when the depth attachment can be switched to a layer; the only layer switched to is the light's `shadow_index`; the scene is rendered once, right before the three closing calls, with the depth pass on |
| DirectionalLights.LayerCallsState | src/node/lights/directional_light.ts:45-74 | after a successful layer switch the rest of the pass ends with no program, no framebuffer and the depth pass off; a failed switch issues nothing |
| DirectionalLights.PassState | src/node/lights/directional_light.ts:35-74 | a pass that completes leaves no program, no framebuffer and the depth pass off; one that throws leaves the shadow program, the shadow framebuffer and the depth pass on |
| DirectionalLights.UniformCallsSlots | src/node/lights/directional_light.ts:80-93 | without a main 3-D camera `set_uniforms` throws and writes nothing; otherwise it writes the rotation of slot `index` and then the light's light-space matrix to `u_directional_light_space_matrix[index]` |
| DirectionalLights.DirectionalLight.constructor | src/node/lights/directional_light.ts:14-33 | a fresh parentless 3-D node with the shared framebuffer and the program, whose shadow index is the number of directional lights already registered and whose light-space matrix is the identity |
| DirectionalLights.DirectionalLight.OpenPass | src/node/lights/directional_light.ts:38-42 | the depth pass is turned on and the shadow program and framebuffer become current |
| DirectionalLights.DirectionalLight.ClearLayer | src/node/lights/directional_light.ts:47 | the framebuffer's clear calls, with the state unchanged |
| DirectionalLights.DirectionalLight.FitLightSpace | src/node/lights/directional_light.ts:49-59 | the light-space matrix is refitted to the camera's frustum along the light's direction |
| DirectionalLights.DirectionalLight.DrawLayer | src/node/lights/directional_light.ts:61-74 | the light-space matrix is written and the scene rendered, then framebuffer, program and depth pass are cleared |
| DirectionalLights.DirectionalLight.FinishPass | src/node/lights/directional_light.ts:47-74 | clear, refit, write, render and close, ending with no program, no framebuffer and the depth pass off |
| DirectionalLights.DirectionalLight.LayerPass | src/node/lights/directional_light.ts:45-74 | the calls after opening are exactly `LayerCalls`; a failed switch keeps the old light-space matrix and the state |
| DirectionalLights.DirectionalLight.RunPass | src/node/lights/directional_light.ts:38-74 | the calls are exactly `PassCalls`, the matrix is refitted only when the pass completes, and the state after is that of `PassState` |
| DirectionalLights.DirectionalLight.DrawShadowMap | src/node/lights/directional_light.ts:35-78 | without a main 3-D camera it throws and changes nothing; otherwise it is `RunPass` with that camera |
| DirectionalLights.DirectionalLight.SetUniforms | src/node/lights/directional_light.ts:80-93 | exactly `UniformCalls` for the current world and light-space matrices, with the state unchanged |
| DirectionalLights.DirectionalLight.OnParented | src/node/lights/directional_light.ts:95-98 | the light joins the end of the directional roster, then the shadow map is resized |
| DirectionalLights.DirectionalLight.OnRemoved | src/node/lights/directional_light.ts:100-106 | the first occurrence leaves the roster if present, and the shadow map is resized either way |
| DirectionalLights.Roster.constructor | src/node/lights/directional_light.ts:30 | the directional roster starts empty (also line 96) |
| Objects.States | src/node/object3d.ts:21-40 | one light state per roster entry, each that light's own |
| Objects.CountWrite | src/node/object3d.ts:25-42 | `${array}_count` is written, with the number of lights, only when the roster is non-empty |
| Objects.SlotWritesAt | src/node/object3d.ts:20-24 | light `k` of a roster writes its own fields into slot `k`, right after the writes of the lights before it |
| Objects.SlotWritesLength | src/node/object3d.ts:20-24 | every light in a roster writes at least its five common fields |
| Objects.WriteSlot | src/node/object3d.ts:22 | one light's writes for its slot are appended, with the modelled state unchanged |
| Objects.WriteSlots | src/node/object3d.ts:19-24 | the loop over a roster appends every light's writes, light `k` under slot `k`, in roster order, with the state unchanged |
| Objects.WriteCount | src/node/object3d.ts:25-26 | the count write, when there is one, is appended, with the state unchanged |
| Objects.WriteRoster | src/node/object3d.ts:20-26 | a roster's loop writes every light into its slot in roster order, then the count when the roster is non-empty |
| Objects.ObjectUniforms | src/node/object3d.ts:17-49 | the uniforms of `render_class` are the camera position, then the point, spot and directional rosters in that order, then `u_model`, `u_view` and `u_projection` |
| Objects.WriteObjectUniforms | src/node/object3d.ts:17-49 | the calls between `draw_start` and `draw_end` are exactly those uniforms, the model matrix being the node's world matrix, with the state unchanged |
| Objects.Object3D.constructor | src/node/object3d.ts:9-12 | a fresh parentless 3-D node with the given name and local matrix, holding the model |
| Objects.Object3D.RenderClass | src/node/object3d.ts:13-52 | when the model's `draw_start` throws nothing is issued and the throw propagates; otherwise the model's start calls, the object uniforms of the three rosters and the model's end calls are issued in that order, also during the depth pass |
| ShadowFaces.Abs | src/shaders/default_3d.fs.ts:132 | the absolute value is non-negative and equals the value or its negation |
| ShadowFaces.Face | src/shaders/default_3d.fs.ts:134-146 | the face picked is one of the six |
| ShadowFaces.FaceIndex | src/shaders/default_3d.fs.ts:131-149 | the index returned lies in the six layers starting at `origin` |
| ShadowFaces.AxisChoice | src/shaders/default_3d.fs.ts:137-146 | X is chosen exactly when its magnitude is at least both others, Y exactly when X is not and Y's is at least Z's, Z otherwise; ties go to the earlier axis |
| ShadowFaces.SignChoice | src/shaders/default_3d.fs.ts:139-145 | the even (positive) face of the axis is chosen exactly when the component is strictly positive, so zero picks the negative face |
| ShadowFaces.Dominant | src/shaders/default_3d.fs.ts:137-146 | the chosen axis has the largest magnitude of the three |
| ShadowFaces.AlongAxis | src/node/lights/point_light.ts:12-19 | the projection of a direction on face `j`'s axis is that axis's component, negated for the odd faces |
| ShadowFaces.BestAligned | src/shaders/default_3d.fs.ts:131-149 | of the six cube faces the point light renders, the shader picks one whose look axis is most aligned with the direction, so lookup and rendering agree on the face order |
| ShadowFaces.LightLayers | src/shaders/default_3d.fs.ts:158 | light `index` reads only its own six layers `6*index .. 6*index+5`, below `6 * lights`, matching the offsets point lights render to |
| ObjText.Split | src/graphics/assets/asset_loaders/obj.ts:34 | `split` on one character always gives at least one part (also line 66) |
| ObjText.SplitJoin | src/graphics/assets/asset_loaders/obj.ts:34 | joining the parts with the separator gives back the string, and no part contains the separator (also line 66) |
| ObjText.SplitWithout | src/graphics/assets/asset_loaders/obj.ts:66 | a string without the separator splits into itself alone |
| ObjText.Squeezed | src/graphics/assets/asset_loaders/obj.ts:36 | the line with its white space removed contains no white space |
| ObjText.ConcatAppend | src/graphics/assets/asset_loaders/obj.ts:36 | concatenating consecutive word lists is concatenating each |
| ObjText.RunsShape | src/graphics/assets/asset_loaders/obj.ts:36 | the white-space-separated runs are non-empty, contain no white space and spell out the line's other characters in order |
| ObjText.Words | src/graphics/assets/asset_loaders/obj.ts:36-37 | `trim().split(/\s+/)` never gives an empty array |
| ObjText.WordsShape | src/graphics/assets/asset_loaders/obj.ts:36 | a line splits into `[""]` exactly when it is blank; otherwise into non-empty words without white space that spell out its other characters |
| ObjText.Numbers | src/graphics/assets/asset_loaders/obj.ts:41-57 | `map(Number)` gives one number per token |
| ObjText.Lookup | src/graphics/assets/asset_loaders/obj.ts:67-71 | `table[index - 1]` is defined exactly when the index is a number from 1 to the table's length, and is then that entry |
| ObjText.Triangulated | src/graphics/assets/asset_loaders/obj.ts:81-87 | a face gives whole triangles made only of its own vertices, and gives any at all exactly when it has three or four vertices |
| ObjText.FaceVerticesFailSticks | src/graphics/assets/asset_loaders/obj.ts:64-79 | once a face-vertex token throws, the whole face throws that error |
| ObjText.ReadFaceVertex | src/graphics/assets/asset_loaders/obj.ts:65-78 | one iteration of the face loop computes exactly `FaceVertex` |
| ObjText.ReadFace | src/graphics/assets/asset_loaders/obj.ts:61-87 | the face loop and its triangulation compute exactly `FaceLine` |
| ObjText.FaceVertexCases | src/graphics/assets/asset_loaders/obj.ts:65-78 | a token seen before gives its stored index and changes nothing; a new one throws exactly when its position is missing, and otherwise becomes the next vertex, with three more positions, `(0, 0)` as uv and `(0, 0, 0)` as normal when those are missing |
| ObjText.IndicesBelowGrow | src/graphics/assets/asset_loaders/obj.ts:73 | an index below `n` stays below a larger bound |
| ObjText.ExtendsTrans | src/graphics/assets/asset_loaders/obj.ts:64-79 | keeping earlier tokens' indices is transitive across face-vertex steps |
| ObjText.TokenSetMembers | src/graphics/assets/asset_loaders/obj.ts:64 | the distinct tokens of a face are exactly its members |
| ObjText.FaceVertexCounted | src/graphics/assets/asset_loaders/obj.ts:65-78 | a successful step keeps three positions per distinct token, every earlier index and one-to-one numbering, returns an index below the new count, adds its token to the map and, for a new token, numbers it with the count so far |
| ObjText.FaceVerticesKeys | src/graphics/assets/asset_loaders/obj.ts:64-79 | a successful face gives one index per token and adds exactly its tokens to the map |
| ObjText.FaceVerticesExtend | src/graphics/assets/asset_loaders/obj.ts:64-79 | a successful face keeps that bookkeeping and every earlier index |
| ObjText.FaceVerticesBelow | src/graphics/assets/asset_loaders/obj.ts:64-79 | every index of a successful face is below the number of distinct vertices |
| ObjText.AddTriangles | src/graphics/assets/asset_loaders/obj.ts:81-87 | triangulating a face of valid indices keeps every triangle index below the vertex count |
| ObjText.FaceLineCounted | src/graphics/assets/asset_loaders/obj.ts:59-88 | a successful `f` line keeps the bookkeeping and the tables, adds its tokens to the map, and adds three indices for a triangle, six for a quad and none otherwise |
| ObjText.Trunc | src/graphics/assets/asset_loaders/obj.ts:96 | truncation toward zero never increases a non-negative number |
| ObjText.ToUint16 | src/graphics/assets/asset_loaders/obj.ts:96 | the stored value is below 65536 |
| ObjText.Uint16Array | src/graphics/assets/asset_loaders/obj.ts:96 | one stored value per index |
| ObjText.Uint16OfIndex | src/graphics/assets/asset_loaders/obj.ts:96 | a vertex index is stored modulo 65536, never above itself, and unchanged while there are at most 65536 vertices |
| ObjText.Uint16Collides | src/graphics/assets/asset_loaders/obj.ts:96 | vertex 65536 is stored as vertex 0 |
| ObjLoader.RunFailSticks | src/graphics/assets/asset_loaders/obj.ts:35-90 | once a line throws, the whole parse throws that error |
| ObjLoader.ReadLine | src/graphics/assets/asset_loaders/obj.ts:36-89 | one iteration of the line loop computes exactly `LineStep` |
| ObjLoader.ParseObj | src/graphics/assets/asset_loaders/obj.ts:19-100 | the loop over `text.split("\n")` computes exactly `ParseAsWritten`, with the maxima starting at `Number.MIN_VALUE` |
| ObjLoader.UnknownLineIgnored | src/graphics/assets/asset_loaders/obj.ts:39-89 | a line whose first word is not `v`, `vn`, `vt` or `f` (comments, `o`, `s`, `usemtl`, blank lines) changes nothing |
| ObjLoader.VertexLineStoresThree | src/graphics/assets/asset_loaders/obj.ts:40-52 | a `v` line never throws and appends exactly one entry of three coordinates, missing ones NaN and extra ones dropped, leaving the output vertices alone |
| ObjLoader.LineStepCounted | src/graphics/assets/asset_loaders/obj.ts:39-89 | every line keeps the vertex bookkeeping and three coordinates per `v` entry |
| ObjLoader.RunCounted | src/graphics/assets/asset_loaders/obj.ts:35-90 | so does the whole loop |
| ObjLoader.ParsedMesh | src/graphics/assets/asset_loaders/obj.ts:19-100 | a parse that does not throw returns three positions per distinct face-vertex token and whole triangles, every stored index naming one of those vertices, and the indices exactly as computed while there are at most 65536 vertices |
| ObjLoader.WidenGet | src/graphics/assets/asset_loaders/obj.ts:43-49 | each axis of the box is the running minimum and maximum of that axis, NaN leaving it unchanged |
| ObjLoader.WidenEncloses | src/graphics/assets/asset_loaders/obj.ts:41-51 | widening by a new vertex keeps the box around every stored coordinate, each bound being attained or still at its start |
| ObjLoader.LineStepEncloses | src/graphics/assets/asset_loaders/obj.ts:39-89 | every line keeps that property |
| ObjLoader.FaceLineTables | src/graphics/assets/asset_loaders/obj.ts:59-88 | an `f` line leaves the `v` table unchanged |
| ObjLoader.FaceVerticesTables | src/graphics/assets/asset_loaders/obj.ts:64-79 | the face loop leaves the `v` table unchanged |
| ObjLoader.RunEncloses | src/graphics/assets/asset_loaders/obj.ts:35-90 | the whole loop keeps the box around every stored coordinate |
| ObjLoader.BoxTight | src/graphics/assets/asset_loaders/obj.ts:31-32 | with the maxima starting at `-MAX_VALUE` the box of a successful parse is the tight bounding box of the `v` coordinates (also lines 43-49 and 97-98) |
| ObjLoader.BoxAsWrittenEncloses | src/graphics/assets/asset_loaders/obj.ts:31-32 | as written the box of a successful parse still lies below and above every real `v` coordinate, and each maximum is attained by a coordinate unless it is still `MIN_VALUE` (also lines 43-49) |
| ObjLoader.MinValueMaxesOut | src/graphics/assets/asset_loaders/obj.ts:32 | with the maxima starting at `Number.MIN_VALUE`, as written, a model whose only vertex is `(-1, -1, -1)` keeps the tiny positive maxima, so `dimensions` is `1 + MIN_VALUE` on every axis instead of 0 (also lines 47-49 and 97) |
| LegacyObjLoader.RunFailSticks | src/graphics/asset_loaders/obj.ts:24-69 | once a line throws, the whole parse throws that error |
| LegacyObjLoader.ReadLine | src/graphics/asset_loaders/obj.ts:25-68 | one iteration of the line loop computes exactly `LineStep` |
| LegacyObjLoader.ParseObj | src/graphics/asset_loaders/obj.ts:11-77 | the loop over `text.split("\n")` computes exactly `Parse` |
| LegacyObjLoader.UnknownLineIgnored | src/graphics/asset_loaders/obj.ts:28-68 | a line whose first word is not `v`, `vn`, `vt` or `f` changes nothing |
| LegacyObjLoader.VertexLineStoresAll | src/graphics/asset_loaders/obj.ts:29-31 | a `v` line never throws and appends one entry holding every number of the line, however many there are |
| LegacyObjLoader.RunCounted | src/graphics/asset_loaders/obj.ts:24-69 | when every `v` line has exactly three numbers the loop keeps three positions per distinct face-vertex token and whole triangles of valid indices |
| LegacyObjLoader.VertexLine | src/graphics/asset_loaders/obj.ts:29-31 | a `v` line appends the numbers of its other words and changes nothing else |
| LegacyObjLoader.NewPlainVertex | src/graphics/asset_loaders/obj.ts:44-54 | a new token `i` adds all of entry `i`'s numbers to the positions, and its index is the new position count over three, minus one |
| LegacyObjLoader.FaceVerticesSnoc | src/graphics/asset_loaders/obj.ts:43-58 | one more face-vertex token extends the face by exactly that token's step |
| LegacyObjLoader.ThreeTokens | src/graphics/asset_loaders/obj.ts:43-58 | a three-token face is the three steps in order |
| LegacyObjLoader.ThreeFourNumberLines | src/graphics/asset_loaders/obj.ts:29-31 | three `v` lines with the same words store three equal entries |
| LegacyObjLoader.TriangleOverFourNumberLines | src/graphics/asset_loaders/obj.ts:43-62 | over three four-number entries the face `f 1 2 3` computes the indices 1/3, 5/3 and 3 from twelve positions |
| LegacyObjLoader.FourNumberVerticesMisindex | src/graphics/asset_loaders/obj.ts:30 | a file of three `v x y z w` lines and `f 1 2 3` parses, but stores the indices `[0, 1, 3]` over twelve positions read three at a time, so the triangle no longer names the three vertices its tokens listed (also lines 46-52 and 75) |

## Left out

- **Rendering arithmetic.**
  - Floating-point matrix and vector arithmetic is left out (`gl-matrix`, perspective, ortho, lookAt, quaternion rotation). Matrices are symbolic terms, so `Maths` proves equalities of construction, not of value.
  - `get_light_space_matrix` (src/node/lights/directional_light.ts:127-176) is the uninterpreted `DirectionalLights.LightSpaceFor` of the node's local matrix and the camera. Its corner maxima also start at `Number.MIN_VALUE` (lines 155-159), as in the OBJ loader finding below. That is not modelled, because the function is float arithmetic.
  - `applyQuat` on the light direction is a symbolic direction.
  - `ShadowFaces.ShadowProjection` stands for the 90° perspective without evaluating it.
- **The WebGL driver.**
  - What the driver does with the calls is not modelled; they are logged events.
  - `checkFramebufferStatus` is an oracle parameter of the framebuffer constructor.
  - A `createTexture`, `createFramebuffer` or `createVertexArray` that returns `null` is not modelled; handles are fresh numbers.
  - Shader compilation and linking are not logged: `createShader`, `shaderSource`, `compileShader`, `createProgram`, `attachShader`, `linkProgram` and the info-log queries (src/graphics/shader_program.ts:47-80, src/graphics/graphics_manager.ts:79-110). A compile or link failure only prints, so the model has none.
  - Location lookups are not logged: `getUniformLocation` (src/graphics/shader_program.ts:88, src/graphics/graphics_manager.ts:116 and 203) and `getAttribLocation` (src/graphics/graphics_manager.ts:155). Locations come from a lookup parameter.
  - `createBuffer` (src/graphics/graphics_manager.ts:152) is not logged; the buffer handle is a parameter.
  - Each allocation and upload records the internal format and format its creator passes: `RGBA`/`RGBA` for the colour creators, `DEPTH_COMPONENT24`/`DEPTH_COMPONENT` for the depth creators (`Textures.CreationFormats`). Whether a format, data type and size combination is valid, and the byte layout it implies, are not checked against the WebGL tables.
- **The newer graphics manager.**
  - Its source (`src/graphics/graphics_manager.ts` of the newer engine, with `use_shader`, `set_uniform`, `use_framebuffer` and the shadow-map resizes) is not part of this model. Its calls are events that change only the slot they name.
  - `PointLights.PointLight.constructor`, `DirectionalLights.DirectionalLight.constructor`: the shadow program is a required argument. The default that `create_default_point_shadow_shader_program` or `create_default_directional_shadow_shader_program` supplies for a missing one (src/node/lights/point_light.ts:60, src/node/lights/directional_light.ts:32) belongs to the newer graphics manager, which is not modelled.
  - `PointLights.PointLight.SetUniforms` and `DirectionalLights.DirectionalLight.SetUniforms` also call `super.set_uniforms`. That goes to `src/node/lights/light.ts`, which is not part of this model, so their contracts state only the writes made in point_light.ts and directional_light.ts.
  - `PointLights.PointLight.OnRemoved` first calls `super.on_removed` (src/node/lights/point_light.ts:162), which goes to `src/node/lights/light.ts`, not part of this model. The call is not modelled, so the contract states only the roster removal and the resize.
- **Collaborators reduced to one event each.**
  - `mesh.ts` is not part of this model: `mesh.draw()` is one `DrawMesh` event.
  - `main_scene.render(...)` inside a shadow pass is one `RenderMainScene` event. Its own effect is the scene-graph walk, modelled in `SceneGraph`.
- **Callbacks.**
  - Callbacks (`on_ready`, `on_removed`, `on_update`, `render_class`) are recorded as trace events. Their user code is not run.
  - Acyclicity of the node graph is a ghost rank precondition. The source assumes it and does not check it.
- **Scene graph.**
  - `SceneGraph.Node.RemoveChild`: when called on a node that is not the instance's parent, the source still clears the instance's parent. The contract states that, and it keeps the links consistent only when the instance was a child or had no parent.
  - `get_model_matrix` (translate, rotate, scale) is one abstract matrix of the node. The `Node3D` position setter and the getters that only reshape a matrix are left out.
- **Lights.**
  - `PointLights.OffsetsCollideAfterRemoval` records the source's behaviour: removing a light does not renumber `shadow_index` or the slot offsets of the lights after it, so a light created next can share an offset. The model keeps it as written, because no intended numbering is evident.
- **Number parsing.**
  - JavaScript's `Number` and `parseInt` are parameters of the OBJ parsers; infinities are not distinguished from other reals.
  - `Float32Array` rounding is not modelled. `Uint16Array` wrap-around is modelled.
  - The `parts.length === 0` branch of both loaders cannot be taken, because splitting a line always yields at least one word (`ObjText.Words`). It is modelled anyway.
  - `vt` and `vn` entries keep however many numbers their line has, as the source does. The model does not check them against the format's 2 or 3.
- **I/O.**
  - `load_obj` in both loaders fetches the file; only the parse of the fetched text is modelled.
  - Image decoding in `src/graphics/assets.ts` and the `requestAnimationFrame` loop of `src/engine.ts` are left out.
  - `Object.entries` order for materials and attachments is modelled as the order the entries were given.
- **Files not modelled.**
  - The legacy `Texture` class of `src/graphics/assets.ts` (lines 65-93).
  - `uniform_buffer.ts`, the node extensions, `sprite2d`, `skybox`, `format.ts`, the shader sources other than the point-shadow face choice, the configuration files and the examples.
- **Uniform values.** These are compared by name: "bound" means "the active program has that name", not object identity.
- **Bit masks.** `DrawFlags` works on `nat` bit masks. JavaScript's bit operators first convert their operands with ToInt32; for non-negative integer masks and for the thirteen `DrawFlag` members (src/graphics/framebuffer.ts:33-45), all below 2^12, that conversion keeps every binary digit `has_flag` reads, so the conversion is not modelled.

## Findings

| source | as written | input that shows it | evidently intended | confidence | as-written member | corrected member |
|---|---|---|---|---|---|---|
| src/graphics/framebuffer.ts:182 | `set_attachment_cube_map_texture_face` passes `COLOR_ATTACHMENT0 + color_attachment_number`, where the number already is a `COLOR_ATTACHMENTi` enumerant | any framebuffer with a `CUBEMAP_TEXTURE_COLOR` attachment, asked to attach one of its faces | pass `color_attachment_number` itself | not executed; high | Framebuffers.CubeFaceAttachmentAsWrittenMisses | Framebuffers.CubeFaceAttachmentHits |
| src/graphics/assets/texture.ts:107 | with four arguments the mip level is read from `arg3`, the parameter object | `new Texture(gl, image, "COLOR", params, 2)` | read the level from `arg4` | not executed; high | Textures.ImageLevelAsWrittenMisses | Textures.ImageShapeIntended |
| src/graphics/assets/asset_loaders/obj.ts:32 | the bounding-box maxima start at `Number.MIN_VALUE`, the smallest positive number | a file whose only vertex is `v -1 -1 -1`: dimensions `1 + MIN_VALUE` on each axis instead of 0 | start the maxima at `-Number.MAX_VALUE`, mirroring the minima | not executed; high | ObjLoader.MinValueMaxesOut | ObjLoader.BoxTight |
| src/graphics/asset_loaders/obj.ts:30-52 | every number of a `v` line is pushed into `positions`, and the vertex count is `positions.length / 3` | three lines `v 0 0 0 1` and `f 1 2 3`: indices `[0, 1, 3]` over 12 numbers | store three coordinates per vertex, as the newer loader does | not executed; medium | LegacyObjLoader.FourNumberVerticesMisindex | ObjLoader.VertexLineStoresThree |
| src/graphics/graphics_manager.ts:155 | `add_vertex_attribute` hands `getAttribLocation` `this.shader_program!`, the manager's `ShaderProgram` wrapper, instead of its `webgl_shader_program` | any `add_vertex_attribute` call while a program is active: a TypeError after `bufferData` | pass `this.shader_program.webgl_shader_program` | not executed; high | LegacyGraphics.GraphicsManager.AddVertexAttribute | LegacyGraphics.GraphicsManager.AddVertexAttributeIntended |
