# GraphicsEngine resource bookkeeping, in Dafny

This project models the resource-bookkeeping layer of the GraphicsEngine
OpenGL demo (`Code/engine.cpp`, `Code/engine.h`). That layer covers:

- the registries of programs, textures, materials, meshes, models and
  entities;
- the per-submesh cache of vertex-array objects (VAOs);
- the importer that flattens a model scene into submeshes, with one shared
  vertex buffer and one shared index buffer;
- shader hot reload;
- per-frame packing of the uniform buffer;
- the display-mode state machine;
- the per-mode structure of rendering.

The application is the class `Engine.App`. Its fields mirror `App` in
`engine.h`, and its methods change them in place as the C++ functions do.

**Device calls.** Calls into the graphics device become commands appended
to `App.trace` (module `Device`), and each created object takes the next
unused handle, `App.nextHandle`. Two views of the trace carry the rendering
contracts. `Device.Draws` keeps the draw calls. `Device.Passes` also keeps
the framebuffer binds and uniform-range binds, which decide where each draw
lands and which uniform blocks it reads (`Device.Target`, `Device.Block`).

**Parameters.** File contents, file timestamps, decoded images, imported
scenes, pressed keys and the attributes reported for a linked program are
parameters of the methods that read them.

**Vertex data.** Each vertex float is represented by its provenance,
`Component(vertex, location, axis)`, so the vertex stream and the layout
that describes it can be checked against each other.

**Module layout:**

- `EngineTypes`: the records of `engine.h` and the embedded quad.
- `VertexLayout` and `MeshImport`: vertex format construction, mesh
  import and scene traversal.
- `BufferOffsets`: buffer sizes and per-submesh offsets.
- `ShaderProgram`: source assembly and vertex-input introspection.
- `Textures`: format choice and the texture cache.
- `VaoCache`: the VAO lookup and attribute wiring.
- `ProgramReload`: hot reload as a function of the timestamps.
- `UniformBuffer`: the write-head buffer and the uniform block layout.
- `Modes`: the mode enum and the key mapping.
- `RenderPasses`: the draws each mode issues, and the framebuffer and uniform
  blocks each draw uses.
- `Engine`: the `App` class.

## Model

| member | source | states |
|---|---|---|
| EngineTypes.QuadIsTwoTriangles | Code/engine.h:62-70 | the embedded quad has 4 vertices and 6 indices, all in range; the indices form two counter-clockwise triangles that use every vertex |
| VertexLayout.PackedAttribute | Code/engine.cpp:330-346 | attribute k of a packed layout has its slot's location and component count, at byte offset 4 × (floats of the preceding slots) |
| VertexLayout.PackedWithinStride | Code/engine.cpp:330-346 | every attribute of a packed layout ends within the stride |
| VertexLayout.StandardLayouts | Code/engine.cpp:330-346 | the four layouts the importer can build, written out attribute by attribute, with strides 24, 32, 48 and 56 |
| VertexLayout.StandardLayoutSteps | Code/engine.cpp:330-346 | the layout is positions and normals, then texture coordinates when present, then tangent and bitangent when present; offsets and stride accumulate as attributes are added |
| VertexLayout.StandardLayoutShape | Code/engine.cpp:329-346 | locations strictly ascend; the stride is the sum of the present attribute sizes and is one of {24, 32, 48, 56}; every attribute lies within the record; every location, component count, offset and stride fits the 8-bit fields of `engine.h` |
| VertexLayout.StandardLayoutLocations | Code/engine.cpp:331-346 | locations 0 and 1 are always present; 2 is present iff there are texture coordinates; 3 and 4 are present iff there is tangent space |
| MeshImport.StreamLength | Code/engine.cpp:279-314 | a stream of n vertices holds n × (floats per record) floats |
| MeshImport.StreamAt | Code/engine.cpp:279-314 | float k of vertex v's record is at v × (record floats) + k |
| MeshImport.RecordOfPresentSlots | Code/engine.cpp:279-313 | a vertex record is position xyz, normal xyz, then uv when present, then tangent and bitangent when present |
| MeshImport.FlattenTriangles | Code/engine.cpp:317-324 | flattening triangle faces gives 3 indices per face, face f's k-th index at 3f + k |
| MeshImport.ImportedVertexCount | Code/engine.cpp:279-346 | an imported submesh has numVertices × stride / 4 floats |
| MeshImport.PackedDescribesStream | Code/engine.cpp:279-346 | the layout's offsets and stride locate, for every vertex, exactly the float of each attribute's location and axis |
| MeshImport.ImportedLayoutDescribesData | Code/engine.cpp:279-346 | reading an imported submesh through its own layout finds, for every vertex and attribute, that vertex's float of that attribute |
| MeshImport.ProcessVertices | Code/engine.cpp:279-314 | the vertex loop yields the interleaved stream of the present attributes; the presence flags say whether uv or tangent space exist and whether there is at least one vertex |
| MeshImport.ProcessIndices | Code/engine.cpp:317-324 | the index loop yields the in-order concatenation of the face index lists |
| MeshImport.CreateVertexFormat | Code/engine.cpp:329-346 | the built layout is the standard layout for the two presence flags |
| MeshImport.ProcessAssimpMesh | Code/engine.cpp:270-354 | appends exactly one submesh, the imported one, and exactly one material index, base + the mesh's material index |
| MeshImport.ProcessAssimpNode | Code/engine.cpp:414-428 | appends the submeshes and material indices of the node's subtree in depth-first preorder, each node's own meshes before its children's |
| BufferOffsets.BufferSizes | Code/engine.cpp:472-479 | the two buffer sizes are the byte totals of all submeshes' vertices and indices |
| BufferOffsets.AssignOffsets | Code/engine.cpp:489-505 | each submesh is kept with its offsets set to the running byte totals of the submeshes before it |
| BufferOffsets.PrefixMonotone | Code/engine.cpp:472-479 | running byte totals never decrease |
| BufferOffsets.PlacedAt | Code/engine.cpp:489-505 | submesh i keeps everything but its offsets; its offsets are the byte sums of submeshes 0..i-1 |
| BufferOffsets.PlacedContiguous | Code/engine.cpp:489-505 | the first range starts at 0; each range starts where the previous one ends; the last ends at the buffer size |
| BufferOffsets.PlacedDisjoint | Code/engine.cpp:489-505 | the byte ranges of distinct submeshes do not overlap and all lie within the buffers |
| BufferOffsets.DataSize | Code/engine.cpp:494-504 | the byte totals are the sizes of the concatenated vertex and index data |
| BufferOffsets.PlacedLocatesData | Code/engine.cpp:489-505 | at its recorded offset, the shared buffer holds each submesh's own vertices and indices |
| ShaderProgram.StageSourceRoundTrip | Code/engine.cpp:22-51 | the assembled source of a stage parses back to the program name, the stage and the body; its length is the sum of the four segments |
| ShaderProgram.StageLineRoundTrip | Code/engine.cpp:25-26 | the stage define line parses back to its stage |
| ShaderProgram.ComponentCount | Code/engine.cpp:122 | 3 iff the type is vec3, 2 iff vec2, 1 for any other type |
| ShaderProgram.ToU8 | Code/engine.cpp:121 | the 8-bit truncation is in 0..255, is the identity on 0..255, and agrees with its argument modulo 256 |
| ShaderProgram.ReadVertexInputs | Code/engine.cpp:111-125 | one vertex input per active attribute, in order, with the truncated location and the component count of its type |
| ShaderProgram.AbsentLocationWraps | Code/engine.cpp:121 | an attribute the device reports at location -1 is recorded at location 255 |
| Textures.FormatFor | Code/engine.cpp:155-164 | 3 or 4 channels select RGB8/RGB or RGBA8/RGBA; any other count is unsupported and keeps RGB8/RGB; internal and data formats always agree in channels |
| Textures.FirstTextureFor | Code/engine.cpp:183-185 | the result is the first index with that path, or none iff no texture has that path |
| Textures.LoadKeepsCache | Code/engine.cpp:181-205 | a load only appends, at most one texture; paths stay pairwise distinct; the index is UINT32_MAX iff the path is not cached and does not decode; otherwise it names a texture with that path |
| Textures.LoadIdempotent | Code/engine.cpp:181-205 | loading the same path again returns the same index and changes nothing |
| Modes.ModeValue | Code/engine.h:44-54 | enumerator values are below 8, and 1 is exactly `Count` |
| Modes.ModeValuesDistinct | Code/engine.h:44-54 | the eight enumerators have distinct values |
| Modes.ModeAfterChange | Code/engine.cpp:583-586 | a mode change always leaves the requested mode, whether or not it was already current |
| Modes.KeysReach | Code/engine.cpp:930-935 | no key selects Count, Albedo or Position; with no mode key held the mode is kept |
| VaoCache.FirstVaoFor | Code/engine.cpp:518-522 | the result is the first entry cached for that program handle, or none iff there is none |
| VaoCache.ScanVaos | Code/engine.cpp:518-522 | the scan loop finds the first entry for the program handle, as FirstVaoFor does |
| VaoCache.LookupKeepsEntries | Code/engine.cpp:518-565 | a lookup keeps all existing entries and adds at most one; afterwards the first entry for the handle is the one returned |
| VaoCache.LookupIdempotent | Code/engine.cpp:518-565 | a second lookup with the same program handle returns the same VAO and does not grow the cache |
| VaoCache.StaleEntriesPersist | Code/engine.cpp:518-563 | entries cached for another program handle, such as one replaced by a reload, are never removed; a miss grows the cache by one |
| VaoCache.FirstAttribute | Code/engine.cpp:539-553 | the first layout attribute at a location, or none iff the layout lacks it |
| VaoCache.LinkedAttribute | Code/engine.cpp:539-553 | an input is linked to a layout attribute at its own location |
| VaoCache.WiringLength | Code/engine.cpp:535-556 | linking issues two commands per input |
| VaoCache.WiringAt | Code/engine.cpp:541-548 | input i is wired from the first matching attribute: its component count, the layout stride, and offset = attribute offset + submesh vertex offset; then it is enabled |
| VaoCache.LinkInputs | Code/engine.cpp:535-556 | the linking loop issues exactly that wiring, given that every input's location is in the layout (the assertion at line 555) |
| VaoCache.MissDrawsNothing | Code/engine.cpp:527-559 | building a new VAO issues no draw, framebuffer bind or uniform-range bind |
| ProgramReload.ReloadKeepsIdentity | Code/engine.cpp:907-924 | a reload keeps each program's name, path and vertex inputs; it advances the timestamp to the newer one; the handle changes exactly for programs whose file is strictly newer |
| ProgramReload.ReloadHandlesFresh | Code/engine.cpp:907-924 | reloaded programs get distinct fresh handles, in program order |
| ProgramReload.ReloadedUpToDate | Code/engine.cpp:907-924 | after a reload no program is older than its file |
| ProgramReload.NothingStale | Code/engine.cpp:907-924 | when no file is newer, nothing is rebuilt |
| ProgramReload.ReloadIdempotent | Code/engine.cpp:907-924 | a second reload with the same timestamps rebuilds nothing and changes nothing |
| UniformBuffer.AlignUp | Code/engine.cpp:955 | the aligned head is the smallest multiple of the alignment at or after the head (with AlignUpLeast) |
| UniformBuffer.AlignUpLeast | Code/engine.cpp:955 | no multiple of the alignment between the head and the aligned head is skipped |
| UniformBuffer.Buffer.constructor | Code/engine.cpp:813 | a new uniform buffer has the given size, its head at 0, and is unmapped |
| UniformBuffer.Buffer.Map | Code/engine.cpp:947 | mapping rewinds the head to 0 |
| UniformBuffer.Buffer.Unmap | Code/engine.cpp:979 | unmapping keeps the head |
| UniformBuffer.Buffer.AlignHead | Code/engine.cpp:955 | the head is rounded up to the alignment |
| UniformBuffer.Buffer.PushUInt | Code/engine.cpp:951 | the head advances by 4 bytes |
| UniformBuffer.Buffer.PushVec3 | Code/engine.cpp:950 | the head advances by 12 bytes |
| UniformBuffer.Buffer.PushMat4 | Code/engine.cpp:972-973 | the head advances by 64 bytes |
| UniformBuffer.LightLayout | Code/engine.cpp:953-961 | light j's record starts 16-byte aligned at 16 + 48j, and the lights end at 48(j+1) + 8 |
| UniformBuffer.EntityLayout | Code/engine.cpp:965-977 | every entity block is aligned to the block alignment; all blocks lie after the globals, in entity order, without overlap, and within the packed size |
| UniformBuffer.EntityBlock | Code/engine.cpp:965-977 | entity k's block, for any k below the entity count, starts aligned, after the globals, and ends within the packed size |
| UniformBuffer.EntityHeadsGrow | Code/engine.cpp:965-977 | entity heads increase, by at least one block per entity |
| UniformBuffer.EntityAfterGlobals | Code/engine.cpp:949-967 | every entity block starts after the global parameters |
| UniformBuffer.PlacedEntitiesLayout | Code/engine.cpp:949-977 | the recorded head and size of each entity: the model is kept; the size is two matrices; heads are aligned; the ranges are disjoint, increasing and after the globals |
| UniformBuffer.PlacedEntityAt | Code/engine.cpp:949-977 | the recorded entity k keeps its model, has a two-matrix size, and its block is aligned, after the globals and within the packed size |
| RenderPasses.MeshPassShape | Code/engine.cpp:1018-1040 | the mesh pass draws once per entity × submesh, and each draw is the draw of some entity's mesh's submesh |
| RenderPasses.MeshDrawsAt | Code/engine.cpp:1026-1040 | draw s of a mesh is the draw of its submesh s |
| RenderPasses.ModeDrawsShape | Code/engine.cpp:1201-1235 | Count draws nothing; Mesh draws the mesh pass; Framebuffer, Albedo and Normal draw the mesh pass then one quad; TexturedQuad, Position and Depth draw only the 6-index quad |
| RenderPasses.DrawsIgnoreVaos | Code/engine.cpp:1026-1039 | what the mesh pass draws does not depend on the VAO caches |
| RenderPasses.QuadPassDraws | Code/engine.cpp:1065-1094 | the quad pass issues exactly one draw and no framebuffer or uniform-range bind, and leaves texture k bound on unit k |
| RenderPasses.EntityPassesCmds | Code/engine.cpp:1018-1040 | the entity loop only draws and binds uniform ranges at binding 1 |
| RenderPasses.EntityPassesDraws | Code/engine.cpp:1018-1040 | the entity loop, each entity's block bind followed by its mesh's draws, draws exactly the mesh pass's draws |
| RenderPasses.EntityPassesIgnoreVaos | Code/engine.cpp:1018-1040 | the entity loop's binds and draws do not depend on the VAO caches |
| RenderPasses.MeshPassDrawsOf | Code/engine.cpp:1016-1040 | the mesh pass, the globals bound at binding 0 and then the entity loop, draws exactly the mesh pass's draws |
| RenderPasses.EntityDrawBlocks | Code/engine.cpp:1016-1040 | the draw of submesh j of entity e's mesh reads the global block at binding 0 and entity e's own block (its head and size) at binding 1; the mesh pass binds no framebuffer |
| RenderPasses.MeshPassUntargeted | Code/engine.cpp:1006-1046 | the mesh pass binds no framebuffer, so its draws land where the caller points them |
| RenderPasses.ViewTargets | Code/engine.cpp:1048-1063 | in Framebuffer, Albedo and Normal modes every command of the mesh pass goes to the geometry framebuffer, and the closing quad draw to the default framebuffer 0 |
| RenderPasses.ModePassesDraws | Code/engine.cpp:1201-1235 | a mode's draws, framebuffer binds and uniform-range binds draw exactly what the mode draws |
| Engine.App.Init | Code/engine.cpp:801-836 | the application is in mesh mode, with a uniform buffer of the device's maximum size and alignment, before any resource is loaded |
| Engine.App.AddMeshModeScene | Code/engine.cpp:679-692 | three entities showing the given model, with unplaced uniform blocks, then a directional, a point and a directional light, are appended |
| Engine.App.CreateProgramFromSource | Code/engine.cpp:15-92 | one fresh program handle, compiled from the vertex and fragment assemblies of the source; then programs are unbound |
| Engine.App.LoadProgram | Code/engine.cpp:94-130 | appends exactly one program and returns the old count; records its path, name, timestamp, fresh handle and one input per active attribute |
| Engine.App.ReloadProgram | Code/engine.cpp:912-922 | a program whose file is strictly newer is deleted and rebuilt with a fresh handle and the new timestamp; otherwise nothing changes |
| Engine.App.HotReload | Code/engine.cpp:907-924 | the programs become their reloaded values, one fresh handle per rebuilt program, and the trace gains the rebuilds in program order |
| Engine.App.CreateTexture2DFromImage | Code/engine.cpp:153-179 | one fresh texture handle, uploaded with the format chosen from the channel count |
| Engine.App.LoadTexture2D | Code/engine.cpp:181-205 | the index and the texture list are those of the cache lookup; a handle is used only when a texture is appended, and then the trace gains exactly its upload, with the fresh handle and the format for the image's channel count; a hit or failed decode issues no device call |
| Engine.App.LoadSlot | Code/engine.cpp:375-381 | an absent slot keeps index 0; a present one gets the loaded index, or UINT32_MAX when the file is neither cached nor decodable; the cache only grows and its paths stay distinct |
| Engine.App.ProcessAssimpMaterial | Code/engine.cpp:356-412 | the material keeps its name, and each of its five texture slots is filled as LoadSlot states |
| Engine.App.AppendMaterials | Code/engine.cpp:460-466 | appends one material per scene material, from the old material count, each filled from its scene material |
| Engine.App.LoadModel | Code/engine.cpp:430-511 | a failed import returns UINT32_MAX and changes nothing, the trace included; otherwise appends one model (its mesh and preorder material indices), one mesh (the placed preorder submeshes, two fresh buffer handles) and the scene's materials, and the trace ends with the creation of the two buffers |
| Engine.App.AddMesh | Code/engine.cpp:472-511 | one mesh with the placed submeshes and two fresh buffers, created in the trace, and one model on it are appended |
| Engine.App.AllocateBuffers | Code/engine.cpp:472-508 | two fresh buffer handles; the trace gains both buffers' creation, sized by the byte totals of all submeshes, then the unbinding of both targets |
| Engine.App.FindVAO | Code/engine.cpp:513-566 | a hit returns the cached VAO and changes nothing; a miss creates one fresh VAO, wires it, and appends it with the program handle; only the looked-up submesh's layout must cover the program's inputs, and only on a miss |
| Engine.App.ChangeAppMode | Code/engine.cpp:583-586 | the mode becomes the requested one |
| Engine.App.HandleKeys | Code/engine.cpp:930-935 | Escape stops the application; the highest-numbered held mode key selects the mode |
| Engine.App.PackUniforms | Code/engine.cpp:946-979 | the globals are at offset 0 with the lights' size; each entity records its aligned block; the buffer ends unmapped at the packed size |
| Engine.PushGlobalParams | Code/engine.cpp:947-963 | pushing the camera, the light count and each aligned light record leaves the head at the end of the global parameters |
| Engine.PushEntityBlock | Code/engine.cpp:965-977 | an entity's block starts at its aligned head and spans two matrices |
| Engine.App.Update | Code/engine.cpp:927-980 | keys, hot reload and uniform packing, in that order, each with its own contract |
| Engine.App.DrawSubmesh | Code/engine.cpp:1026-1039 | the submesh's cache gains an entry for the program only if it lacked one; nothing else in the meshes changes; the last three commands bind the VAO the cache lookup gives, bind the material's albedo texture on unit 0, and draw the submesh's index range; that draw is the only draw or pass added |
| Engine.App.DrawEntity | Code/engine.cpp:1020-1040 | the entity's own uniform block (its head and size) is bound at binding 1, then its mesh is drawn submesh by submesh; no other pass is added; only caches change |
| Engine.App.DrawEntities | Code/engine.cpp:1018-1042 | the entities are drawn in order, each after the bind of its own block; the draws are exactly the mesh pass's |
| Engine.App.RenderMeshMode | Code/engine.cpp:1006-1046 | clears and binds the textured-mesh program, binds the global block at binding 0, then draws every entity under its own block; ends by unbinding the VAO and the program; only caches change; the pass stays ready |
| Engine.App.BindTarget | Code/engine.cpp:1053 | appends one framebuffer bind, which selects where later draws land; draws and texture units are unchanged |
| Engine.App.DrawQuad | Code/engine.cpp:1065-1094 | binds the quad program and VAO, binds the textures to units 0, 1, ..., and draws the quad once |
| Engine.App.RenderQuadMode | Code/engine.cpp:983-1004 | clear, one quad draw with the dice texture on unit 0, then unbind; no framebuffer or uniform-range bind |
| Engine.App.RenderGBufferView | Code/engine.cpp:1048-1094 | binds the geometry framebuffer, runs the mesh pass into it, binds the default framebuffer 0, then draws the quad once with the given textures on units 0, 1, ...; only caches change |
| Engine.App.RenderFramebufferMode | Code/engine.cpp:1048-1095 | the mesh pass into the geometry framebuffer, then one quad draw into framebuffer 0, with the five attachments on units 0-4 |
| Engine.App.RenderAlbedoMode | Code/engine.cpp:1097-1138 | the mesh pass into the geometry framebuffer, then one quad draw into framebuffer 0, with the first four attachments on units 0-3 |
| Engine.App.RenderNormalMode | Code/engine.cpp:1140-1167 | the mesh pass into the geometry framebuffer, then one quad draw into framebuffer 0, with the normals attachment on unit 0 |
| Engine.App.RenderPositionMode | Code/engine.cpp:1169-1183 | one quad draw with the position attachment on unit 0, without a mesh pass or framebuffer bind |
| Engine.App.RenderDepthMode | Code/engine.cpp:1185-1199 | one quad draw with the depth attachment on unit 0, without a mesh pass or framebuffer bind |
| Engine.App.DispatchMode | Code/engine.cpp:1203-1235 | the current mode's render function runs: it draws what the mode draws (nothing for Count), into the framebuffers and under the blocks the mode binds; only the mesh pass touches the meshes, and only their caches |
| Engine.App.Render | Code/engine.cpp:1201-1239 | the frame draws what the current mode draws (nothing for Count), into the framebuffers and under the blocks the mode binds; only the mesh pass touches the meshes, and only their caches; the mode's textures are left bound; the frame ends by unbinding the vertex array and the program |

## Left out

- Device semantics: blend and depth state, viewports, clear colours,
  uniform locations and values, sampler parameters and mipmaps are not
  traced. Compile and link results, and the log on failure, are not
  modelled. The calls that only set such state are not traced; `Device.Cmd`
  lists the calls that are.
- Camera movement, matrices, material colours and smoothness, bitangent
  negation values, and `colors.h` are left out. They are floating-point
  content that none of the bookkeeping depends on.
- ImGui windows, the debug callback and context queries are left out. They
  are I/O and logging only.
- Handles are never reused. A real device may hand out a deleted program's
  handle again, and the VAO cache would then hit a stale entry built for
  the old program. The model issues every handle from a counter.
- The buffer helpers (map, unmap, align and push) live in
  `buffer_management.h`, which is not part of this model. `UniformBuffer.Buffer`
  states their assumed behaviour: push advances the head by the value's size,
  align rounds the head up, and map rewinds it. The capacity check that the
  C++ never makes is a precondition of `Engine.App.PackUniforms`.
- Vertex and index counts, offsets and sizes are unbounded integers. The
  32-bit offsets and sizes in `LoadModel` and the 64-bit timestamps are not
  wrapped. The 8-bit location from introspection is truncated
  (`ShaderProgram.ToU8`).
- Engine.App.LoadModel and Engine.App.AddMesh: state that the trace ends
  with the creation of the two buffers, but not their sizes. The sizes are
  stated by Engine.App.AllocateBuffers, which they call; restating them
  here would make the solver unfold the whole vertex importer. The
  per-submesh uploads (`glBufferSubData`) are not traced; the offsets they
  use are stated by `BufferOffsets.AssignOffsets`.
- Engine.App.AppendMaterials and Engine.App.LoadModel require that the
  texture count stays below UINT32_MAX. The C++ relies on this without
  checking it.
- Engine.App.CreateProgramFromSource, Engine.App.LoadProgram,
  Engine.App.ReloadProgram and Engine.App.HotReload require
  `ShaderProgram.NameFits`: a program name of at most 118 characters. A
  longer name overflows the 128-byte buffer the C++ formats the name define
  into (Code/engine.cpp:23-24), which the model does not represent.
- Directory and path building (`GetDirectoryPart`, `MakePath`) is left out.
  Texture paths arrive already joined in the scene.
- Engine.App.Init: the constructor gives the state before the initial
  loads, so its registries are empty. The loads themselves
  (`InitLoadTextures`, `InitQuadMode`, `InitMeshMode`, `InitFramebuffer`,
  Code/engine.cpp:608-799) are not sequenced. Their parts are the methods
  above: LoadTexture2D, LoadProgram, LoadModel, and AddMeshModeScene for
  the three entities and three lights of mesh mode. The framebuffer
  attachment handles are not modelled. The constructor also sets
  `isRunning` to true, standing for the caller's own initialisation, which
  is outside `engine.cpp` and `engine.h`. Within those files only the Escape
  key writes the flag (Code/engine.cpp:930).
- Engine.App.RenderMeshMode and the methods that run it require every
  submesh of every drawn mesh to cover the program's vertex inputs. The C++
  only needs that for submeshes with no cached VAO for the program. The two
  agree on reachable states, because an entry for a handle is only created
  for a covering layout and reloads use fresh handles.
- Engine.App.Render: the contract states that only the VAO caches of the
  meshes change. That each cache grows is stated per submesh by
  `Engine.App.DrawSubmesh`.
- A failed texture load stores UINT32_MAX in a material. The mesh pass then
  reads `textures` at that index; in the model this is excluded by the mesh
  pass's precondition (`RenderPasses.MaterialsReady`).
