/**
 * The application state and the operations that change it: loading programs,
 * textures and models, the per-submesh bind-object cache, hot reload, the
 * per-frame update (keys, reload, uniform packing) and rendering.  Calls into
 * the graphics device are appended to `trace`; every object the device
 * creates takes the next unused handle, `nextHandle`.  File contents, file
 * timestamps, decoded images and imported scenes are parameters.
 */
module Engine {
  import opened Wrappers
  import opened EngineTypes
  import opened MeshImport
  import opened BufferOffsets
  import opened Device
  import opened VaoCache
  import opened ShaderProgram
  import opened Textures
  import opened UniformBuffer
  import opened ProgramReload
  import opened Modes
  import opened RenderPasses

  /** Where a material slot's texture index comes from. */
  predicate SlotLoaded(slot: Option<string>, idx: nat, before: seq<Texture>, after: seq<Texture>, images: map<string, Image>)
  {
    match slot
    case None => idx == 0
    case Some(path) =>
      && (idx == UINT32_MAX <==> FirstTextureFor(before, path).None? && path !in images)
      && (idx != UINT32_MAX ==> idx < |after| && after[idx].filepath == path)
  }

  /** The device calls that create a mesh's two buffers with the given byte sizes, then unbind both targets. */
  function AllocationTrace(vertexBufferHandle: nat, indexBufferHandle: nat,
                           vertexBufferSize: nat, indexBufferSize: nat): seq<Cmd>
  {
    [BindBuffer(ArrayBuffer, vertexBufferHandle), BufferData(ArrayBuffer, vertexBufferSize),
     BindBuffer(ElementArrayBuffer, indexBufferHandle), BufferData(ElementArrayBuffer, indexBufferSize),
     BindBuffer(ElementArrayBuffer, 0), BindBuffer(ArrayBuffer, 0)]
  }

  /** `trace` ends with the creation of buffers `vertexBufferHandle` and `indexBufferHandle`, of whatever sizes. */
  predicate EndsWithAllocation(trace: seq<Cmd>, vertexBufferHandle: nat, indexBufferHandle: nat)
  {
    && |trace| >= 6
    && var cmds := trace[|trace| - 6..];
    && cmds[1].BufferData? && cmds[3].BufferData?
    && cmds == AllocationTrace(vertexBufferHandle, indexBufferHandle, cmds[1].size, cmds[3].size)
  }

  lemma {:induction false} AllocationAppended(trace: seq<Cmd>, vertexBufferHandle: nat, indexBufferHandle: nat,
                                              vertexBufferSize: nat, indexBufferSize: nat)
    ensures EndsWithAllocation(trace + AllocationTrace(vertexBufferHandle, indexBufferHandle, vertexBufferSize, indexBufferSize),
                               vertexBufferHandle, indexBufferHandle)
  {
    var cmds := AllocationTrace(vertexBufferHandle, indexBufferHandle, vertexBufferSize, indexBufferSize);
    assert (trace + cmds)[|trace|..] == cmds;
  }

  /** Textures loaded after `before` all come from decodable files. */
  predicate LoadedFrom(before: seq<Texture>, after: seq<Texture>, images: map<string, Image>)
  {
    && before <= after
    && forall k :: |before| <= k < |after| ==> after[k].filepath in images
  }

  class App {
    var isRunning: bool
    var mode: Mode

    var textures: seq<Texture>
    var programs: seq<Program>
    var materials: seq<Material>
    var meshes: seq<Mesh>
    var models: seq<Model>
    var entities: seq<Entity>
    var lights: seq<Light>

    var texturedGeometryProgramIdx: nat
    var texturedMeshProgramIdx: nat
    var diceTexIdx: nat

    /** The bind object of the screen quad. */
    var vao: nat

    var uniformBuffer: Buffer
    var uniformBlockAlignment: nat
    var globalParamsOffset: nat
    var globalParamsSize: nat

    var albedoAOAttachmentHandle: nat
    var specularRoughnessAttachmentHandle: nat
    var normalsAttachmentHandle: nat
    var emissiveLightmapsAttachmentHandle: nat
    var positionAttachmentHandle: nat
    var depthAttachmentHandle: nat
    var framebufferHandle: nat

    var trace: seq<Cmd>
    var nextHandle: nat

    /**
     * The application as initialisation leaves it before loading anything:
     * running, in mesh mode, with a uniform buffer of the device's maximum
     * block size and the device's block alignment.
     */
    constructor Init(maxUniformBufferSize: nat, alignment: nat)
      ensures isRunning && mode == MeshMode
      ensures textures == [] && programs == [] && materials == [] && meshes == [] && models == []
      ensures entities == [] && lights == [] && trace == []
      ensures fresh(uniformBuffer) && uniformBuffer.size == maxUniformBufferSize && uniformBuffer.head == 0
      ensures uniformBlockAlignment == alignment
      ensures uniformBuffer.handle < nextHandle
    {
      isRunning := true;
      mode := MeshMode;
      textures, programs, materials, meshes, models := [], [], [], [], [];
      entities, lights := [], [];
      trace := [];
      uniformBuffer := new Buffer(1, maxUniformBufferSize);
      nextHandle := 2;
      uniformBlockAlignment := alignment;
    }

    /**
     * The scene of mesh mode: three entities showing `model`, their uniform
     * blocks not yet placed, and a directional, a point and a directional light.
     */
    method AddMeshModeScene(model: nat)
      modifies this`entities, this`lights
      ensures entities == old(entities) + [Entity(model, 0, 0), Entity(model, 0, 0), Entity(model, 0, 0)]
      ensures lights == old(lights) + [Light(Directional), Light(Point), Light(Directional)]
    {
      var en := Entity(model, 0, 0);
      entities := entities + [en];
      entities := entities + [en];
      entities := entities + [en];
      lights := lights + [Light(Directional)];
      lights := lights + [Light(Point)];
      lights := lights + [Light(Directional)];
    }

    // ------------------------------------------------------------ programs

    /** Builds a program from one source file: both stages, then unbinds programs. */
    method CreateProgramFromSource(source: string, name: string) returns (handle: nat)
      requires NameFits(name)
      modifies this`trace, this`nextHandle
      ensures handle == old(nextHandle) && nextHandle == old(nextHandle) + 1
      ensures trace == old(trace) + [CompileProgram(handle, StageSource(source, name, Vertex), StageSource(source, name, Fragment)),
                                     UseProgram(0)]
    {
      handle := nextHandle;
      nextHandle := nextHandle + 1;
      var vertexSource := VersionLine + NameDefine(name) + VertexDefine + source;
      var fragmentSource := VersionLine + NameDefine(name) + FragmentDefine + source;
      trace := trace + [CompileProgram(handle, vertexSource, fragmentSource), UseProgram(0)];
    }

    /**
     * Appends one program built from `source`, with the file's timestamp and
     * one vertex input per active attribute, and returns its index.
     */
    method LoadProgram(filepath: string, programName: string, source: string, timestamp: nat, active: seq<ActiveAttribute>)
      returns (idx: nat)
      requires NameFits(programName)
      modifies this`programs, this`trace, this`nextHandle
      ensures idx == |old(programs)| && |programs| == idx + 1 && old(programs) <= programs
      ensures programs[idx].handle == old(nextHandle) && nextHandle == old(nextHandle) + 1
      ensures programs[idx].filepath == filepath && programs[idx].programName == programName
      ensures programs[idx].lastWriteTimestamp == timestamp
      ensures |programs[idx].vertexInputLayout| == |active|
      ensures forall i :: 0 <= i < |active| ==> programs[idx].vertexInputLayout[i] == InputOf(active[i])
      ensures trace == old(trace) + [CompileProgram(old(nextHandle), StageSource(source, programName, Vertex),
                                                    StageSource(source, programName, Fragment)),
                                     UseProgram(0)]
    {
      var handle := CreateProgramFromSource(source, programName);
      var inputs := ReadVertexInputs(active);
      programs := programs + [Program(handle, filepath, programName, timestamp, inputs)];
      idx := |programs| - 1;
    }

    /** Rebuilds program `i` from `source` when its file's timestamp is newer than the program's. */
    method ReloadProgram(i: nat, timestamp: nat, source: string)
      requires i < |programs| && NameFits(programs[i].programName)
      modifies this`programs, this`trace, this`nextHandle
      ensures var p := old(programs)[i];
        if Stale(p, timestamp) then
          && programs == old(programs)[i := p.(handle := old(nextHandle), lastWriteTimestamp := timestamp)]
          && nextHandle == old(nextHandle) + 1
          && trace == old(trace) + RebuildTrace(p, source, old(nextHandle))
        else programs == old(programs) && nextHandle == old(nextHandle) && trace == old(trace)
    {
      var program := programs[i];
      if timestamp > program.lastWriteTimestamp {
        trace := trace + [DeleteProgram(program.handle)];
        var handle := CreateProgramFromSource(source, program.programName);
        programs := programs[i := program.(handle := handle, lastWriteTimestamp := timestamp)];
      }
    }

    /** Rebuilds every program whose file is newer than the program, from the file's current text. */
    method HotReload(timestamps: seq<nat>, sources: seq<string>)
      requires |timestamps| == |programs| && |sources| == |programs| && NamesFit(programs)
      modifies this`programs, this`trace, this`nextHandle
      ensures programs == Reloaded(old(programs), timestamps, old(nextHandle))
      ensures nextHandle == old(nextHandle) + ReloadCount(old(programs), timestamps, |programs|)
      ensures trace == old(trace) + ReloadTrace(old(programs), timestamps, sources, old(nextHandle), |programs|)
    {
      ghost var before := programs;
      ghost var base := nextHandle;
      var i := 0;
      while i < |programs|
        invariant ReloadedUpTo(before, timestamps, sources, base, i, programs, nextHandle, old(trace), trace)
      {
        ghost var prev, prevHandle, prevTrace := programs, nextHandle, trace;
        ReloadProgram(i, timestamps[i], sources[i]);
        ReloadStep(before, timestamps, sources, base, i, prev, prevHandle, old(trace), prevTrace, programs, nextHandle, trace);
        i := i + 1;
      }
      ReloadedAll(before, timestamps, sources, base, programs, nextHandle, old(trace), trace);
    }

    // ------------------------------------------------------------ textures

    /** Creates a texture from a decoded image, in the format its channel count calls for. */
    method CreateTexture2DFromImage(image: Image) returns (handle: nat)
      modifies this`trace, this`nextHandle
      ensures handle == old(nextHandle) && nextHandle == old(nextHandle) + 1
      ensures var f := FormatFor(image.nchannels);
        trace == old(trace) + [TexImage2D(handle, InternalChannels(f.internalFormat), DataChannels(f.dataFormat),
                                          image.width, image.height)]
    {
      var internalFormat, dataFormat := RGB8, RGB;
      if image.nchannels == 3 {
        dataFormat, internalFormat := RGB, RGB8;
      } else if image.nchannels == 4 {
        dataFormat, internalFormat := RGBA, RGBA8;
      }
      handle := nextHandle;
      nextHandle := nextHandle + 1;
      trace := trace + [TexImage2D(handle, InternalChannels(internalFormat), DataChannels(dataFormat), image.width, image.height)];
    }

    /**
     * Loads the texture at `path` unless a texture from that path is already
     * loaded; `images` holds the files that decode.
     */
    method LoadTexture2D(path: string, images: map<string, Image>) returns (idx: nat)
      modifies this`textures, this`trace, this`nextHandle
      ensures (idx, textures) == LoadResult(old(textures), path, images, old(nextHandle))
      ensures nextHandle == old(nextHandle) + |textures| - |old(textures)|
      ensures |textures| == |old(textures)| ==> trace == old(trace)
      ensures |textures| > |old(textures)| ==>
        && path in images
        && var image, f := images[path], FormatFor(images[path].nchannels);
        trace == old(trace) + [TexImage2D(old(nextHandle), InternalChannels(f.internalFormat), DataChannels(f.dataFormat),
                                          image.width, image.height)]
    {
      var texIdx := 0;
      while texIdx < |textures|
        invariant texIdx <= |textures|
        invariant forall k :: 0 <= k < texIdx ==> textures[k].filepath != path
      {
        if textures[texIdx].filepath == path {
          return texIdx;
        }
        texIdx := texIdx + 1;
      }
      if path in images {
        var handle := CreateTexture2DFromImage(images[path]);
        idx := |textures|;
        textures := textures + [Texture(handle, path)];
      } else {
        idx := UINT32_MAX;
      }
    }

    /** Loads the texture of one material slot; an empty slot keeps the index 0. */
    method LoadSlot(slot: Option<string>, images: map<string, Image>, ghost start: seq<Texture>) returns (idx: nat)
      requires DistinctPaths(textures) && |textures| < UINT32_MAX && LoadedFrom(start, textures, images)
      modifies this`textures, this`trace, this`nextHandle
      ensures DistinctPaths(textures) && |textures| <= |old(textures)| + 1 && LoadedFrom(start, textures, images)
      ensures old(textures) <= textures && nextHandle >= old(nextHandle)
      ensures SlotLoaded(slot, idx, start, textures, images)
    {
      idx := 0;
      if slot.Some? {
        idx := LoadTexture2D(slot.value, images);
        LoadKeepsCache(old(textures), slot.value, images, old(nextHandle));
        if idx == UINT32_MAX {
          assert forall k :: 0 <= k < |start| ==> start[k] == old(textures)[k];
        } else {
          assert slot.value in images || FirstTextureFor(start, slot.value).Some? by {
            if slot.value !in images {
              var k := FirstTextureFor(old(textures), slot.value).value;
              assert k < |start|;
            }
          }
        }
      }
    }

    /**
     * Fills a material from a scene material: its name, and each texture slot
     * the scene material has, loaded from its (already resolved) path.
     */
    method ProcessAssimpMaterial(material: AiMaterial, images: map<string, Image>, ghost start: seq<Texture>)
      returns (myMaterial: Material)
      requires DistinctPaths(textures) && |textures| + 5 < UINT32_MAX && LoadedFrom(start, textures, images)
      modifies this`textures, this`trace, this`nextHandle
      ensures DistinctPaths(textures) && |textures| <= |old(textures)| + 5 && LoadedFrom(start, textures, images)
      ensures old(textures) <= textures && nextHandle >= old(nextHandle)
      ensures myMaterial.name == material.name
      ensures SlotLoaded(material.diffuse, myMaterial.albedoTextureIdx, start, textures, images)
      ensures SlotLoaded(material.emissive, myMaterial.emissiveTextureIdx, start, textures, images)
      ensures SlotLoaded(material.specular, myMaterial.specularTextureIdx, start, textures, images)
      ensures SlotLoaded(material.normals, myMaterial.normalsTextureIdx, start, textures, images)
      ensures SlotLoaded(material.height, myMaterial.bumpTextureIdx, start, textures, images)
    {
      var albedo := LoadSlot(material.diffuse, images, start);
      ghost var t1 := textures;
      var emissive := LoadSlot(material.emissive, images, start);
      ghost var t2 := textures;
      var specular := LoadSlot(material.specular, images, start);
      ghost var t3 := textures;
      var normals := LoadSlot(material.normals, images, start);
      ghost var t4 := textures;
      var bump := LoadSlot(material.height, images, start);
      SlotGrows(material.diffuse, albedo, start, t1, textures, images);
      SlotGrows(material.emissive, emissive, start, t2, textures, images);
      SlotGrows(material.specular, specular, start, t3, textures, images);
      SlotGrows(material.normals, normals, start, t4, textures, images);
      myMaterial := Material(material.name, albedo, emissive, specular, normals, bump);
    }

    // ------------------------------------------------------------ models

    /** Appends one material per scene material, in order, loading the textures they name. */
    method AppendMaterials(sceneMaterials: seq<AiMaterial>, images: map<string, Image>)
      requires DistinctPaths(textures) && |textures| + 5 * |sceneMaterials| + 5 < UINT32_MAX
      modifies this`materials, this`textures, this`trace, this`nextHandle
      ensures DistinctPaths(textures) && LoadedFrom(old(textures), textures, images) && nextHandle >= old(nextHandle)
      ensures old(materials) <= materials
      ensures MaterialsFrom(sceneMaterials, materials, |old(materials)|, old(textures), textures, images)
    {
      ghost var start := textures;
      var base := |materials|;
      var i := 0;
      while i < |sceneMaterials|
        invariant i <= |sceneMaterials|
        invariant |materials| == base + i && old(materials) <= materials
        invariant DistinctPaths(textures) && LoadedFrom(start, textures, images)
        invariant |textures| <= |start| + 5 * i
        invariant nextHandle >= old(nextHandle)
        invariant MaterialsFrom(sceneMaterials[..i], materials, base, start, textures, images)
      {
        ghost var t0 := textures;
        var material := ProcessAssimpMaterial(sceneMaterials[i], images, start);
        MaterialsFromStep(sceneMaterials[..i], materials, base, start, t0, textures, images, sceneMaterials[i], material);
        assert sceneMaterials[..i] + [sceneMaterials[i]] == sceneMaterials[..i + 1];
        materials := materials + [material];
        i := i + 1;
      }
      assert sceneMaterials[..i] == sceneMaterials;
    }

    /**
     * Imports a model: `scene` is what the importer returned (`None` when it
     * failed).  On success one material per scene material, one mesh and one
     * model are appended; the mesh holds every scene mesh in depth-first node
     * order, placed in two new shared buffers, and the model refers to the
     * mesh and to each submesh's material.
     */
    method LoadModel(scene: Option<AiScene>, images: map<string, Image>) returns (modelIdx: nat)
      requires scene.Some? ==> SceneValid(scene.value)
      requires DistinctPaths(textures)
      requires scene.Some? ==> |textures| + 5 * |scene.value.materials| + 5 < UINT32_MAX
      modifies this`meshes, this`models, this`materials, this`textures, this`trace, this`nextHandle
      ensures scene.None? ==> modelIdx == UINT32_MAX && meshes == old(meshes) && models == old(models)
                              && materials == old(materials) && textures == old(textures) && nextHandle == old(nextHandle)
                              && trace == old(trace)
      ensures DistinctPaths(textures) && LoadedFrom(old(textures), textures, images)
      ensures scene.Some? ==>
        var s := scene.value;
        var preorder := Preorder(s, s.root);
        && modelIdx == |old(models)|
        && models == old(models) + [Model(|old(meshes)|, MaterialIndices(|old(materials)|, preorder))]
        && |meshes| == |old(meshes)| + 1 && old(meshes) <= meshes
        && meshes[|old(meshes)|].submeshes == Placed(ImportAll(preorder))
        && old(nextHandle) <= meshes[|old(meshes)|].vertexBufferHandle
        && meshes[|old(meshes)|].indexBufferHandle == meshes[|old(meshes)|].vertexBufferHandle + 1
        && nextHandle == meshes[|old(meshes)|].indexBufferHandle + 1
        && old(materials) <= materials
        && MaterialsFrom(s.materials, materials, |old(materials)|, old(textures), textures, images)
        && EndsWithAllocation(trace, meshes[|old(meshes)|].vertexBufferHandle, meshes[|old(meshes)|].indexBufferHandle)
    {
      if scene.None? {
        return UINT32_MAX;
      }
      var s := scene.value;
      var baseMeshMaterialIndex := |materials|;
      AppendMaterials(s.materials, images);
      var submeshes, materialIdx := ProcessAssimpNode(s, s.root, [], baseMeshMaterialIndex, []);
      ghost var preorder := Preorder(s, s.root);
      assert submeshes == ImportAll(preorder) by {
        assert [] + ImportAll(preorder) == ImportAll(preorder);
      }
      assert materialIdx == MaterialIndices(baseMeshMaterialIndex, preorder) by {
        assert [] + MaterialIndices(baseMeshMaterialIndex, preorder) == MaterialIndices(baseMeshMaterialIndex, preorder);
      }
      ghost var loaded, handle := trace, nextHandle;
      var vertexBufferSize, indexBufferSize;
      modelIdx, vertexBufferSize, indexBufferSize := AddMesh(submeshes, materialIdx);
      AllocationAppended(loaded, handle, handle + 1, vertexBufferSize, indexBufferSize);
    }

    /**
     * Adds a mesh made of `submeshes`, with its two buffers created and each
     * submesh placed in them, and a model pairing it with `materialIdx`; also
     * returns the sizes the two buffers were created with.
     */
    method AddMesh(submeshes: seq<Submesh>, materialIdx: seq<nat>)
      returns (modelIdx: nat, vertexBufferSize: nat, indexBufferSize: nat)
      modifies this`meshes, this`models, this`trace, this`nextHandle
      ensures modelIdx == |old(models)| && models == old(models) + [Model(|old(meshes)|, materialIdx)]
      ensures meshes == old(meshes) + [Mesh(Placed(submeshes), old(nextHandle), old(nextHandle) + 1)]
      ensures nextHandle == old(nextHandle) + 2
      ensures trace == old(trace) + AllocationTrace(old(nextHandle), old(nextHandle) + 1, vertexBufferSize, indexBufferSize)
    {
      var meshIdx := |meshes|;
      modelIdx := |models|;
      var vertexBufferHandle, indexBufferHandle;
      vertexBufferHandle, indexBufferHandle, vertexBufferSize, indexBufferSize := AllocateBuffers(submeshes);
      var placed := AssignOffsets(submeshes);
      meshes := meshes + [Mesh(placed, vertexBufferHandle, indexBufferHandle)];
      models := models + [Model(meshIdx, materialIdx)];
    }

    /**
     * Creates the mesh's shared vertex and index buffers, each sized for the
     * data of all its submeshes, then unbinds both targets.
     */
    method AllocateBuffers(submeshes: seq<Submesh>)
      returns (vertexBufferHandle: nat, indexBufferHandle: nat, vertexBufferSize: nat, indexBufferSize: nat)
      modifies this`trace, this`nextHandle
      ensures vertexBufferHandle == old(nextHandle) && indexBufferHandle == vertexBufferHandle + 1
      ensures nextHandle == indexBufferHandle + 1
      ensures vertexBufferSize == VertexPrefix(submeshes, |submeshes|) && indexBufferSize == IndexPrefix(submeshes, |submeshes|)
      ensures trace == old(trace) + AllocationTrace(vertexBufferHandle, indexBufferHandle, vertexBufferSize, indexBufferSize)
    {
      vertexBufferHandle := nextHandle;
      indexBufferHandle := nextHandle + 1;
      nextHandle := nextHandle + 2;
      vertexBufferSize, indexBufferSize := BufferSizes(submeshes);
      trace := trace + AllocationTrace(vertexBufferHandle, indexBufferHandle, vertexBufferSize, indexBufferSize);
    }

    // ------------------------------------------------------------ bind objects

    /**
     * The bind object for drawing submesh `submeshIndex` of mesh `meshIdx`
     * with `program`: the cached one if the submesh has one for the program's
     * handle, otherwise a new one, linked and added to the submesh's cache.
     */
    method FindVAO(meshIdx: nat, submeshIndex: nat, program: Program) returns (vaoHandle: nat)
      requires meshIdx < |meshes| && submeshIndex < |meshes[meshIdx].submeshes|
      requires var sub := meshes[meshIdx].submeshes[submeshIndex];
        FirstVaoFor(sub.vaos, program.handle).Some? || Covers(sub.layout, program.vertexInputLayout)
      modifies this`meshes, this`trace, this`nextHandle
      ensures var sub := old(meshes)[meshIdx].submeshes[submeshIndex];
        var (h, vaos) := Lookup(sub.vaos, program.handle, old(nextHandle));
        && vaoHandle == h
        && meshes == WithVaos(old(meshes), meshIdx, submeshIndex, vaos)
        && (FirstVaoFor(sub.vaos, program.handle).Some? ==> meshes == old(meshes) && trace == old(trace) && nextHandle == old(nextHandle))
        && (FirstVaoFor(sub.vaos, program.handle).None? ==>
              && trace == old(trace) + MissTrace(old(meshes)[meshIdx], sub, h, program.vertexInputLayout)
              && nextHandle == old(nextHandle) + 1)
    {
      var mesh := meshes[meshIdx];
      var submesh := mesh.submeshes[submeshIndex];
      var found := ScanVaos(submesh.vaos, program.handle);
      if found.Some? {
        assert mesh.submeshes[submeshIndex := submesh.(vaos := submesh.vaos)] == mesh.submeshes;
        assert meshes[meshIdx := mesh.(submeshes := mesh.submeshes)] == meshes;
        return submesh.vaos[found.value].handle;
      }
      vaoHandle := nextHandle;
      nextHandle := nextHandle + 1;
      var links := LinkInputs(submesh, program.vertexInputLayout);
      trace := trace + ([BindVertexArray(vaoHandle), BindBuffer(ArrayBuffer, mesh.vertexBufferHandle),
                         BindBuffer(ElementArrayBuffer, mesh.indexBufferHandle)]
                        + links + [BindVertexArray(0)]);
      meshes := WithVaos(meshes, meshIdx, submeshIndex, submesh.vaos + [Vao(vaoHandle, program.handle)]);
    }

    // ------------------------------------------------------------ update

    method ChangeAppMode(newMode: Mode)
      modifies this`mode
      ensures mode == ModeAfterChange(old(mode), newMode)
    {
      if mode != newMode {
        mode := newMode;
      }
    }

    /**
     * Records the range of every entity's uniform block while writing the
     * frame's uniforms: the global block (camera position, light count, the
     * lights each on a 16-byte boundary), then one block of two matrices per
     * entity, each on a multiple of the device's block alignment.
     */
    method PackUniforms()
      requires uniformBlockAlignment > 0
      requires PackedEnd(|lights|, uniformBlockAlignment, |entities|) <= uniformBuffer.size
      modifies this`entities, this`globalParamsOffset, this`globalParamsSize, uniformBuffer
      ensures globalParamsOffset == 0 && globalParamsSize == LightsEnd(|lights|)
      ensures entities == PlacedEntities(old(entities), |lights|, uniformBlockAlignment)
      ensures uniformBuffer.head == PackedEnd(|lights|, uniformBlockAlignment, |entities|) && !uniformBuffer.mapped
      ensures uniformBuffer.handle == old(uniformBuffer.handle) && uniformBuffer.size == old(uniformBuffer.size)
    {
      var buffer := uniformBuffer;
      var lightCount := |lights|;
      var alignment := uniformBlockAlignment;
      ghost var placed := PlacedEntities(entities, lightCount, alignment);
      if |entities| > 0 {
        EntityAfterGlobals(lightCount, alignment, |entities| - 1);
      }
      buffer.Map();
      var offset := buffer.head;
      PushGlobalParams(buffer, lightCount);
      globalParamsOffset, globalParamsSize := offset, buffer.head - offset;
      var k := 0;
      while k < |entities|
        invariant k <= |entities| && |entities| == |placed| && buffer.mapped
        invariant globalParamsOffset == 0 && globalParamsSize == LightsEnd(lightCount)
        invariant buffer.head == PackedEnd(lightCount, alignment, k)
        invariant buffer.size == old(buffer.size) && buffer.handle == old(buffer.handle)
        invariant forall x :: 0 <= x < k ==> entities[x] == placed[x]
        invariant forall x :: k <= x < |entities| ==> entities[x] == old(entities)[x]
      {
        var head := PushEntityBlock(buffer, lightCount, alignment, k, |entities|);
        entities := entities[k := entities[k].(head := head, size := buffer.head - head)];
        k := k + 1;
      }
      buffer.Unmap();
    }

    /** Escape stops the application; each number key held switches the mode, a later check overriding an earlier one. */
    method HandleKeys(keys: set<Key>)
      modifies this`isRunning, this`mode
      ensures isRunning == (old(isRunning) && Escape !in keys)
      ensures mode == SelectedMode(keys, old(mode))
    {
      if Escape in keys { isRunning := false; }
      if K1 in keys { ChangeAppMode(TexturedQuad); }
      if K2 in keys { ChangeAppMode(MeshMode); }
      if K3 in keys { ChangeAppMode(Framebuffer); }
      if K4 in keys { ChangeAppMode(Normal); }
      if K5 in keys { ChangeAppMode(Depth); }
    }

    /**
     * One frame's update: Escape stops the application and the number keys
     * switch the mode (a later check overriding an earlier one), then hot
     * reload, then the uniform packing.
     */
    method Update(keys: set<Key>, timestamps: seq<nat>, sources: seq<string>)
      requires |timestamps| == |programs| && |sources| == |programs| && NamesFit(programs)
      requires uniformBlockAlignment > 0
      requires PackedEnd(|lights|, uniformBlockAlignment, |entities|) <= uniformBuffer.size
      modifies this`isRunning, this`mode, this`programs, this`trace, this`nextHandle
      modifies this`entities, this`globalParamsOffset, this`globalParamsSize, uniformBuffer
      ensures isRunning == (old(isRunning) && Escape !in keys)
      ensures mode == SelectedMode(keys, old(mode))
      ensures programs == Reloaded(old(programs), timestamps, old(nextHandle))
      ensures nextHandle == old(nextHandle) + ReloadCount(old(programs), timestamps, |programs|)
      ensures trace == old(trace) + ReloadTrace(old(programs), timestamps, sources, old(nextHandle), |programs|)
      ensures globalParamsOffset == 0 && globalParamsSize == LightsEnd(|lights|)
      ensures entities == PlacedEntities(old(entities), |lights|, uniformBlockAlignment)
      ensures uniformBuffer.head == PackedEnd(|lights|, uniformBlockAlignment, |entities|) && !uniformBuffer.mapped
      ensures uniformBuffer.handle == old(uniformBuffer.handle) && uniformBuffer.size == old(uniformBuffer.size)
    {
      HandleKeys(keys);
      HotReload(timestamps, sources);
      PackUniforms();
    }

    // ------------------------------------------------------------ render

    /**
     * Everything the mesh pass reads is in range; in particular no albedo
     * texture is the failed-load sentinel.  Readiness does not depend on the
     * bind-object caches, which the pass itself fills.
     */
    predicate MeshPassReady()
      reads this`texturedMeshProgramIdx, this`programs, this`entities, this`models, this`meshes, this`materials, this`textures
    {
      && texturedMeshProgramIdx < |programs|
      && Drawable(entities, models, meshes)
      && PassReady(entities, models, Shapes(meshes), materials, textures, programs[texturedMeshProgramIdx])
    }

    /**
     * Binds submesh `i` of mesh `mi` through the bind object `FindVAO` gives,
     * binds its material's albedo texture on unit 0, and draws it.
     */
    method DrawSubmesh(e: nat, mi: nat, i: nat, program: Program)
      requires MeshPassReady() && e < |entities| && program == programs[texturedMeshProgramIdx]
      requires mi == MeshOf(entities, models, meshes, e) && i < |meshes[mi].submeshes|
      modifies this`meshes, this`trace, this`nextHandle
      ensures meshes == WithVaos(old(meshes), mi, i, Lookup(old(meshes)[mi].submeshes[i].vaos, program.handle, old(nextHandle)).1)
      ensures Shapes(meshes) == Shapes(old(meshes))
      ensures old(meshes)[mi].submeshes[i].vaos <= meshes[mi].submeshes[i].vaos
      ensures FirstVaoFor(meshes[mi].submeshes[i].vaos, program.handle).Some?
      ensures Draws(trace) == Draws(old(trace)) + [SubmeshDraw(old(meshes)[mi].submeshes[i])]
      ensures Passes(trace) == Passes(old(trace)) + [SubmeshDraw(old(meshes)[mi].submeshes[i])]
      ensures old(trace) <= trace
      ensures var model := models[entities[e].modelIndex];
        && i < |model.materialIdx| && model.materialIdx[i] < |materials|
        && materials[model.materialIdx[i]].albedoTextureIdx < |textures|
        && |trace| >= 3
        && trace[|trace| - 3..] == [BindVertexArray(Lookup(old(meshes)[mi].submeshes[i].vaos, program.handle, old(nextHandle)).0),
                                   BindTexture(0, textures[materials[model.materialIdx[i]].albedoTextureIdx].handle),
                                   SubmeshDraw(old(meshes)[mi].submeshes[i])]
    {
      ReadyAt(entities, models, meshes, materials, textures, program, e);
      var model := models[entities[e].modelIndex];
      ghost var before := meshes;
      ghost var sub := meshes[mi].submeshes[i];
      ghost var freshHandle := nextHandle;
      var vaoHandle := FindVAO(mi, i, program);
      if FirstVaoFor(sub.vaos, program.handle).None? {
        MissDrawsNothing(before[mi], sub, vaoHandle, program.vertexInputLayout);
        DrawsAppend(old(trace), MissTrace(before[mi], sub, vaoHandle, program.vertexInputLayout));
        PassesAppend(old(trace), MissTrace(before[mi], sub, vaoHandle, program.vertexInputLayout));
      }
      CacheFilled(before, meshes, mi, i, program.handle, freshHandle);
      var material := materials[model.materialIdx[i]];
      var submesh := meshes[mi].submeshes[i];
      ghost var bound := trace;
      var draw := DrawElements(|submesh.indices|, UnsignedInt, submesh.indexOffset);
      var binds := [BindVertexArray(vaoHandle), BindTexture(0, textures[material.albedoTextureIdx].handle)];
      trace := trace + (binds + [draw]);
      BindsThenDraw(bound, binds, draw);
      assert trace[|trace| - 3..] == binds + [draw];
    }

    /**
     * Binds entity `e`'s own uniform block at binding 1, then draws every
     * submesh of its mesh with `program`: all of the entity's draws read its
     * block.
     */
    method DrawEntity(e: nat, program: Program)
      requires MeshPassReady() && e < |entities| && program == programs[texturedMeshProgramIdx]
      modifies this`meshes, this`trace, this`nextHandle
      ensures Shapes(meshes) == Shapes(old(meshes)) && old(trace) <= trace
      ensures var m := MeshOf(entities, models, old(meshes), e);
        Passes(trace) == Passes(old(trace)) + ([EntityBind(uniformBuffer.handle, entities[e])]
                                               + MeshDraws(old(meshes)[m], |old(meshes)[m].submeshes|))
      ensures var m := MeshOf(entities, models, old(meshes), e);
        Draws(trace) == Draws(old(trace)) + MeshDraws(old(meshes)[m], |old(meshes)[m].submeshes|)
    {
      var mi := models[entities[e].modelIndex].meshIdx;
      var bind := [BindBufferRange(1, uniformBuffer.handle, entities[e].head, entities[e].size)];
      trace := trace + bind;
      PassesAppend(old(trace), bind);
      assert bind[..0] == [];
      ghost var start := Passes(old(trace)) + bind;
      var i := 0;
      while i < |meshes[mi].submeshes|
        invariant Shapes(meshes) == Shapes(old(meshes)) && i <= |old(meshes)[mi].submeshes|
        invariant old(trace) <= trace
        invariant Passes(trace) == start + MeshDraws(old(meshes)[mi], i)
      {
        SameShapesAt(old(meshes), meshes, mi, i);
        ghost var drawn := trace;
        DrawSubmesh(e, mi, i, program);
        SubmeshDrawn(old(meshes)[mi], i, start, Passes(drawn), Passes(trace), meshes[mi].submeshes[i]);
        i := i + 1;
      }
      SameShapesAt(old(meshes), meshes, mi, i);
      assert Passes(trace) == Passes(old(trace)) + (bind + MeshDraws(old(meshes)[mi], i));
      DrawsFromPasses(old(trace), trace, bind + MeshDraws(old(meshes)[mi], i));
      EntityBindDraws(uniformBuffer.handle, entities[e], old(meshes)[mi]);
    }

    /** Draws every entity, in order, each under its own uniform block. */
    method DrawEntities(program: Program)
      requires MeshPassReady() && program == programs[texturedMeshProgramIdx]
      modifies this`meshes, this`trace, this`nextHandle
      ensures Shapes(meshes) == Shapes(old(meshes)) && old(trace) <= trace
      ensures Passes(trace) == Passes(old(trace)) + EntityPasses(entities, models, old(meshes), uniformBuffer.handle, |entities|)
      ensures Draws(trace) == Draws(old(trace)) + MeshPassDraws(entities, models, old(meshes), |entities|)
    {
      var e := 0;
      while e < |entities|
        invariant e <= |entities| && Shapes(meshes) == Shapes(old(meshes)) && old(trace) <= trace
        invariant Passes(trace) == Passes(old(trace)) + EntityPasses(entities, models, old(meshes), uniformBuffer.handle, e)
      {
        ghost var before, drawn := meshes, trace;
        DrawEntity(e, program);
        EntityDrawn(entities, models, old(meshes), before, uniformBuffer.handle, e, Passes(old(trace)), Passes(drawn), Passes(trace));
        e := e + 1;
      }
      DrawsFromPasses(old(trace), trace, EntityPasses(entities, models, old(meshes), uniformBuffer.handle, |entities|));
      EntityPassesDraws(entities, models, old(meshes), uniformBuffer.handle, |entities|);
    }

    /**
     * The mesh pass: clears, binds the textured-mesh program and the global
     * uniform block, draws every entity, then unbinds.  Only the caches of
     * the meshes change, and the draws are the mesh pass's.
     */
    method RenderMeshMode()
      requires MeshPassReady()
      modifies this`meshes, this`trace, this`nextHandle
      ensures Shapes(meshes) == Shapes(old(meshes)) && MeshPassReady()
      ensures old(trace) + [Clear, UseProgram(programs[texturedMeshProgramIdx].handle)] <= trace
      ensures Passes(trace) == Passes(old(trace))
                               + MeshPass(entities, models, old(meshes), uniformBuffer.handle, globalParamsOffset, globalParamsSize)
      ensures Draws(trace) == Draws(old(trace)) + MeshPassDraws(entities, models, old(meshes), |entities|)
      ensures |trace| >= 2 && trace[|trace| - 2..] == [BindVertexArray(0), UseProgram(0)]
    {
      var program := programs[texturedMeshProgramIdx];
      var setup := [Clear, UseProgram(program.handle)];
      var globals := [BindBufferRange(0, uniformBuffer.handle, globalParamsOffset, globalParamsSize)];
      trace := trace + setup + globals;
      NoPasses(setup);
      PassesAppend(old(trace), setup);
      PassesAppend(old(trace) + setup, globals);
      assert globals[..0] == [];
      ghost var started := trace;
      DrawEntities(program);
      var unbind := [BindVertexArray(0), UseProgram(0)];
      ghost var drawn := trace;
      trace := trace + unbind;
      NoPasses(unbind);
      PassesAppend(drawn, unbind);
      DrawsFromPasses(old(trace), trace, MeshPass(entities, models, old(meshes), uniformBuffer.handle, globalParamsOffset, globalParamsSize));
      MeshPassDrawsOf(entities, models, old(meshes), uniformBuffer.handle, globalParamsOffset, globalParamsSize);
    }

    /** Issues commands that are no passes and bind no texture. */
    method Emit(cmds: seq<Cmd>)
      requires forall k :: 0 <= k < |cmds| ==> !IsPass(cmds[k]) && !cmds[k].BindTexture?
      modifies this`trace
      ensures trace == old(trace) + cmds
      ensures Passes(trace) == Passes(old(trace)) && Draws(trace) == Draws(old(trace))
      ensures forall unit :: UnitTexture(trace, unit) == UnitTexture(old(trace), unit)
    {
      NoPasses(cmds);
      DrawsAppend(trace, cmds);
      PassesAppend(trace, cmds);
      forall unit
        ensures UnitTexture(trace + cmds, unit) == UnitTexture(trace, unit)
      {
        NoTextureBinds(trace, cmds, unit);
      }
      trace := trace + cmds;
    }

    /** Makes `framebuffer` the render target of the draws that follow; 0 is the default framebuffer. */
    method BindTarget(framebuffer: nat)
      modifies this`trace
      ensures trace == old(trace) + [BindFramebuffer(framebuffer)]
      ensures Passes(trace) == Passes(old(trace)) + [BindFramebuffer(framebuffer)] && Draws(trace) == Draws(old(trace))
      ensures forall unit :: UnitTexture(trace, unit) == UnitTexture(old(trace), unit)
    {
      var cmds := [BindFramebuffer(framebuffer)];
      NoDraws(cmds);
      DrawsAppend(trace, cmds);
      PassesAppend(trace, cmds);
      assert cmds[..0] == [];
      forall unit
        ensures UnitTexture(trace + cmds, unit) == UnitTexture(trace, unit)
      {
        NoTextureBinds(trace, cmds, unit);
      }
      trace := trace + cmds;
    }

    /** The screen quad drawn with the textured-geometry program and `texs[k]` on texture unit `k`. */
    method DrawQuad(texs: seq<nat>)
      requires texturedGeometryProgramIdx < |programs|
      modifies this`trace
      ensures trace == old(trace) + QuadPass(programs[texturedGeometryProgramIdx].handle, vao, texs)
      ensures Passes(trace) == Passes(old(trace)) + [QuadDraw()]
      ensures Draws(trace) == Draws(old(trace)) + [QuadDraw()]
      ensures UnitsBound(trace, texs)
    {
      var pass := QuadPass(programs[texturedGeometryProgramIdx].handle, vao, texs);
      QuadPassDraws(trace, programs[texturedGeometryProgramIdx].handle, vao, texs);
      trace := trace + pass;
    }

    /** The dice texture on the screen quad. */
    method RenderQuadMode()
      requires texturedGeometryProgramIdx < |programs| && diceTexIdx < |textures|
      modifies this`trace
      ensures Passes(trace) == Passes(old(trace)) + ModePasses(TexturedQuad, [], framebufferHandle)
      ensures Draws(trace) == Draws(old(trace)) + ModeDraws(TexturedQuad, [])
      ensures UnitsBound(trace, [textures[diceTexIdx].handle])
      ensures trace == old(trace) + [Clear] + QuadPass(programs[texturedGeometryProgramIdx].handle, vao, [textures[diceTexIdx].handle])
                      + [BindVertexArray(0), UseProgram(0)]
    {
      Emit([Clear]);
      DrawQuad([textures[diceTexIdx].handle]);
      Emit([BindVertexArray(0), UseProgram(0)]);
    }

    /**
     * The mesh pass rendered into the geometry framebuffer, then the screen
     * quad drawn with `texs[k]` on texture unit `k`.
     */
    method RenderGBufferView(texs: seq<nat>)
      requires MeshPassReady() && texturedGeometryProgramIdx < |programs|
      modifies this`meshes, this`trace, this`nextHandle
      ensures Shapes(meshes) == Shapes(old(meshes))
      ensures Passes(trace) == Passes(old(trace)) + ([BindFramebuffer(framebufferHandle)]
        + MeshPass(entities, models, old(meshes), uniformBuffer.handle, globalParamsOffset, globalParamsSize)
        + [BindFramebuffer(0), QuadDraw()])
      ensures Draws(trace) == Draws(old(trace)) + MeshPassDraws(entities, models, old(meshes), |entities|) + [QuadDraw()]
      ensures UnitsBound(trace, texs)
    {
      ghost var p0 := Passes(trace);
      ghost var meshPass := MeshPass(entities, models, meshes, uniformBuffer.handle, globalParamsOffset, globalParamsSize);
      BindTarget(framebufferHandle);
      Emit([Clear]);
      RenderMeshMode();
      BindTarget(0);
      DrawQuad(texs);
      Regrouped(p0, [BindFramebuffer(framebufferHandle)], meshPass, [BindFramebuffer(0)], [QuadDraw()]);
    }

    /** All five geometry-buffer attachments on units 0 to 4 over the quad. */
    method RenderFramebufferMode()
      requires MeshPassReady() && texturedGeometryProgramIdx < |programs|
      modifies this`meshes, this`trace, this`nextHandle
      ensures Shapes(meshes) == Shapes(old(meshes))
      ensures Passes(trace) == Passes(old(trace)) + ModePasses(Framebuffer,
        MeshPass(entities, models, old(meshes), uniformBuffer.handle, globalParamsOffset, globalParamsSize), framebufferHandle)
      ensures Draws(trace) == Draws(old(trace)) + ModeDraws(Framebuffer, MeshPassDraws(entities, models, old(meshes), |entities|))
      ensures UnitsBound(trace, [albedoAOAttachmentHandle, specularRoughnessAttachmentHandle, normalsAttachmentHandle,
                                 emissiveLightmapsAttachmentHandle, positionAttachmentHandle])
    {
      RenderGBufferView([albedoAOAttachmentHandle, specularRoughnessAttachmentHandle, normalsAttachmentHandle,
                         emissiveLightmapsAttachmentHandle, positionAttachmentHandle]);
    }

    /** The first four geometry-buffer attachments on units 0 to 3 over the quad. */
    method RenderAlbedoMode()
      requires MeshPassReady() && texturedGeometryProgramIdx < |programs|
      modifies this`meshes, this`trace, this`nextHandle
      ensures Shapes(meshes) == Shapes(old(meshes))
      ensures Passes(trace) == Passes(old(trace)) + ModePasses(Albedo,
        MeshPass(entities, models, old(meshes), uniformBuffer.handle, globalParamsOffset, globalParamsSize), framebufferHandle)
      ensures Draws(trace) == Draws(old(trace)) + ModeDraws(Albedo, MeshPassDraws(entities, models, old(meshes), |entities|))
      ensures UnitsBound(trace, [albedoAOAttachmentHandle, specularRoughnessAttachmentHandle, normalsAttachmentHandle,
                                 emissiveLightmapsAttachmentHandle])
    {
      RenderGBufferView([albedoAOAttachmentHandle, specularRoughnessAttachmentHandle, normalsAttachmentHandle,
                         emissiveLightmapsAttachmentHandle]);
    }

    /** The normals attachment over the quad. */
    method RenderNormalMode()
      requires MeshPassReady() && texturedGeometryProgramIdx < |programs|
      modifies this`meshes, this`trace, this`nextHandle
      ensures Shapes(meshes) == Shapes(old(meshes))
      ensures Passes(trace) == Passes(old(trace)) + ModePasses(Normal,
        MeshPass(entities, models, old(meshes), uniformBuffer.handle, globalParamsOffset, globalParamsSize), framebufferHandle)
      ensures Draws(trace) == Draws(old(trace)) + ModeDraws(Normal, MeshPassDraws(entities, models, old(meshes), |entities|))
      ensures UnitsBound(trace, [normalsAttachmentHandle])
    {
      RenderGBufferView([normalsAttachmentHandle]);
    }

    /** The position attachment over the quad, without the mesh pass. */
    method RenderPositionMode()
      requires texturedGeometryProgramIdx < |programs|
      modifies this`trace
      ensures Passes(trace) == Passes(old(trace)) + ModePasses(Position, [], framebufferHandle)
      ensures Draws(trace) == Draws(old(trace)) + ModeDraws(Position, [])
      ensures UnitsBound(trace, [positionAttachmentHandle])
    {
      Emit([Clear]);
      DrawQuad([positionAttachmentHandle]);
    }

    /** The depth attachment over the quad, without the mesh pass. */
    method RenderDepthMode()
      requires texturedGeometryProgramIdx < |programs|
      modifies this`trace
      ensures Passes(trace) == Passes(old(trace)) + ModePasses(Depth, [], framebufferHandle)
      ensures Draws(trace) == Draws(old(trace)) + ModeDraws(Depth, [])
      ensures UnitsBound(trace, [depthAttachmentHandle])
    {
      Emit([Clear]);
      DrawQuad([depthAttachmentHandle]);
    }

    /** What the current mode reads is in range. */
    predicate RenderReady()
      reads this`mode, this`texturedMeshProgramIdx, this`texturedGeometryProgramIdx, this`diceTexIdx, this`programs,
            this`entities, this`models, this`meshes, this`materials, this`textures
    {
      && (UsesMeshPass(mode) ==> MeshPassReady())
      && (mode != MeshMode && mode != Count ==> texturedGeometryProgramIdx < |programs|)
      && (mode == TexturedQuad ==> diceTexIdx < |textures|)
    }

    /** The textures the current mode leaves on units 0, 1, ... for its quad draw. */
    function ModeUnits(): seq<nat>
      reads this`mode, this`diceTexIdx, this`textures, this`albedoAOAttachmentHandle, this`specularRoughnessAttachmentHandle,
            this`normalsAttachmentHandle, this`emissiveLightmapsAttachmentHandle, this`positionAttachmentHandle,
            this`depthAttachmentHandle
    {
      match mode
      case TexturedQuad => if diceTexIdx < |textures| then [textures[diceTexIdx].handle] else []
      case Framebuffer => [albedoAOAttachmentHandle, specularRoughnessAttachmentHandle, normalsAttachmentHandle,
                           emissiveLightmapsAttachmentHandle, positionAttachmentHandle]
      case Albedo => [albedoAOAttachmentHandle, specularRoughnessAttachmentHandle, normalsAttachmentHandle,
                      emissiveLightmapsAttachmentHandle]
      case Normal => [normalsAttachmentHandle]
      case Position => [positionAttachmentHandle]
      case Depth => [depthAttachmentHandle]
      case _ => []
    }

    /** Runs the render function of the current mode; `Count` has none. */
    method DispatchMode()
      requires RenderReady()
      modifies this`meshes, this`trace, this`nextHandle
      ensures Shapes(meshes) == Shapes(old(meshes))
      ensures UsesMeshPass(mode) ==>
        Passes(trace) == Passes(old(trace)) + ModePasses(mode,
          MeshPass(entities, models, old(meshes), uniformBuffer.handle, globalParamsOffset, globalParamsSize), framebufferHandle)
      ensures UsesMeshPass(mode) ==>
        Draws(trace) == Draws(old(trace)) + ModeDraws(mode, MeshPassDraws(entities, models, old(meshes), |entities|))
      ensures !UsesMeshPass(mode) ==>
        meshes == old(meshes) && nextHandle == old(nextHandle) && Draws(trace) == Draws(old(trace)) + ModeDraws(mode, [])
      ensures !UsesMeshPass(mode) ==> Passes(trace) == Passes(old(trace)) + ModePasses(mode, [], framebufferHandle)
      ensures UnitsBound(trace, ModeUnits())
    {
      match mode
      case TexturedQuad => RenderQuadMode();
      case MeshMode => RenderMeshMode();
      case Framebuffer => RenderFramebufferMode();
      case Albedo => RenderAlbedoMode();
      case Normal => RenderNormalMode();
      case Position => RenderPositionMode();
      case Depth => RenderDepthMode();
      case Count =>
    }

    /**
     * Renders the current mode, then unbinds the bind object and the program.
     * The frame draws what the mode draws; the quad modes leave their
     * textures bound on units 0, 1, ...; only the mesh pass touches the
     * meshes, and only their caches.
     */
    method Render()
      requires RenderReady()
      modifies this`meshes, this`trace, this`nextHandle
      ensures Shapes(meshes) == Shapes(old(meshes))
      ensures UsesMeshPass(mode) ==>
        Passes(trace) == Passes(old(trace)) + ModePasses(mode,
          MeshPass(entities, models, old(meshes), uniformBuffer.handle, globalParamsOffset, globalParamsSize), framebufferHandle)
      ensures UsesMeshPass(mode) ==>
        Draws(trace) == Draws(old(trace)) + ModeDraws(mode, MeshPassDraws(entities, models, old(meshes), |entities|))
      ensures !UsesMeshPass(mode) ==>
        meshes == old(meshes) && nextHandle == old(nextHandle) && Draws(trace) == Draws(old(trace)) + ModeDraws(mode, [])
      ensures !UsesMeshPass(mode) ==> Passes(trace) == Passes(old(trace)) + ModePasses(mode, [], framebufferHandle)
      ensures UnitsBound(trace, ModeUnits())
      ensures |trace| >= 2 && trace[|trace| - 2..] == [BindVertexArray(0), UseProgram(0)]
    {
      DispatchMode();
      ghost var units := ModeUnits();
      ghost var drawn := trace;
      Emit([BindVertexArray(0), UseProgram(0)]);
      assert UnitsBound(drawn, units);
    }
  }

  /**
   * A reload of the first `i` programs of `before` is done: they hold their
   * reloaded values, the others are as they were, a handle was used per
   * program rebuilt and the trace grew by the reload's calls.
   */
  predicate ReloadedUpTo(before: seq<Program>, timestamps: seq<nat>, sources: seq<string>, base: nat, i: nat,
                         programs: seq<Program>, nextHandle: nat, t0: seq<Cmd>, trace: seq<Cmd>)
  {
    && |timestamps| == |before| && |sources| == |before| && NamesFit(before)
    && |programs| == |before| && i <= |before|
    && (forall j :: 0 <= j < i ==> programs[j] == Reloaded(before, timestamps, base)[j])
    && (forall j :: i <= j < |programs| ==> programs[j] == before[j])
    && nextHandle == base + ReloadCount(before, timestamps, i)
    && trace == t0 + ReloadTrace(before, timestamps, sources, base, i)
  }

  /** Reloading program `i` extends a reload of the first `i` programs to the first `i + 1`. */
  lemma {:induction false} ReloadStep(before: seq<Program>, timestamps: seq<nat>, sources: seq<string>, base: nat, i: nat,
                                      prev: seq<Program>, prevHandle: nat, t0: seq<Cmd>, prevTrace: seq<Cmd>,
                                      next: seq<Program>, nextHandle: nat, nextTrace: seq<Cmd>)
    requires ReloadedUpTo(before, timestamps, sources, base, i, prev, prevHandle, t0, prevTrace) && i < |before|
    requires var p := prev[i];
      if Stale(p, timestamps[i]) then
        && next == prev[i := p.(handle := prevHandle, lastWriteTimestamp := timestamps[i])]
        && nextHandle == prevHandle + 1
        && nextTrace == prevTrace + RebuildTrace(p, sources[i], prevHandle)
      else next == prev && nextHandle == prevHandle && nextTrace == prevTrace
    ensures ReloadedUpTo(before, timestamps, sources, base, i + 1, next, nextHandle, t0, nextTrace)
  {
    var r := Reloaded(before, timestamps, base);
    if Stale(before[i], timestamps[i]) {
      assert next[i] == r[i];
    } else {
      assert prev[i := r[i]] == next;
    }
    var done := ReloadTrace(before, timestamps, sources, base, i);
    var step := if Stale(before[i], timestamps[i]) then RebuildTrace(before[i], sources[i], prevHandle) else [];
    assert ReloadTrace(before, timestamps, sources, base, i + 1) == done + step;
    assert t0 + (done + step) == (t0 + done) + step;
  }

  /** A reload of all the programs is the registry's reload. */
  lemma {:induction false} ReloadedAll(before: seq<Program>, timestamps: seq<nat>, sources: seq<string>, base: nat,
                                       programs: seq<Program>, nextHandle: nat, t0: seq<Cmd>, trace: seq<Cmd>)
    requires ReloadedUpTo(before, timestamps, sources, base, |programs|, programs, nextHandle, t0, trace)
    ensures programs == Reloaded(before, timestamps, base)
  {
  }

  /** Writes the global block: the camera position, the light count and each light on a 16-byte boundary. */
  method PushGlobalParams(buffer: Buffer, lightCount: nat)
    requires buffer.mapped && buffer.head == 0 && LightsEnd(lightCount) <= buffer.size
    modifies buffer
    ensures buffer.head == LightsEnd(lightCount) && buffer.mapped
    ensures buffer.size == old(buffer.size) && buffer.handle == old(buffer.handle)
  {
    buffer.PushVec3();
    buffer.PushUInt();
    var j := 0;
    while j < lightCount
      invariant j <= lightCount && buffer.mapped
      invariant buffer.head == LightsEnd(j)
      invariant buffer.size == old(buffer.size) && buffer.handle == old(buffer.handle)
    {
      LightsGrow(j, lightCount);
      buffer.AlignHead(Vec4Size);
      buffer.PushUInt();
      buffer.PushVec3();
      buffer.PushVec3();
      buffer.PushVec3();
      j := j + 1;
    }
  }

  /** Writes entity `k`'s block of two matrices at the next multiple of `alignment`, and returns where it starts. */
  method PushEntityBlock(buffer: Buffer, lightCount: nat, alignment: nat, k: nat, entityCount: nat) returns (head: nat)
    requires alignment > 0 && k < entityCount
    requires buffer.mapped && buffer.head == PackedEnd(lightCount, alignment, k)
    requires PackedEnd(lightCount, alignment, entityCount) <= buffer.size
    modifies buffer
    ensures head == EntityHead(lightCount, alignment, k) && buffer.head == head + EntityBlockSize
    ensures buffer.head == PackedEnd(lightCount, alignment, k + 1) && buffer.mapped
    ensures buffer.size == old(buffer.size) && buffer.handle == old(buffer.handle)
  {
    buffer.AlignHead(alignment);
    head := buffer.head;
    EntityHeadsGrow(lightCount, alignment, k, entityCount - 1);
    buffer.PushMat4();
    buffer.PushMat4();
  }

  /**
   * Looking up one submesh's cache for a program leaves the shapes alone,
   * keeps every entry and leaves the submesh cached for the program.
   */
  lemma {:induction false} CacheFilled(before: seq<Mesh>, after: seq<Mesh>, mi: nat, i: nat, programHandle: nat, freshHandle: nat)
    requires mi < |before| && i < |before[mi].submeshes|
    requires after == WithVaos(before, mi, i, Lookup(before[mi].submeshes[i].vaos, programHandle, freshHandle).1)
    ensures Shapes(after) == Shapes(before)
    ensures before[mi].submeshes[i].vaos <= after[mi].submeshes[i].vaos
    ensures FirstVaoFor(after[mi].submeshes[i].vaos, programHandle).Some?
    ensures SubmeshDraw(after[mi].submeshes[i]) == SubmeshDraw(before[mi].submeshes[i])
  {
    LookupKeepsEntries(before[mi].submeshes[i].vaos, programHandle, freshHandle);
    ShapesWithVaos(before, mi, i, Lookup(before[mi].submeshes[i].vaos, programHandle, freshHandle).1);
  }

  /** One more submesh drawn: the passes grow by its draw, whatever its cache holds. */
  lemma {:induction false} SubmeshDrawn(mesh: Mesh, i: nat, p0: seq<Cmd>, p1: seq<Cmd>, p2: seq<Cmd>, sub: Submesh)
    requires i < |mesh.submeshes| && sub.(vaos := []) == mesh.submeshes[i].(vaos := [])
    requires p1 == p0 + MeshDraws(mesh, i)
    requires p2 == p1 + [SubmeshDraw(sub)]
    ensures p2 == p0 + MeshDraws(mesh, i + 1)
  {
    assert sub.(vaos := []).indices == mesh.submeshes[i].(vaos := []).indices;
    assert sub.(vaos := []).indexOffset == mesh.submeshes[i].(vaos := []).indexOffset;
  }

  /** One more entity drawn: the passes grow by its block bind and its mesh's draws. */
  lemma {:induction false} EntityDrawn(entities: seq<Entity>, models: seq<Model>, start: seq<Mesh>, before: seq<Mesh>,
                                       buffer: nat, e: nat, p0: seq<Cmd>, p1: seq<Cmd>, p2: seq<Cmd>)
    requires Drawable(entities, models, start) && Shapes(start) == Shapes(before) && e < |entities|
    requires p1 == p0 + EntityPasses(entities, models, start, buffer, e)
    requires var m := MeshOf(entities, models, start, e);
      p2 == p1 + ([EntityBind(buffer, entities[e])] + MeshDraws(before[m], |before[m].submeshes|))
    ensures p2 == p0 + EntityPasses(entities, models, start, buffer, e + 1)
  {
    var m := MeshOf(entities, models, start, e);
    var pass, step := EntityPasses(entities, models, start, buffer, e),
                      [EntityBind(buffer, entities[e])] + MeshDraws(start[m], |start[m].submeshes|);
    assert EntityPasses(entities, models, start, buffer, e + 1) == pass + step;
    SameShapesDraws(start, before, m);
    assert p0 + pass + step == p0 + (pass + step);
  }

  /** Appending commands that are no passes and then one draw adds exactly that draw, to the draws and to the passes. */
  lemma {:induction false} BindsThenDraw(trace: seq<Cmd>, binds: seq<Cmd>, draw: Cmd)
    requires forall k :: 0 <= k < |binds| ==> !IsPass(binds[k])
    requires draw.DrawElements?
    ensures Draws(trace + (binds + [draw])) == Draws(trace) + [draw]
    ensures Passes(trace + (binds + [draw])) == Passes(trace) + [draw]
  {
    NoPasses(binds);
    assert trace + (binds + [draw]) == (trace + binds) + [draw];
    DrawsAppend(trace, binds);
    PassesAppend(trace, binds);
    assert (trace + binds + [draw])[..|trace + binds + [draw]| - 1] == trace + binds;
  }

  /** Appending four pieces one after another appends them as one sequence. */
  lemma {:induction false} Regrouped(p0: seq<Cmd>, a: seq<Cmd>, b: seq<Cmd>, c: seq<Cmd>, d: seq<Cmd>)
    ensures p0 + a + b + c + d == p0 + (a + b + c + d)
  {
  }

  /** A slot's result stays valid as more textures are loaded. */
  lemma {:induction false} SlotGrows(slot: Option<string>, idx: nat, start: seq<Texture>, mid: seq<Texture>, after: seq<Texture>, images: map<string, Image>)
    requires SlotLoaded(slot, idx, start, mid, images) && mid <= after
    ensures SlotLoaded(slot, idx, start, after, images)
  {
    if slot.Some? && idx != UINT32_MAX {
      assert after[idx] == mid[idx];
    }
  }

  /** A material's fields were filled from the scene material. */
  predicate MaterialFrom(source: AiMaterial, m: Material, start: seq<Texture>, textures: seq<Texture>, images: map<string, Image>)
  {
    && m.name == source.name
    && SlotLoaded(source.diffuse, m.albedoTextureIdx, start, textures, images)
    && SlotLoaded(source.emissive, m.emissiveTextureIdx, start, textures, images)
    && SlotLoaded(source.specular, m.specularTextureIdx, start, textures, images)
    && SlotLoaded(source.normals, m.normalsTextureIdx, start, textures, images)
    && SlotLoaded(source.height, m.bumpTextureIdx, start, textures, images)
  }

  lemma {:induction false} MaterialGrows(source: AiMaterial, m: Material, start: seq<Texture>, mid: seq<Texture>, after: seq<Texture>, images: map<string, Image>)
    requires MaterialFrom(source, m, start, mid, images) && mid <= after
    ensures MaterialFrom(source, m, start, after, images)
  {
    SlotGrows(source.diffuse, m.albedoTextureIdx, start, mid, after, images);
    SlotGrows(source.emissive, m.emissiveTextureIdx, start, mid, after, images);
    SlotGrows(source.specular, m.specularTextureIdx, start, mid, after, images);
    SlotGrows(source.normals, m.normalsTextureIdx, start, mid, after, images);
    SlotGrows(source.height, m.bumpTextureIdx, start, mid, after, images);
  }

  /** `materials` ends, from index `base`, with one material filled from each of `sources`. */
  predicate MaterialsFrom(sources: seq<AiMaterial>, materials: seq<Material>, base: nat, start: seq<Texture>,
                          textures: seq<Texture>, images: map<string, Image>)
  {
    && |materials| == base + |sources|
    && forall j :: 0 <= j < |sources| ==> MaterialFrom(sources[j], materials[base + j], start, textures, images)
  }

  lemma {:induction false} MaterialsFromStep(sources: seq<AiMaterial>, materials: seq<Material>, base: nat, start: seq<Texture>,
                                             mid: seq<Texture>, after: seq<Texture>, images: map<string, Image>,
                                             source: AiMaterial, m: Material)
    requires MaterialsFrom(sources, materials, base, start, mid, images) && mid <= after
    requires MaterialFrom(source, m, start, after, images)
    ensures MaterialsFrom(sources + [source], materials + [m], base, start, after, images)
  {
    var ss, ms := sources + [source], materials + [m];
    forall j | 0 <= j < |ss|
      ensures MaterialFrom(ss[j], ms[base + j], start, after, images)
    {
      if j < |sources| {
        MaterialGrows(sources[j], materials[base + j], start, mid, after, images);
      }
    }
  }

  /** Each light's record ends no later than the whole global block. */
  lemma {:induction false} LightsGrow(j: nat, lightCount: nat)
    requires j < lightCount
    ensures LightsEnd(j) <= LightHead(j) && LightHead(j) + LightRecordSize == LightsEnd(j + 1)
    ensures LightsEnd(j + 1) <= LightsEnd(lightCount)
  {
    LightLayout(j);
    LightLayout(lightCount - 1);
    if j > 0 {
      LightLayout(j - 1);
    }
  }
}
