/**
 * Conversion of an imported scene into submeshes: the interleaved vertex
 * stream and the vertex format of each mesh, its flattened face indices, its
 * material index, and the depth-first order in which a scene's meshes are
 * visited.  The scene importer itself is an external collaborator; its output
 * is the abstract `AiScene` below.
 */
module MeshImport {
  import opened Wrappers
  import opened EngineTypes
  import opened VertexLayout

  /**
   * A mesh as the importer returns it: the vertex count, which optional
   * per-vertex arrays are present, the faces as index lists, and the index
   * of its material within the scene.  Vertex values are not modelled.
   */
  datatype AiMesh = AiMesh(
    numVertices: nat,
    hasTexCoordArray: bool,
    hasTangentArray: bool,
    hasBitangentArray: bool,
    faces: seq<seq<nat>>,
    materialIndex: nat)

  /** A scene node: indices into the scene's mesh list, and child nodes. */
  datatype AiNode = AiNode(meshes: seq<nat>, children: seq<AiNode>)

  /** A scene material: its name and, per texture type, the resolved file path if present. */
  datatype AiMaterial = AiMaterial(
    name: string,
    diffuse: Option<string>,
    emissive: Option<string>,
    specular: Option<string>,
    normals: Option<string>,
    height: Option<string>)

  datatype AiScene = AiScene(meshes: seq<AiMesh>, materials: seq<AiMaterial>, root: AiNode)

  /** Every mesh reference in the subtree of `node` is an index into a list of `meshCount` meshes. */
  predicate NodeRefsValid(node: AiNode, meshCount: nat)
    decreases node
  {
    && (forall k :: 0 <= k < |node.meshes| ==> node.meshes[k] < meshCount)
    && (forall c :: 0 <= c < |node.children| ==> NodeRefsValid(node.children[c], meshCount))
  }

  /** What the importer guarantees of a scene it returns. */
  predicate SceneValid(scene: AiScene)
  {
    && NodeRefsValid(scene.root, |scene.meshes|)
    && forall m :: 0 <= m < |scene.meshes| ==> scene.meshes[m].materialIndex < |scene.materials|
  }

  // ---------------------------------------------------------------- vertices

  /** Texture coordinates are recorded as present only once a vertex has been emitted. */
  function TexCoordsUsed(mesh: AiMesh): bool
  {
    mesh.hasTexCoordArray && mesh.numVertices > 0
  }

  /** Tangent space needs both the tangent and the bitangent arrays, and at least one vertex. */
  function TangentSpaceUsed(mesh: AiMesh): bool
  {
    mesh.hasTangentArray && mesh.hasBitangentArray && mesh.numVertices > 0
  }

  /** The floats of one attribute of vertex `v`. */
  function AttributeFloats(v: nat, s: Slot): (r: seq<Component>)
    ensures |r| == s.componentCount
    ensures forall c :: 0 <= c < |r| ==> r[c] == Component(v, s.location, c)
  {
    seq(s.componentCount, c requires 0 <= c < s.componentCount => Component(v, s.location, c))
  }

  /** The interleaved record of vertex `v`: the floats of each slot in turn. */
  function Record(v: nat, slots: seq<Slot>): (r: seq<Component>)
    ensures |r| == Floats(slots)
  {
    if slots == [] then [] else AttributeFloats(v, slots[0]) + Record(v, slots[1..])
  }

  /** The stream of the first `n` vertex records, back to back. */
  function VertexStream(n: nat, slots: seq<Slot>): seq<Component>
  {
    if n == 0 then [] else VertexStream(n - 1, slots) + Record(n - 1, slots)
  }

  /** The stream of `n` records holds `n` times the floats of one record. */
  lemma {:induction false} StreamLength(n: nat, slots: seq<Slot>)
    ensures |VertexStream(n, slots)| == n * Floats(slots)
  {
    if n > 0 {
      StreamLength(n - 1, slots);
      assert n * Floats(slots) == (n - 1) * Floats(slots) + Floats(slots);
    }
  }

  /** Axis `c` of slot `k` sits in the record right after the floats of the slots before it. */
  lemma {:induction false} RecordAt(v: nat, slots: seq<Slot>, k: nat, c: nat)
    requires k < |slots| && c < slots[k].componentCount
    ensures Floats(slots[..k]) + c < |Record(v, slots)|
    ensures Record(v, slots)[Floats(slots[..k]) + c] == Component(v, slots[k].location, c)
  {
    if k == 0 {
      assert slots[..0] == [];
    } else {
      RecordAt(v, slots[1..], k - 1, c);
      assert slots[..k][1..] == slots[1..][..k - 1];
      assert slots[..k] != [];
    }
  }

  lemma {:induction false} MulMonotone(a: nat, b: nat, f: nat)
    requires a <= b
    ensures a * f <= b * f
  {
    if a < b {
      MulMonotone(a, b - 1, f);
      assert b * f == (b - 1) * f + f;
    }
  }

  /** Float `k` of vertex `v`'s record sits at `v * recordFloats + k` in the stream. */
  lemma {:induction false} StreamAt(n: nat, slots: seq<Slot>, v: nat, k: nat)
    requires v < n && k < Floats(slots)
    ensures v * Floats(slots) + k < |VertexStream(n, slots)|
    ensures VertexStream(n, slots)[v * Floats(slots) + k] == Record(v, slots)[k]
  {
    var f := Floats(slots);
    var prev := VertexStream(n - 1, slots);
    StreamLength(n - 1, slots);
    assert VertexStream(n, slots) == prev + Record(n - 1, slots);
    assert |prev| == (n - 1) * f;
    assert n * f == (n - 1) * f + f;
    if v < n - 1 {
      StreamAt(n - 1, slots, v, k);
      assert (v + 1) * f == v * f + f;
      MulMonotone(v + 1, n - 1, f);
    } else {
      assert v * f == |prev|;
    }
  }

  /** The record of vertex `v` for the importer's slots, written out in the order the importer emits it. */
  lemma {:induction false} RecordOfPresentSlots(v: nat, hasTexCoords: bool, hasTangentSpace: bool)
    ensures Record(v, PresentSlots(hasTexCoords, hasTangentSpace))
         == [Component(v, 0, 0), Component(v, 0, 1), Component(v, 0, 2)]
            + [Component(v, 1, 0), Component(v, 1, 1), Component(v, 1, 2)]
            + OptionalFloats(v, hasTexCoords, hasTangentSpace).0
            + OptionalFloats(v, hasTexCoords, hasTangentSpace).1
  {
    var (texFloats, tangentFloats) := OptionalFloats(v, hasTexCoords, hasTangentSpace);
    var optional := OptionalSlots(hasTexCoords, hasTangentSpace);
    var position := [Component(v, 0, 0), Component(v, 0, 1), Component(v, 0, 2)];
    var normal := [Component(v, 1, 0), Component(v, 1, 1), Component(v, 1, 2)];
    OptionalRecord(v, hasTexCoords, hasTangentSpace);
    assert Record(v, PresentSlots(hasTexCoords, hasTangentSpace)) == position + (normal + (texFloats + tangentFloats)) by {
      assert PresentSlots(hasTexCoords, hasTangentSpace) == [Slot(0, 3)] + ([Slot(1, 3)] + optional);
      RecordCons(v, Slot(0, 3), [Slot(1, 3)] + optional);
      RecordCons(v, Slot(1, 3), optional);
      TripleFloats(v, 0);
      TripleFloats(v, 1);
    }
    AppendAssoc(position, normal, texFloats + tangentFloats);
    AppendAssoc(position + normal, texFloats, tangentFloats);
  }

  /** The slots after position and normal: texture coordinates, then tangent and bitangent. */
  function OptionalSlots(hasTexCoords: bool, hasTangentSpace: bool): seq<Slot>
  {
    (if hasTexCoords then [Slot(2, 2)] else []) + (if hasTangentSpace then [Slot(3, 3), Slot(4, 3)] else [])
  }

  /** The floats of the optional attributes of vertex `v`: texture coordinates, and tangent space. */
  function OptionalFloats(v: nat, hasTexCoords: bool, hasTangentSpace: bool): (seq<Component>, seq<Component>)
  {
    (if hasTexCoords then [Component(v, 2, 0), Component(v, 2, 1)] else [],
     if hasTangentSpace
     then [Component(v, 3, 0), Component(v, 3, 1), Component(v, 3, 2),
           Component(v, 4, 0), Component(v, 4, 1), Component(v, 4, 2)]
     else [])
  }

  lemma {:induction false} OptionalRecord(v: nat, hasTexCoords: bool, hasTangentSpace: bool)
    ensures Record(v, OptionalSlots(hasTexCoords, hasTangentSpace))
         == OptionalFloats(v, hasTexCoords, hasTangentSpace).0 + OptionalFloats(v, hasTexCoords, hasTangentSpace).1
  {
    var tangentSpace := if hasTangentSpace then [Slot(3, 3), Slot(4, 3)] else [];
    assert Record(v, tangentSpace) == OptionalFloats(v, hasTexCoords, hasTangentSpace).1 by {
      if hasTangentSpace {
        RecordCons(v, Slot(3, 3), [Slot(4, 3)]);
        RecordCons(v, Slot(4, 3), []);
        assert [Slot(4, 3)] + [] == [Slot(4, 3)];
        assert [Slot(3, 3)] + [Slot(4, 3)] == tangentSpace;
        TripleFloats(v, 3);
        TripleFloats(v, 4);
      }
    }
    if hasTexCoords {
      RecordCons(v, Slot(2, 2), tangentSpace);
      PairFloats(v, 2);
    } else {
      assert OptionalSlots(hasTexCoords, hasTangentSpace) == tangentSpace;
    }
  }

  lemma {:induction false} AppendAssoc<T>(a: seq<T>, b: seq<T>, c: seq<T>)
    ensures a + (b + c) == (a + b) + c
  {
  }

  lemma {:induction false} TripleFloats(v: nat, location: nat)
    ensures AttributeFloats(v, Slot(location, 3)) == [Component(v, location, 0), Component(v, location, 1), Component(v, location, 2)]
  {
  }

  lemma {:induction false} PairFloats(v: nat, location: nat)
    ensures AttributeFloats(v, Slot(location, 2)) == [Component(v, location, 0), Component(v, location, 1)]
  {
  }

  /** A record starts with the floats of its first slot. */
  lemma {:induction false} RecordCons(v: nat, s: Slot, rest: seq<Slot>)
    ensures Record(v, [s] + rest) == AttributeFloats(v, s) + Record(v, rest)
  {
    assert ([s] + rest)[1..] == rest;
  }

  // ----------------------------------------------------------------- indices

  /** The face index lists concatenated in face order. */
  function Flatten(faces: seq<seq<nat>>): seq<nat>
  {
    if faces == [] then [] else Flatten(faces[..|faces| - 1]) + faces[|faces| - 1]
  }

  /** For triangulated faces, index `3f + k` of the flattened list is corner `k` of face `f`. */
  lemma {:induction false} FlattenTriangles(faces: seq<seq<nat>>)
    requires forall f :: 0 <= f < |faces| ==> |faces[f]| == 3
    ensures |Flatten(faces)| == 3 * |faces|
    ensures forall f, k :: 0 <= f < |faces| && 0 <= k < 3 ==> Flatten(faces)[3 * f + k] == faces[f][k]
  {
    if faces != [] {
      var init := faces[..|faces| - 1];
      FlattenTriangles(init);
      assert Flatten(faces) == Flatten(init) + faces[|faces| - 1];
    }
  }

  // ---------------------------------------------------------------- submesh

  /** The submesh the importer builds from `mesh`, before buffer offsets are assigned. */
  function ImportedSubmesh(mesh: AiMesh): Submesh
  {
    var slots := PresentSlots(TexCoordsUsed(mesh), TangentSpaceUsed(mesh));
    Submesh(Packed(slots), VertexStream(mesh.numVertices, slots), Flatten(mesh.faces), 0, 0, [])
  }

  /** An imported submesh holds exactly one record of `stride` bytes per vertex. */
  lemma {:induction false} ImportedVertexCount(mesh: AiMesh)
    ensures |ImportedSubmesh(mesh).vertices| * FloatSize == mesh.numVertices * ImportedSubmesh(mesh).layout.stride
  {
    var slots := PresentSlots(TexCoordsUsed(mesh), TangentSpaceUsed(mesh));
    StreamLength(mesh.numVertices, slots);
    var n, f := mesh.numVertices, Floats(slots);
    assert n * f * FloatSize == n * (FloatSize * f);
  }

  /**
   * A packed layout describes the stream of its slots: the stride is the record
   * size and attribute `k` sits `Floats(slots[..k])` floats into the record, so
   * reading it for vertex `v` (word `v * stride / 4 + offset / 4`, then `c`
   * floats on) yields axis `c` of that vertex's attribute at the same location.
   */
  lemma {:induction false} PackedDescribesStream(slots: seq<Slot>, n: nat, k: nat, v: nat, c: nat)
    requires k < |slots| && v < n && c < slots[k].componentCount
    ensures Packed(slots).stride == FloatSize * Floats(slots)
    ensures Packed(slots).attributes[k].offset == FloatSize * Floats(slots[..k])
    ensures Packed(slots).attributes[k].location == slots[k].location
    ensures v * Floats(slots) + (Floats(slots[..k]) + c) < |VertexStream(n, slots)|
    ensures VertexStream(n, slots)[v * Floats(slots) + (Floats(slots[..k]) + c)] == Component(v, slots[k].location, c)
  {
    PackedAttribute(slots, 0, k);
    var p := Floats(slots[..k]);
    assert p + c < Floats(slots) by {
      FloatsSplit(slots, k);
      assert slots[k..] == [slots[k]] + slots[k + 1..];
    }
    StreamAt(n, slots, v, p + c);
    RecordAt(v, slots, k, c);
  }

  /**
   * The imported submesh's layout describes its vertex data: stride and offsets
   * are whole floats, and reading attribute `k` of vertex `v` where the layout
   * places it (`stride / 4` floats per vertex, `offset / 4` into the record,
   * then `c` floats on) yields axis `c` of that vertex's attribute at the same
   * location.
   */
  lemma {:induction false} ImportedLayoutDescribesData(mesh: AiMesh, k: nat, v: nat, c: nat)
    requires k < |ImportedSubmesh(mesh).layout.attributes|
    requires v < mesh.numVertices
    requires c < ImportedSubmesh(mesh).layout.attributes[k].componentCount
    ensures var s := ImportedSubmesh(mesh);
      var a := s.layout.attributes[k];
      var word := v * (s.layout.stride / FloatSize) + a.offset / FloatSize + c;
      && s.layout.stride % FloatSize == 0 && a.offset % FloatSize == 0
      && word < |s.vertices|
      && s.vertices[word] == Component(v, a.location, c)
  {
    var slots := PresentSlots(TexCoordsUsed(mesh), TangentSpaceUsed(mesh));
    var s := ImportedSubmesh(mesh);
    var a := s.layout.attributes[k];
    assert s.layout == Packed(slots) && s.vertices == VertexStream(mesh.numVertices, slots);
    PackedAttribute(slots, 0, k);
    PackedDescribesStream(slots, mesh.numVertices, k, v, c);
    assert s.layout.stride % FloatSize == 0 && s.layout.stride / FloatSize == Floats(slots) by {
      WholeFloats(Floats(slots));
    }
    assert a.offset % FloatSize == 0 && a.offset / FloatSize == Floats(slots[..k]) by {
      WholeFloats(Floats(slots[..k]));
    }
  }

  /** `4 * w` bytes are exactly `w` floats. */
  lemma {:induction false} WholeFloats(w: nat)
    ensures (FloatSize * w) % FloatSize == 0 && (FloatSize * w) / FloatSize == w
  {
  }

  /**
   * Builds one submesh from an imported mesh and appends it, with its material
   * index offset by `baseMeshMaterialIndex`, to the submeshes and material
   * indices gathered so far.
   */
  method ProcessAssimpMesh(mesh: AiMesh, submeshes: seq<Submesh>, baseMeshMaterialIndex: nat,
                           submeshMaterialIndices: seq<nat>)
    returns (submeshesOut: seq<Submesh>, submeshMaterialIndicesOut: seq<nat>)
    ensures submeshesOut == submeshes + [ImportedSubmesh(mesh)]
    ensures submeshMaterialIndicesOut == submeshMaterialIndices + [baseMeshMaterialIndex + mesh.materialIndex]
  {
    var vertices, hasTexCoords, hasTangentSpace := ProcessVertices(mesh);
    var indices := ProcessIndices(mesh.faces);
    submeshMaterialIndicesOut := submeshMaterialIndices + [baseMeshMaterialIndex + mesh.materialIndex];
    var layout := CreateVertexFormat(hasTexCoords, hasTangentSpace);
    submeshesOut := submeshes + [Submesh(layout, vertices, indices, 0, 0, [])];
  }

  /**
   * Emits the interleaved record of every vertex, and reports whether texture
   * coordinates and tangent space were emitted (only ever for a vertex).
   */
  method ProcessVertices(mesh: AiMesh) returns (vertices: seq<Component>, hasTexCoords: bool, hasTangentSpace: bool)
    ensures hasTexCoords == TexCoordsUsed(mesh) && hasTangentSpace == TangentSpaceUsed(mesh)
    ensures vertices == VertexStream(mesh.numVertices, PresentSlots(hasTexCoords, hasTangentSpace))
  {
    vertices := [];
    hasTexCoords, hasTangentSpace := false, false;
    ghost var slots := PresentSlots(mesh.hasTexCoordArray, mesh.hasTangentArray && mesh.hasBitangentArray);

    var i := 0;
    while i < mesh.numVertices
      invariant i <= mesh.numVertices
      invariant hasTexCoords == (mesh.hasTexCoordArray && i > 0)
      invariant hasTangentSpace == (mesh.hasTangentArray && mesh.hasBitangentArray && i > 0)
      invariant vertices == VertexStream(i, slots)
    {
      var record := [Component(i, 0, 0), Component(i, 0, 1), Component(i, 0, 2)];
      record := record + [Component(i, 1, 0), Component(i, 1, 1), Component(i, 1, 2)];
      if mesh.hasTexCoordArray {
        hasTexCoords := true;
        record := record + [Component(i, 2, 0), Component(i, 2, 1)];
      }
      if mesh.hasTangentArray && mesh.hasBitangentArray {
        hasTangentSpace := true;
        record := record + [Component(i, 3, 0), Component(i, 3, 1), Component(i, 3, 2),
                            Component(i, 4, 0), Component(i, 4, 1), Component(i, 4, 2)];
      }
      RecordOfPresentSlots(i, mesh.hasTexCoordArray, mesh.hasTangentArray && mesh.hasBitangentArray);
      assert record == Record(i, slots);
      vertices := vertices + record;
      i := i + 1;
    }
    assert mesh.numVertices > 0 ==> slots == PresentSlots(hasTexCoords, hasTangentSpace);
  }

  /** Appends the index list of every face, in face order. */
  method ProcessIndices(faces: seq<seq<nat>>) returns (indices: seq<nat>)
    ensures indices == Flatten(faces)
  {
    indices := [];
    var f := 0;
    while f < |faces|
      invariant f <= |faces|
      invariant indices == Flatten(faces[..f])
    {
      var face := faces[f];
      var j := 0;
      while j < |face|
        invariant j <= |face|
        invariant indices == Flatten(faces[..f]) + face[..j]
      {
        indices := indices + [face[j]];
        assert face[..j + 1] == face[..j] + [face[j]];
        j := j + 1;
      }
      assert faces[..f + 1][..f] == faces[..f];
      assert face[..j] == face;
      f := f + 1;
    }
    assert faces[..f] == faces;
  }

  /**
   * Builds the vertex format of an imported submesh: position and normal,
   * then the optional attributes, each placed at the stride accumulated so far.
   */
  method CreateVertexFormat(hasTexCoords: bool, hasTangentSpace: bool) returns (layout: VertexBufferLayout)
    ensures layout == StandardLayout(hasTexCoords, hasTangentSpace)
  {
    var attributes := [VertexBufferAttribute(0, 3, 0), VertexBufferAttribute(1, 3, 3 * FloatSize)];
    var stride := 6 * FloatSize;
    if hasTexCoords {
      attributes := attributes + [VertexBufferAttribute(2, 2, stride)];
      stride := stride + 2 * FloatSize;
    }
    if hasTangentSpace {
      attributes := attributes + [VertexBufferAttribute(3, 3, stride)];
      stride := stride + 3 * FloatSize;
      attributes := attributes + [VertexBufferAttribute(4, 3, stride)];
      stride := stride + 3 * FloatSize;
    }
    StandardLayoutSteps(hasTexCoords, hasTangentSpace);
    layout := VertexBufferLayout(attributes, stride);
  }

  // ------------------------------------------------------------- node walk

  /** The scene's meshes referenced by the first `k` entries of `node.meshes`. */
  function OwnMeshes(scene: AiScene, node: AiNode, k: nat): (r: seq<AiMesh>)
    requires k <= |node.meshes| && NodeRefsValid(node, |scene.meshes|)
    ensures |r| == k
  {
    seq(k, i requires 0 <= i < k => scene.meshes[node.meshes[i]])
  }

  /** The meshes of the subtree of `node` in depth-first order, a node's own meshes before its children's. */
  function Preorder(scene: AiScene, node: AiNode): seq<AiMesh>
    requires NodeRefsValid(node, |scene.meshes|)
    decreases node, 1, 0
  {
    OwnMeshes(scene, node, |node.meshes|) + ChildrenPreorder(scene, node, |node.children|)
  }

  /** The depth-first meshes of the first `k` children of `node`, child by child. */
  function ChildrenPreorder(scene: AiScene, node: AiNode, k: nat): seq<AiMesh>
    requires k <= |node.children| && NodeRefsValid(node, |scene.meshes|)
    decreases node, 0, k
  {
    if k == 0 then []
    else ChildrenPreorder(scene, node, k - 1) + Preorder(scene, node.children[k - 1])
  }

  function ImportAll(meshes: seq<AiMesh>): (r: seq<Submesh>)
    ensures |r| == |meshes|
  {
    seq(|meshes|, i requires 0 <= i < |meshes| => ImportedSubmesh(meshes[i]))
  }

  function MaterialIndices(base: nat, meshes: seq<AiMesh>): (r: seq<nat>)
    ensures |r| == |meshes|
  {
    seq(|meshes|, i requires 0 <= i < |meshes| => base + meshes[i].materialIndex)
  }

  /** Importing a concatenation imports each part, so a walk may append part by part. */
  lemma {:induction false} ImportAllAppend(submeshes: seq<Submesh>, indices: seq<nat>, a: seq<AiMesh>, b: seq<AiMesh>, base: nat)
    ensures submeshes + ImportAll(a + b) == submeshes + ImportAll(a) + ImportAll(b)
    ensures indices + MaterialIndices(base, a + b) == indices + MaterialIndices(base, a) + MaterialIndices(base, b)
  {
    assert ImportAll(a + b) == ImportAll(a) + ImportAll(b) by {
      ImportAllConcat(a, b);
    }
    AppendAssoc(submeshes, ImportAll(a), ImportAll(b));
    assert MaterialIndices(base, a + b) == MaterialIndices(base, a) + MaterialIndices(base, b) by {
      MaterialIndicesConcat(base, a, b);
    }
    AppendAssoc(indices, MaterialIndices(base, a), MaterialIndices(base, b));
  }

  lemma {:induction false} ImportAllConcat(a: seq<AiMesh>, b: seq<AiMesh>)
    ensures ImportAll(a + b) == ImportAll(a) + ImportAll(b)
  {
    forall i | 0 <= i < |a + b|
      ensures ImportAll(a + b)[i] == (ImportAll(a) + ImportAll(b))[i]
    {
      if i < |a| {
        assert (a + b)[i] == a[i];
      } else {
        assert (a + b)[i] == b[i - |a|];
      }
    }
  }

  lemma {:induction false} MaterialIndicesConcat(base: nat, a: seq<AiMesh>, b: seq<AiMesh>)
    ensures MaterialIndices(base, a + b) == MaterialIndices(base, a) + MaterialIndices(base, b)
  {
    forall i | 0 <= i < |a + b|
      ensures MaterialIndices(base, a + b)[i] == (MaterialIndices(base, a) + MaterialIndices(base, b))[i]
    {
      if i < |a| {
        assert (a + b)[i] == a[i];
      } else {
        assert (a + b)[i] == b[i - |a|];
      }
    }
  }

  /**
   * Appends a submesh and a material index for every mesh of the subtree of
   * `node`, in depth-first order with a node's own meshes before its children's.
   */
  method ProcessAssimpNode(scene: AiScene, node: AiNode, submeshes: seq<Submesh>, baseMeshMaterialIndex: nat,
                           submeshMaterialIndices: seq<nat>)
    returns (submeshesOut: seq<Submesh>, submeshMaterialIndicesOut: seq<nat>)
    requires NodeRefsValid(node, |scene.meshes|)
    ensures submeshesOut == submeshes + ImportAll(Preorder(scene, node))
    ensures submeshMaterialIndicesOut
         == submeshMaterialIndices + MaterialIndices(baseMeshMaterialIndex, Preorder(scene, node))
    decreases node
  {
    ghost var done: seq<AiMesh> := [];
    submeshesOut, submeshMaterialIndicesOut := submeshes, submeshMaterialIndices;
    var i := 0;
    while i < |node.meshes|
      invariant i <= |node.meshes|
      invariant done == OwnMeshes(scene, node, i)
      invariant submeshesOut == submeshes + ImportAll(done)
      invariant submeshMaterialIndicesOut == submeshMaterialIndices + MaterialIndices(baseMeshMaterialIndex, done)
    {
      var mesh := scene.meshes[node.meshes[i]];
      submeshesOut, submeshMaterialIndicesOut :=
        ProcessAssimpMesh(mesh, submeshesOut, baseMeshMaterialIndex, submeshMaterialIndicesOut);
      ImportAllAppend(submeshes, submeshMaterialIndices, done, [mesh], baseMeshMaterialIndex);
      done := done + [mesh];
      i := i + 1;
    }
    i := 0;
    while i < |node.children|
      invariant i <= |node.children|
      invariant done == OwnMeshes(scene, node, |node.meshes|) + ChildrenPreorder(scene, node, i)
      invariant submeshesOut == submeshes + ImportAll(done)
      invariant submeshMaterialIndicesOut == submeshMaterialIndices + MaterialIndices(baseMeshMaterialIndex, done)
    {
      ghost var child := Preorder(scene, node.children[i]);
      submeshesOut, submeshMaterialIndicesOut :=
        ProcessAssimpNode(scene, node.children[i], submeshesOut, baseMeshMaterialIndex, submeshMaterialIndicesOut);
      ImportAllAppend(submeshes, submeshMaterialIndices, done, child, baseMeshMaterialIndex);
      AppendAssoc(OwnMeshes(scene, node, |node.meshes|), ChildrenPreorder(scene, node, i), child);
      done := done + child;
      i := i + 1;
    }
  }
}
