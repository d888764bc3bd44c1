/**
 * The record types that the engine's resource bookkeeping works on, and the
 * embedded screen-filling quad.  Floating-point payloads (colours, matrices,
 * vertex positions) are left out; vertex data is represented by the
 * provenance of each float (see `Component`).
 */
module EngineTypes {

  /** The engine's "no resource" sentinel for texture and model indices. */
  const UINT32_MAX: nat := 0xFFFF_FFFF

  /** Size in bytes of one `float` / `u32` element of a vertex or index buffer. */
  const FloatSize: nat := 4
  const IndexSize: nat := 4

  /** Fits an unsigned 8-bit field. */
  predicate IsU8(x: int) { 0 <= x < 256 }

  /** One attribute of an interleaved vertex record: `offset` is in bytes. */
  datatype VertexBufferAttribute = VertexBufferAttribute(location: nat, componentCount: nat, offset: nat)

  /** The interleaved vertex format of one submesh; `stride` is the record size in bytes. */
  datatype VertexBufferLayout = VertexBufferLayout(attributes: seq<VertexBufferAttribute>, stride: nat)

  /** One active vertex input of a linked program. */
  datatype VertexShaderAttribute = VertexShaderAttribute(location: nat, componentCount: nat)

  /** A cached bind object, keyed by the raw handle of the program it was wired for. */
  datatype Vao = Vao(handle: nat, programHandle: nat)

  /**
   * A float of a vertex stream, identified by where it came from: the vertex,
   * the attribute location (0 position, 1 normal, 2 texture coordinate,
   * 3 tangent, 4 negated bitangent) and the axis within that attribute.
   */
  datatype Component = Component(vertex: nat, location: nat, axis: nat)

  datatype Submesh = Submesh(
    layout: VertexBufferLayout,
    vertices: seq<Component>,
    indices: seq<nat>,
    vertexOffset: nat,
    indexOffset: nat,
    vaos: seq<Vao>)

  /** All submeshes of a mesh share one vertex buffer and one index buffer. */
  datatype Mesh = Mesh(submeshes: seq<Submesh>, vertexBufferHandle: nat, indexBufferHandle: nat)

  /** A material's texture slots; a slot the scene does not fill keeps the value 0. */
  datatype Material = Material(
    name: string,
    albedoTextureIdx: nat,
    emissiveTextureIdx: nat,
    specularTextureIdx: nat,
    normalsTextureIdx: nat,
    bumpTextureIdx: nat)

  /** A model pairs one mesh with one material index per submesh. */
  datatype Model = Model(meshIdx: nat, materialIdx: seq<nat>)

  datatype Program = Program(
    handle: nat,
    filepath: string,
    programName: string,
    lastWriteTimestamp: nat,
    vertexInputLayout: seq<VertexShaderAttribute>)

  datatype Texture = Texture(handle: nat, filepath: string)

  /** A decoded image as the image loader reports it (pixels are not modelled). */
  datatype Image = Image(width: nat, height: nat, nchannels: int)

  datatype LightType = Directional | Point

  datatype Light = Light(lightType: LightType)

  /** An entity's model and the byte range of its per-frame uniform block. */
  datatype Entity = Entity(modelIndex: nat, head: nat, size: nat)

  /** A vertex of the embedded quad: position (x, y, z) and texture coordinate (u, v). */
  datatype QuadVertex = QuadVertex(x: int, y: int, z: int, u: int, v: int)

  /** The embedded screen-filling quad, counter-clockwise from the bottom-left corner. */
  const QuadVertices: seq<QuadVertex> := [
    QuadVertex(-1, -1, 0, 0, 0),
    QuadVertex(1, -1, 0, 1, 0),
    QuadVertex(1, 1, 0, 1, 1),
    QuadVertex(-1, 1, 0, 0, 1)
  ]

  const QuadIndices: seq<nat> := [0, 1, 2, 0, 2, 3]

  /** Twice the signed area of a triangle of quad vertices (positive when counter-clockwise). */
  function TwiceSignedArea(a: QuadVertex, b: QuadVertex, c: QuadVertex): int
  {
    (b.x - a.x) * (c.y - a.y) - (c.x - a.x) * (b.y - a.y)
  }

  /** The quad's index list is two counter-clockwise triangles that together use all four vertices. */
  lemma {:induction false} QuadIsTwoTriangles()
    ensures |QuadVertices| == 4 && |QuadIndices| == 6
    ensures forall k :: 0 <= k < |QuadIndices| ==> QuadIndices[k] < |QuadVertices|
    ensures TwiceSignedArea(QuadVertices[QuadIndices[0]], QuadVertices[QuadIndices[1]], QuadVertices[QuadIndices[2]]) > 0
    ensures TwiceSignedArea(QuadVertices[QuadIndices[3]], QuadVertices[QuadIndices[4]], QuadVertices[QuadIndices[5]]) > 0
    ensures forall v :: 0 <= v < |QuadVertices| ==> v in QuadIndices
  {
    assert QuadIndices[0] == 0 && QuadIndices[1] == 1 && QuadIndices[2] == 2 && QuadIndices[5] == 3;
  }
}
