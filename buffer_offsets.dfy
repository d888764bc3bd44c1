/**
 * Placement of a model's submeshes in the mesh's one shared vertex buffer and
 * one shared index buffer: the buffers are sized by summing every submesh's
 * bytes, and each submesh is uploaded right after the previous one, its
 * `vertexOffset` / `indexOffset` recording where it starts.
 */
module BufferOffsets {
  import opened EngineTypes

  /** Bytes a submesh takes in the shared vertex buffer. */
  function VertexBytes(s: Submesh): nat { FloatSize * |s.vertices| }

  /** Bytes a submesh takes in the shared index buffer. */
  function IndexBytes(s: Submesh): nat { IndexSize * |s.indices| }

  /** Bytes of the vertex buffer taken by the first `k` submeshes. */
  function VertexPrefix(subs: seq<Submesh>, k: nat): nat
    requires k <= |subs|
  {
    if k == 0 then 0 else VertexPrefix(subs, k - 1) + VertexBytes(subs[k - 1])
  }

  /** Bytes of the index buffer taken by the first `k` submeshes. */
  function IndexPrefix(subs: seq<Submesh>, k: nat): nat
    requires k <= |subs|
  {
    if k == 0 then 0 else IndexPrefix(subs, k - 1) + IndexBytes(subs[k - 1])
  }

  /** The submeshes with their offsets in the shared buffers filled in. */
  function Placed(subs: seq<Submesh>): (r: seq<Submesh>)
    ensures |r| == |subs|
  {
    seq(|subs|, i requires 0 <= i < |subs| =>
      subs[i].(vertexOffset := VertexPrefix(subs, i), indexOffset := IndexPrefix(subs, i)))
  }

  /** Sums the byte sizes of all submeshes, giving the sizes of the two shared buffers. */
  method BufferSizes(subs: seq<Submesh>) returns (vertexBufferSize: nat, indexBufferSize: nat)
    ensures vertexBufferSize == VertexPrefix(subs, |subs|)
    ensures indexBufferSize == IndexPrefix(subs, |subs|)
  {
    vertexBufferSize, indexBufferSize := 0, 0;
    var i := 0;
    while i < |subs|
      invariant i <= |subs|
      invariant vertexBufferSize == VertexPrefix(subs, i)
      invariant indexBufferSize == IndexPrefix(subs, i)
    {
      vertexBufferSize := vertexBufferSize + |subs[i].vertices| * FloatSize;
      indexBufferSize := indexBufferSize + |subs[i].indices| * IndexSize;
      i := i + 1;
    }
  }

  /**
   * Uploads the submeshes one after the other, recording each one's start in
   * the shared vertex and index buffers.
   */
  method AssignOffsets(subs: seq<Submesh>) returns (placed: seq<Submesh>)
    ensures placed == Placed(subs)
  {
    placed := subs;
    var verticesOffset, indicesOffset := 0, 0;
    var i := 0;
    while i < |subs|
      invariant i <= |subs| && |placed| == |subs|
      invariant verticesOffset == VertexPrefix(subs, i)
      invariant indicesOffset == IndexPrefix(subs, i)
      invariant forall j :: 0 <= j < i ==> placed[j] == Placed(subs)[j]
      invariant forall j :: i <= j < |subs| ==> placed[j] == subs[j]
    {
      var verticesSize := |subs[i].vertices| * FloatSize;
      placed := placed[i := placed[i].(vertexOffset := verticesOffset)];
      verticesOffset := verticesOffset + verticesSize;

      var indicesSize := |subs[i].indices| * IndexSize;
      placed := placed[i := placed[i].(indexOffset := indicesOffset)];
      indicesOffset := indicesOffset + indicesSize;
      i := i + 1;
    }
  }

  lemma {:induction false} PrefixMonotone(subs: seq<Submesh>, i: nat, j: nat)
    requires i <= j <= |subs|
    ensures VertexPrefix(subs, i) <= VertexPrefix(subs, j)
    ensures IndexPrefix(subs, i) <= IndexPrefix(subs, j)
    decreases j
  {
    if i < j {
      PrefixMonotone(subs, i, j - 1);
    }
  }

  lemma {:induction false} PlacedAt(subs: seq<Submesh>, i: nat)
    requires i < |subs|
    ensures Placed(subs)[i] == subs[i].(vertexOffset := VertexPrefix(subs, i), indexOffset := IndexPrefix(subs, i))
  {
  }

  /**
   * The first submesh starts each buffer, every submesh starts exactly where
   * its predecessor ends, and the last one ends at the buffer's size.
   */
  lemma {:induction false} PlacedContiguous(subs: seq<Submesh>, i: nat)
    requires i < |subs|
    ensures i == 0 ==> Placed(subs)[i].vertexOffset == 0 && Placed(subs)[i].indexOffset == 0
    ensures i + 1 < |subs| ==>
      Placed(subs)[i + 1].vertexOffset == Placed(subs)[i].vertexOffset + VertexBytes(subs[i]) &&
      Placed(subs)[i + 1].indexOffset == Placed(subs)[i].indexOffset + IndexBytes(subs[i])
    ensures i + 1 == |subs| ==>
      Placed(subs)[i].vertexOffset + VertexBytes(subs[i]) == VertexPrefix(subs, |subs|) &&
      Placed(subs)[i].indexOffset + IndexBytes(subs[i]) == IndexPrefix(subs, |subs|)
  {
    PlacedAt(subs, i);
    if i + 1 < |subs| {
      PlacedAt(subs, i + 1);
    }
  }

  /**
   * The byte ranges of distinct submeshes do not overlap, come in submesh
   * order, and all lie inside the buffers sized by `BufferSizes`.
   */
  lemma {:induction false} PlacedDisjoint(subs: seq<Submesh>, i: nat, j: nat)
    requires i < j < |subs|
    ensures Placed(subs)[i].vertexOffset + VertexBytes(subs[i]) <= Placed(subs)[j].vertexOffset
    ensures Placed(subs)[i].indexOffset + IndexBytes(subs[i]) <= Placed(subs)[j].indexOffset
    ensures Placed(subs)[j].vertexOffset + VertexBytes(subs[j]) <= VertexPrefix(subs, |subs|)
    ensures Placed(subs)[j].indexOffset + IndexBytes(subs[j]) <= IndexPrefix(subs, |subs|)
  {
    PlacedAt(subs, i);
    PlacedAt(subs, j);
    PrefixMonotone(subs, i + 1, j);
    PrefixMonotone(subs, j + 1, |subs|);
  }

  /** The contents of the shared vertex buffer once the first `k` submeshes are uploaded. */
  function VertexData(subs: seq<Submesh>, k: nat): (r: seq<Component>)
    requires k <= |subs|
  {
    if k == 0 then [] else VertexData(subs, k - 1) + subs[k - 1].vertices
  }

  /** The contents of the shared index buffer once the first `k` submeshes are uploaded. */
  function IndexData(subs: seq<Submesh>, k: nat): (r: seq<nat>)
    requires k <= |subs|
  {
    if k == 0 then [] else IndexData(subs, k - 1) + subs[k - 1].indices
  }

  lemma {:induction false} DataSize(subs: seq<Submesh>, k: nat)
    requires k <= |subs|
    ensures VertexPrefix(subs, k) == FloatSize * |VertexData(subs, k)|
    ensures IndexPrefix(subs, k) == IndexSize * |IndexData(subs, k)|
  {
    if k > 0 {
      DataSize(subs, k - 1);
    }
  }

  lemma {:induction false} DataStable(subs: seq<Submesh>, i: nat, k: nat, w: nat)
    requires i < k <= |subs|
    ensures w < |subs[i].vertices| ==>
      |VertexData(subs, i)| + w < |VertexData(subs, k)| &&
      VertexData(subs, k)[|VertexData(subs, i)| + w] == subs[i].vertices[w]
    ensures w < |subs[i].indices| ==>
      |IndexData(subs, i)| + w < |IndexData(subs, k)| &&
      IndexData(subs, k)[|IndexData(subs, i)| + w] == subs[i].indices[w]
    decreases k
  {
    if k > i + 1 {
      DataStable(subs, i, k - 1, w);
    }
  }

  /**
   * After all uploads, the float at word `vertexOffset / 4 + w` of the shared
   * vertex buffer is float `w` of submesh `i`, and likewise for indices: each
   * submesh finds its own data at the offset recorded for it.
   */
  lemma {:induction false} PlacedLocatesData(subs: seq<Submesh>, i: nat, w: nat)
    requires i < |subs|
    ensures Placed(subs)[i].vertexOffset == FloatSize * |VertexData(subs, i)|
    ensures Placed(subs)[i].indexOffset == IndexSize * |IndexData(subs, i)|
    ensures VertexPrefix(subs, |subs|) == FloatSize * |VertexData(subs, |subs|)|
    ensures IndexPrefix(subs, |subs|) == IndexSize * |IndexData(subs, |subs|)|
    ensures w < |subs[i].vertices| ==>
      |VertexData(subs, i)| + w < |VertexData(subs, |subs|)| &&
      VertexData(subs, |subs|)[|VertexData(subs, i)| + w] == Placed(subs)[i].vertices[w]
    ensures w < |subs[i].indices| ==>
      |IndexData(subs, i)| + w < |IndexData(subs, |subs|)| &&
      IndexData(subs, |subs|)[|IndexData(subs, i)| + w] == Placed(subs)[i].indices[w]
  {
    PlacedAt(subs, i);
    DataSize(subs, i);
    DataSize(subs, |subs|);
    DataStable(subs, i, |subs|, w);
  }
}
