/**
 * The per-frame uniform buffer and the layout of what the frame writes into
 * it.  The buffer helpers live in a header that is not part of this model;
 * their head arithmetic is taken as: mapping rewinds the head to 0, a push
 * advances it by the byte size of the value pushed, and aligning rounds it up
 * to the next multiple of the alignment.
 */
module UniformBuffer {
  import opened EngineTypes

  const UIntSize: nat := 4
  const Vec3Size: nat := 12
  const Vec4Size: nat := 16
  const Mat4Size: nat := 64

  /** The quotient and remainder of `n` are the only ones with a remainder below `alignment`. */
  lemma {:induction false} DivModUnique(n: int, alignment: int, q: int, s: int)
    requires alignment > 0 && 0 <= s < alignment && n == alignment * q + s
    ensures n / alignment == q && n % alignment == s
  {
    var q0 := n / alignment;
    var s0 := n % alignment;
    assert n == alignment * q0 + s0;
    var d := q - q0;
    assert alignment * d == s0 - s by {
      assert alignment * q - alignment * q0 == alignment * d;
    }
    assert d >= 1 ==> alignment * d >= alignment * 1;
    assert d <= -1 ==> alignment * d <= alignment * -1;
  }

  /** `x` rounded up to a multiple of `alignment`. */
  function AlignUp(x: nat, alignment: nat): (r: nat)
    requires alignment > 0
    ensures r % alignment == 0
    ensures x <= r < x + alignment
  {
    var s := x % alignment;
    if s == 0 then x
    else
      var q := x / alignment;
      assert x == alignment * q + s;
      DivModUnique(alignment * (q + 1), alignment, q + 1, 0);
      alignment * (q + 1)
  }

  /** `AlignUp` gives the least multiple of the alignment that is not below `x`. */
  lemma {:induction false} AlignUpLeast(x: nat, alignment: nat, m: nat)
    requires alignment > 0 && x <= m && m % alignment == 0
    ensures AlignUp(x, alignment) <= m
  {
    var s := x % alignment;
    if s != 0 {
      var q := x / alignment;
      assert x == alignment * q + s;
      var p := m / alignment;
      assert m == alignment * p;
      assert p <= q ==> alignment * p <= alignment * q;
      assert alignment * (q + 1) <= alignment * p;
    }
  }

  class Buffer {
    var handle: nat
    var size: nat
    var head: nat
    var mapped: bool

    constructor (handle: nat, size: nat)
      ensures this.handle == handle && this.size == size && head == 0 && !mapped
    {
      this.handle := handle;
      this.size := size;
      head := 0;
      mapped := false;
    }

    method Map()
      modifies this
      ensures mapped && head == 0
      ensures handle == old(handle) && size == old(size)
    {
      mapped := true;
      head := 0;
    }

    method Unmap()
      modifies this
      ensures !mapped
      ensures handle == old(handle) && size == old(size) && head == old(head)
    {
      mapped := false;
    }

    method AlignHead(alignment: nat)
      requires alignment > 0
      modifies this
      ensures head == AlignUp(old(head), alignment)
      ensures handle == old(handle) && size == old(size) && mapped == old(mapped)
    {
      head := AlignUp(head, alignment);
    }

    /** Writes `bytes` bytes at the head; nothing checks the capacity, so the caller must. */
    method Push(bytes: nat)
      requires mapped && head + bytes <= size
      modifies this
      ensures head == old(head) + bytes
      ensures handle == old(handle) && size == old(size) && mapped
    {
      head := head + bytes;
    }

    method PushUInt()
      requires mapped && head + UIntSize <= size
      modifies this
      ensures head == old(head) + UIntSize
      ensures handle == old(handle) && size == old(size) && mapped
    {
      Push(UIntSize);
    }

    method PushVec3()
      requires mapped && head + Vec3Size <= size
      modifies this
      ensures head == old(head) + Vec3Size
      ensures handle == old(handle) && size == old(size) && mapped
    {
      Push(Vec3Size);
    }

    method PushMat4()
      requires mapped && head + Mat4Size <= size
      modifies this
      ensures head == old(head) + Mat4Size
      ensures handle == old(handle) && size == old(size) && mapped
    {
      Push(Mat4Size);
    }
  }

  /** The global block opens with the camera position and the light count. */
  const GlobalsHeaderSize: nat := Vec3Size + UIntSize

  /** One light: its type, then colour, direction and position. */
  const LightRecordSize: nat := UIntSize + 3 * Vec3Size

  /** One entity block: its world matrix and its world-view-projection matrix. */
  const EntityBlockSize: nat := 2 * Mat4Size

  /** Where light `j` starts: after the previous light (or the header), aligned to 16 bytes. */
  function LightHead(j: nat): nat
  {
    AlignUp(if j == 0 then GlobalsHeaderSize else LightHead(j - 1) + LightRecordSize, Vec4Size)
  }

  /** Where the global block ends when it holds `lightCount` lights. */
  function LightsEnd(lightCount: nat): nat
  {
    if lightCount == 0 then GlobalsHeaderSize else LightHead(lightCount - 1) + LightRecordSize
  }

  /** Where entity `k`'s block starts: after the previous block (or the global block), aligned. */
  function EntityHead(lightCount: nat, alignment: nat, k: nat): nat
    requires alignment > 0
  {
    AlignUp(if k == 0 then LightsEnd(lightCount) else EntityHead(lightCount, alignment, k - 1) + EntityBlockSize, alignment)
  }

  /** Where the frame's writes end. */
  function PackedEnd(lightCount: nat, alignment: nat, entityCount: nat): nat
    requires alignment > 0
  {
    if entityCount == 0 then LightsEnd(lightCount) else EntityHead(lightCount, alignment, entityCount - 1) + EntityBlockSize
  }

  /**
   * Every light record starts on a 16-byte boundary, 48 bytes after the
   * previous one, the first right after the 16-byte header; the global block
   * therefore ends 8 bytes past the last light's start plus its 40 bytes.
   */
  lemma {:induction false} LightLayout(j: nat)
    ensures LightHead(j) % Vec4Size == 0
    ensures LightHead(j) == 16 + 48 * j
    ensures LightsEnd(j + 1) == 48 * (j + 1) + 8
  {
    var x := if j == 0 then GlobalsHeaderSize else LightHead(j - 1) + LightRecordSize;
    if j > 0 {
      LightLayout(j - 1);
      assert x == 48 * j + 8;
    }
    var r := AlignUp(x, Vec4Size);
    assert LightHead(j) == r;
    var q := r / 16;
    assert r == 16 * q;
    assert q == 3 * j + 1;
  }

  /**
   * Entity blocks start on multiples of the alignment, come after the whole
   * global block, follow each other in entity order without overlapping, and
   * all end by `PackedEnd`.
   */
  lemma {:induction false} EntityLayout(lightCount: nat, alignment: nat, k: nat, l: nat, entityCount: nat)
    requires alignment > 0 && k < l < entityCount
    ensures EntityHead(lightCount, alignment, k) % alignment == 0
    ensures LightsEnd(lightCount) <= EntityHead(lightCount, alignment, k)
    ensures EntityHead(lightCount, alignment, k) + EntityBlockSize <= EntityHead(lightCount, alignment, l)
    ensures EntityHead(lightCount, alignment, l) + EntityBlockSize <= PackedEnd(lightCount, alignment, entityCount)
    decreases entityCount
  {
    EntityHeadsGrow(lightCount, alignment, k, l);
    EntityHeadsGrow(lightCount, alignment, l, entityCount - 1);
    EntityAfterGlobals(lightCount, alignment, k);
  }

  /**
   * Every entity block, the last one included, starts on a multiple of the
   * alignment, after the whole global block, and ends by `PackedEnd`.
   */
  lemma {:induction false} EntityBlock(lightCount: nat, alignment: nat, k: nat, entityCount: nat)
    requires alignment > 0 && k < entityCount
    ensures EntityHead(lightCount, alignment, k) % alignment == 0
    ensures LightsEnd(lightCount) <= EntityHead(lightCount, alignment, k)
    ensures EntityHead(lightCount, alignment, k) + EntityBlockSize <= PackedEnd(lightCount, alignment, entityCount)
  {
    EntityAfterGlobals(lightCount, alignment, k);
    EntityHeadsGrow(lightCount, alignment, k, entityCount - 1);
  }

  lemma {:induction false} EntityHeadsGrow(lightCount: nat, alignment: nat, k: nat, l: nat)
    requires alignment > 0 && k <= l
    ensures k < l ==> EntityHead(lightCount, alignment, k) + EntityBlockSize <= EntityHead(lightCount, alignment, l)
    ensures EntityHead(lightCount, alignment, k) <= EntityHead(lightCount, alignment, l)
    decreases l
  {
    if k < l {
      EntityHeadsGrow(lightCount, alignment, k, l - 1);
    }
  }

  lemma {:induction false} EntityAfterGlobals(lightCount: nat, alignment: nat, k: nat)
    requires alignment > 0
    ensures LightsEnd(lightCount) <= EntityHead(lightCount, alignment, k)
  {
    EntityHeadsGrow(lightCount, alignment, 0, k);
  }

  /** The entities with the byte range of their uniform block recorded. */
  function PlacedEntities(entities: seq<Entity>, lightCount: nat, alignment: nat): (r: seq<Entity>)
    requires alignment > 0
    ensures |r| == |entities|
  {
    seq(|entities|, k requires 0 <= k < |entities| =>
      entities[k].(head := EntityHead(lightCount, alignment, k), size := EntityBlockSize))
  }

  /**
   * After packing, each entity, the last one included, keeps its model and
   * owns a block of two matrices that starts on a multiple of the alignment,
   * after the whole global block, and ends by the end of the frame's writes.
   */
  lemma {:induction false} PlacedEntityAt(entities: seq<Entity>, lightCount: nat, alignment: nat, k: nat)
    requires alignment > 0 && k < |entities|
    ensures var r := PlacedEntities(entities, lightCount, alignment);
      && r[k].modelIndex == entities[k].modelIndex
      && r[k].size == 2 * Mat4Size
      && r[k].head % alignment == 0
      && LightsEnd(lightCount) <= r[k].head
      && r[k].head + r[k].size <= PackedEnd(lightCount, alignment, |entities|)
  {
    EntityBlock(lightCount, alignment, k, |entities|);
  }

  /**
   * After packing, every entity keeps its model and owns a block of two
   * matrices starting on a multiple of the alignment, after the whole global
   * block; the blocks follow entity order without overlapping and all end by
   * the end of the frame's writes.
   */
  lemma {:induction false} PlacedEntitiesLayout(entities: seq<Entity>, lightCount: nat, alignment: nat, k: nat, l: nat)
    requires alignment > 0 && k < l < |entities|
    ensures var r := PlacedEntities(entities, lightCount, alignment);
      && r[k].modelIndex == entities[k].modelIndex
      && r[k].size == 2 * Mat4Size
      && r[k].head % alignment == 0
      && LightsEnd(lightCount) <= r[k].head
      && r[k].head + r[k].size <= r[l].head
      && r[l].head + r[l].size <= PackedEnd(lightCount, alignment, |entities|)
  {
    EntityLayout(lightCount, alignment, k, l, |entities|);
  }
}
