/**
 * The vertex formats produced by the model importer: a position and a normal,
 * then optionally a texture coordinate, then optionally a tangent and a
 * bitangent, interleaved in that order with no padding.
 */
module VertexLayout {
  import opened EngineTypes

  /** An attribute to be placed in an interleaved record: its location and float count. */
  datatype Slot = Slot(location: nat, componentCount: nat)

  /** The attributes an imported vertex record carries, in interleaving order. */
  function PresentSlots(hasTexCoords: bool, hasTangentSpace: bool): seq<Slot>
  {
    [Slot(0, 3), Slot(1, 3)]
    + (if hasTexCoords then [Slot(2, 2)] else [])
    + (if hasTangentSpace then [Slot(3, 3), Slot(4, 3)] else [])
  }

  /** Number of floats in a record made of `slots`. */
  function Floats(slots: seq<Slot>): nat
  {
    if slots == [] then 0 else slots[0].componentCount + Floats(slots[1..])
  }

  /** Reference packing rule: each attribute starts right where the previous one ends. */
  function PackFrom(slots: seq<Slot>, start: nat): (attrs: seq<VertexBufferAttribute>)
    ensures |attrs| == |slots|
  {
    if slots == [] then []
    else [VertexBufferAttribute(slots[0].location, slots[0].componentCount, start)]
         + PackFrom(slots[1..], start + FloatSize * slots[0].componentCount)
  }

  function Packed(slots: seq<Slot>): VertexBufferLayout
  {
    VertexBufferLayout(PackFrom(slots, 0), FloatSize * Floats(slots))
  }

  /** The layout the importer gives a submesh with the given optional attributes. */
  function StandardLayout(hasTexCoords: bool, hasTangentSpace: bool): VertexBufferLayout
  {
    Packed(PresentSlots(hasTexCoords, hasTangentSpace))
  }

  /** True when `layout` has an attribute at `location`. */
  predicate HasLocation(layout: VertexBufferLayout, location: nat)
  {
    exists j :: 0 <= j < |layout.attributes| && layout.attributes[j].location == location
  }

  /** Each packed attribute keeps its slot and starts at the byte size of the slots before it. */
  lemma {:induction false} PackedAttribute(slots: seq<Slot>, start: nat, k: nat)
    requires k < |slots|
    ensures PackFrom(slots, start)[k]
         == VertexBufferAttribute(slots[k].location, slots[k].componentCount, start + FloatSize * Floats(slots[..k]))
  {
    if k == 0 {
      assert slots[..0] == [];
    } else {
      PackedAttribute(slots[1..], start + FloatSize * slots[0].componentCount, k - 1);
      assert slots[..k][1..] == slots[1..][..k - 1];
      assert slots[..k] != [];
    }
  }

  /** The float count of a record splits at any attribute boundary. */
  lemma {:induction false} FloatsSplit(slots: seq<Slot>, k: nat)
    requires k <= |slots|
    ensures Floats(slots) == Floats(slots[..k]) + Floats(slots[k..])
  {
    if k == 0 {
      assert slots[..0] == [] && slots[0..] == slots;
    } else {
      FloatsSplit(slots[1..], k - 1);
      assert slots[..k][1..] == slots[1..][..k - 1];
      assert slots[1..][k - 1..] == slots[k..];
    }
  }

  /** Every packed attribute lies inside the record: it ends no later than the stride. */
  lemma {:induction false} PackedWithinStride(slots: seq<Slot>, k: nat)
    requires k < |slots|
    ensures Packed(slots).attributes[k].offset + FloatSize * Packed(slots).attributes[k].componentCount
         <= Packed(slots).stride
  {
    PackedAttribute(slots, 0, k);
    FloatsSplit(slots, k);
    assert slots[k..] == [slots[k]] + slots[k + 1..];
  }

  /** The four layouts the importer can produce, written out. */
  lemma {:induction false} StandardLayouts()
    ensures StandardLayout(false, false) == VertexBufferLayout(
      [VertexBufferAttribute(0, 3, 0), VertexBufferAttribute(1, 3, 12)], 24)
    ensures StandardLayout(true, false) == VertexBufferLayout(
      [VertexBufferAttribute(0, 3, 0), VertexBufferAttribute(1, 3, 12), VertexBufferAttribute(2, 2, 24)], 32)
    ensures StandardLayout(false, true) == VertexBufferLayout(
      [VertexBufferAttribute(0, 3, 0), VertexBufferAttribute(1, 3, 12),
       VertexBufferAttribute(3, 3, 24), VertexBufferAttribute(4, 3, 36)], 48)
    ensures StandardLayout(true, true) == VertexBufferLayout(
      [VertexBufferAttribute(0, 3, 0), VertexBufferAttribute(1, 3, 12), VertexBufferAttribute(2, 2, 24),
       VertexBufferAttribute(3, 3, 32), VertexBufferAttribute(4, 3, 44)], 56)
  {
  }

  /** The importer's layout as it is assembled: attributes appended in order while the stride grows. */
  lemma {:induction false} StandardLayoutSteps(hasTexCoords: bool, hasTangentSpace: bool)
    ensures var t := if hasTexCoords then 8 else 0;
      StandardLayout(hasTexCoords, hasTangentSpace) == VertexBufferLayout(
        [VertexBufferAttribute(0, 3, 0), VertexBufferAttribute(1, 3, 12)]
        + (if hasTexCoords then [VertexBufferAttribute(2, 2, 24)] else [])
        + (if hasTangentSpace then [VertexBufferAttribute(3, 3, 24 + t), VertexBufferAttribute(4, 3, 36 + t)] else []),
        24 + t + (if hasTangentSpace then 24 else 0))
  {
    StandardLayouts();
  }

  /**
   * The importer's layouts: locations strictly ascending, every attribute inside
   * the record, and a stride of 24, 32, 48 or 56 bytes (the sum of the present
   * attributes' sizes) that fits the 8-bit offset and stride fields.
   */
  lemma {:induction false} StandardLayoutShape(hasTexCoords: bool, hasTangentSpace: bool)
    ensures var l := StandardLayout(hasTexCoords, hasTangentSpace);
      && (forall i, j :: 0 <= i < j < |l.attributes| ==> l.attributes[i].location < l.attributes[j].location)
      && l.stride == 24 + (if hasTexCoords then 8 else 0) + (if hasTangentSpace then 24 else 0)
      && l.stride in {24, 32, 48, 56}
      && (forall k :: 0 <= k < |l.attributes| ==>
            l.attributes[k].offset + FloatSize * l.attributes[k].componentCount <= l.stride)
      && (forall k :: 0 <= k < |l.attributes| ==>
            IsU8(l.attributes[k].location) && IsU8(l.attributes[k].componentCount) && IsU8(l.attributes[k].offset))
      && IsU8(l.stride)
  {
    StandardLayouts();
    if hasTexCoords {
      if hasTangentSpace {
        assert StandardLayout(true, true).stride == 56;
      } else {
        assert StandardLayout(true, false).stride == 32;
      }
    } else {
      if hasTangentSpace {
        assert StandardLayout(false, true).stride == 48;
      } else {
        assert StandardLayout(false, false).stride == 24;
      }
    }
  }

  /** Locations 0 and 1 are always present, 2 exactly with texture coordinates, 3 and 4 exactly with tangent space. */
  lemma {:induction false} StandardLayoutLocations(hasTexCoords: bool, hasTangentSpace: bool, loc: nat)
    ensures HasLocation(StandardLayout(hasTexCoords, hasTangentSpace), loc) <==>
      loc <= 1 || (hasTexCoords && loc == 2) || (hasTangentSpace && (loc == 3 || loc == 4))
  {
    StandardLayouts();
    var l := StandardLayout(hasTexCoords, hasTangentSpace);
    if loc <= 1 || (hasTexCoords && loc == 2) || (hasTangentSpace && (loc == 3 || loc == 4)) {
      var j := if loc <= 2 then loc else if hasTexCoords then loc else loc - 1;
      assert l.attributes[j].location == loc;
    }
  }
}
