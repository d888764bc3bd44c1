/**
 * The per-submesh cache of bind objects (vertex array objects).  A submesh
 * keeps one entry per program it has been drawn with, keyed by the raw
 * program handle; on a miss a new bind object is created and every vertex
 * input of the program is linked to the first attribute of the submesh's
 * layout with the same location.
 */
module VaoCache {
  import opened Wrappers
  import opened EngineTypes
  import opened VertexLayout
  import opened Device

  /** Position of the first cache entry built for `programHandle`, if there is one. */
  function FirstVaoFor(vaos: seq<Vao>, programHandle: nat): (r: Option<nat>)
    ensures r.Some? ==> r.value < |vaos| && vaos[r.value].programHandle == programHandle
    ensures r.Some? ==> forall k :: 0 <= k < r.value ==> vaos[k].programHandle != programHandle
    ensures r.None? <==> forall k :: 0 <= k < |vaos| ==> vaos[k].programHandle != programHandle
    decreases |vaos|
  {
    if vaos == [] then None
    else if vaos[0].programHandle == programHandle then Some(0)
    else match FirstVaoFor(vaos[1..], programHandle)
      case None => None
      case Some(k) => Some(k + 1)
  }

  /** Scans the cache front to back for an entry built for `programHandle`. */
  method ScanVaos(vaos: seq<Vao>, programHandle: nat) returns (found: Option<nat>)
    ensures found == FirstVaoFor(vaos, programHandle)
  {
    var i := 0;
    while i < |vaos|
      invariant i <= |vaos|
      invariant forall k :: 0 <= k < i ==> vaos[k].programHandle != programHandle
    {
      if vaos[i].programHandle == programHandle {
        return Some(i);
      }
      i := i + 1;
    }
    return None;
  }

  /**
   * A lookup for `programHandle`: on a hit, the first matching entry's handle
   * and the cache as it was; on a miss, `freshHandle` and the cache with one
   * entry for it appended.
   */
  function Lookup(vaos: seq<Vao>, programHandle: nat, freshHandle: nat): (nat, seq<Vao>)
  {
    match FirstVaoFor(vaos, programHandle)
    case Some(k) => (vaos[k].handle, vaos)
    case None => (freshHandle, vaos + [Vao(freshHandle, programHandle)])
  }

  /**
   * A lookup never drops or reorders entries and adds at most one; the handle
   * it returns belongs to an entry built for the program, and the first such
   * entry at that.
   */
  lemma {:induction false} LookupKeepsEntries(vaos: seq<Vao>, programHandle: nat, freshHandle: nat)
    ensures var (h, out) := Lookup(vaos, programHandle, freshHandle);
      && vaos <= out
      && |out| <= |vaos| + 1
      && FirstVaoFor(out, programHandle).Some?
      && out[FirstVaoFor(out, programHandle).value] == Vao(h, programHandle)
  {
    var (h, out) := Lookup(vaos, programHandle, freshHandle);
    if FirstVaoFor(vaos, programHandle).None? {
      assert out[|vaos|] == Vao(freshHandle, programHandle);
      assert FirstVaoFor(out, programHandle) == Some(|vaos|) by {
        assert forall k :: 0 <= k < |vaos| ==> out[k] == vaos[k];
      }
    }
  }

  /** Looking up the same program again returns the same handle and leaves the cache as it is. */
  lemma {:induction false} LookupIdempotent(vaos: seq<Vao>, programHandle: nat, freshHandle: nat, laterFreshHandle: nat)
    ensures var (h, out) := Lookup(vaos, programHandle, freshHandle);
      Lookup(out, programHandle, laterFreshHandle) == (h, out)
  {
    LookupKeepsEntries(vaos, programHandle, freshHandle);
  }

  /**
   * An entry built for a program handle that is no longer current stays in the
   * cache, at the same position, through any lookup for another handle.
   */
  lemma {:induction false} StaleEntriesPersist(vaos: seq<Vao>, k: nat, currentHandle: nat, freshHandle: nat)
    requires k < |vaos| && vaos[k].programHandle != currentHandle
    ensures Lookup(vaos, currentHandle, freshHandle).1[k] == vaos[k]
    ensures FirstVaoFor(vaos, currentHandle).None? ==> |Lookup(vaos, currentHandle, freshHandle).1| == |vaos| + 1
  {
    LookupKeepsEntries(vaos, currentHandle, freshHandle);
  }

  /** The program's vertex inputs all have an attribute in `layout` (otherwise linking fails). */
  predicate Covers(layout: VertexBufferLayout, inputs: seq<VertexShaderAttribute>)
  {
    forall i :: 0 <= i < |inputs| ==> HasLocation(layout, inputs[i].location)
  }

  /** Position of the first attribute of `attrs` at `location`, if there is one. */
  function FirstAttribute(attrs: seq<VertexBufferAttribute>, location: nat): (r: Option<nat>)
    ensures r.Some? ==> r.value < |attrs| && attrs[r.value].location == location
    ensures r.Some? ==> forall k :: 0 <= k < r.value ==> attrs[k].location != location
    ensures r.None? <==> forall k :: 0 <= k < |attrs| ==> attrs[k].location != location
    decreases |attrs|
  {
    if attrs == [] then None
    else if attrs[0].location == location then Some(0)
    else match FirstAttribute(attrs[1..], location)
      case None => None
      case Some(k) => Some(k + 1)
  }

  /** The attribute an input at `location` is linked to. */
  function LinkedAttribute(layout: VertexBufferLayout, location: nat): (a: VertexBufferAttribute)
    requires HasLocation(layout, location)
    ensures a.location == location
  {
    layout.attributes[FirstAttribute(layout.attributes, location).value]
  }

  /** The commands linking one vertex input to the submesh's data in the shared vertex buffer. */
  function InputWiring(submesh: Submesh, input: VertexShaderAttribute): seq<Cmd>
    requires HasLocation(submesh.layout, input.location)
  {
    var a := LinkedAttribute(submesh.layout, input.location);
    [VertexAttribPointer(a.location, a.componentCount, submesh.layout.stride, a.offset + submesh.vertexOffset),
     EnableVertexAttribArray(a.location)]
  }

  /** The commands linking all vertex inputs, in input order. */
  function Wiring(submesh: Submesh, inputs: seq<VertexShaderAttribute>): seq<Cmd>
    requires Covers(submesh.layout, inputs)
  {
    if inputs == [] then []
    else Wiring(submesh, inputs[..|inputs| - 1]) + InputWiring(submesh, inputs[|inputs| - 1])
  }

  lemma {:induction false} WiringLength(submesh: Submesh, inputs: seq<VertexShaderAttribute>)
    requires Covers(submesh.layout, inputs)
    ensures |Wiring(submesh, inputs)| == 2 * |inputs|
    decreases |inputs|
  {
    if inputs != [] {
      WiringLength(submesh, inputs[..|inputs| - 1]);
    }
  }

  /**
   * Input `i` is linked by the pair of commands at `2 * i`: a pointer at the
   * input's location with the component count of the first layout attribute
   * at that location, the layout's stride, and that attribute's offset moved by
   * the submesh's start in the shared buffer; then the enable of that location.
   */
  lemma {:induction false} WiringAt(submesh: Submesh, inputs: seq<VertexShaderAttribute>, i: nat)
    requires Covers(submesh.layout, inputs) && i < |inputs|
    ensures |Wiring(submesh, inputs)| == 2 * |inputs|
    ensures var a := LinkedAttribute(submesh.layout, inputs[i].location);
      && Wiring(submesh, inputs)[2 * i]
         == VertexAttribPointer(inputs[i].location, a.componentCount, submesh.layout.stride, a.offset + submesh.vertexOffset)
      && Wiring(submesh, inputs)[2 * i + 1] == EnableVertexAttribArray(inputs[i].location)
    decreases |inputs|
  {
    var front := inputs[..|inputs| - 1];
    assert Covers(submesh.layout, front);
    var w := Wiring(submesh, front);
    var tail := InputWiring(submesh, inputs[|inputs| - 1]);
    assert Wiring(submesh, inputs) == w + tail;
    WiringLength(submesh, front);
    if i < |front| {
      WiringAt(submesh, front, i);
      assert front[i] == inputs[i];
      assert (w + tail)[2 * i] == w[2 * i] && (w + tail)[2 * i + 1] == w[2 * i + 1];
    } else {
      assert (w + tail)[2 * i] == tail[0] && (w + tail)[2 * i + 1] == tail[1];
    }
  }

  /**
   * Links every vertex input of a program to the submesh's vertex data; an
   * input without a matching attribute is the failed assertion, excluded by
   * the precondition.
   */
  method LinkInputs(submesh: Submesh, inputs: seq<VertexShaderAttribute>) returns (cmds: seq<Cmd>)
    requires Covers(submesh.layout, inputs)
    ensures cmds == Wiring(submesh, inputs)
  {
    var attrs := submesh.layout.attributes;
    cmds := [];
    for i := 0 to |inputs|
      invariant cmds == Wiring(submesh, inputs[..i])
    {
      assert inputs[..i + 1][..i] == inputs[..i];
      var attributeWasLinked := false;
      var j := 0;
      while j < |attrs|
        invariant j <= |attrs|
        invariant forall k :: 0 <= k < j ==> attrs[k].location != inputs[i].location
        invariant cmds == Wiring(submesh, inputs[..i])
      {
        if inputs[i].location == attrs[j].location {
          var a := attrs[j];
          cmds := cmds + [VertexAttribPointer(a.location, a.componentCount, submesh.layout.stride, a.offset + submesh.vertexOffset),
                          EnableVertexAttribArray(a.location)];
          attributeWasLinked := true;
          break;
        }
        j := j + 1;
      }
      if !attributeWasLinked {
        assert false;
      }
    }
    assert inputs[..|inputs|] == inputs;
  }

  /** The commands a cache miss issues: bind the new object and both shared buffers, link, unbind. */
  function MissTrace(mesh: Mesh, submesh: Submesh, vaoHandle: nat, inputs: seq<VertexShaderAttribute>): seq<Cmd>
    requires Covers(submesh.layout, inputs)
  {
    [BindVertexArray(vaoHandle), BindBuffer(ArrayBuffer, mesh.vertexBufferHandle),
     BindBuffer(ElementArrayBuffer, mesh.indexBufferHandle)]
    + Wiring(submesh, inputs)
    + [BindVertexArray(0)]
  }

  /**
   * A cache miss draws nothing and binds neither a render target nor a
   * uniform range: besides the binds, every command of the wiring is a
   * pointer or an enable.
   */
  lemma {:induction false} MissDrawsNothing(mesh: Mesh, submesh: Submesh, vaoHandle: nat, inputs: seq<VertexShaderAttribute>)
    requires Covers(submesh.layout, inputs)
    ensures Draws(MissTrace(mesh, submesh, vaoHandle, inputs)) == []
    ensures Passes(MissTrace(mesh, submesh, vaoHandle, inputs)) == []
  {
    var w := Wiring(submesh, inputs);
    WiringLength(submesh, inputs);
    forall k | 0 <= k < |w|
      ensures !IsPass(w[k])
    {
      WiringAt(submesh, inputs, k / 2);
      assert k == 2 * (k / 2) || k == 2 * (k / 2) + 1;
    }
    NoPasses(MissTrace(mesh, submesh, vaoHandle, inputs));
  }
}
