/**
 * The graphics device as the engine sees it: every call that matters to the
 * bookkeeping is recorded, in order, as a command of a trace.  Handles the
 * device creates are supplied by the caller (see `Engine.App.nextHandle`).
 */
module Device {
  import opened Wrappers

  datatype BufferTarget = ArrayBuffer | ElementArrayBuffer

  /** Element type of an indexed draw: the quad uses 16-bit indices, meshes 32-bit ones. */
  datatype IndexType = UnsignedShort | UnsignedInt

  datatype Cmd =
    | Clear
    | UseProgram(program: nat)
    | CompileProgram(program: nat, vertexSource: string, fragmentSource: string)
    | DeleteProgram(program: nat)
    | BindVertexArray(vao: nat)
    | BindBuffer(target: BufferTarget, buffer: nat)
    | BufferData(target: BufferTarget, size: nat)
    | VertexAttribPointer(index: nat, componentCount: nat, stride: nat, offset: nat)
    | EnableVertexAttribArray(index: nat)
    | BindBufferRange(binding: nat, buffer: nat, offset: nat, size: nat)
    | BindTexture(unit: nat, texture: nat)
    | TexImage2D(texture: nat, internalChannels: nat, dataChannels: nat, width: nat, height: nat)
    | BindFramebuffer(framebuffer: nat)
    | DrawElements(count: nat, indexType: IndexType, offset: nat)

  /** The draw calls of a trace, in order. */
  function Draws(trace: seq<Cmd>): seq<Cmd>
  {
    if trace == [] then []
    else Draws(trace[..|trace| - 1]) + (if trace[|trace| - 1].DrawElements? then [trace[|trace| - 1]] else [])
  }

  /** A command is among a trace's draws exactly when it is a draw call of the trace. */
  lemma {:induction false} DrawsFilter(trace: seq<Cmd>)
    ensures |Draws(trace)| <= |trace|
    ensures forall c :: c in Draws(trace) <==> c in trace && c.DrawElements?
    decreases |trace|
  {
    if trace != [] {
      var front := trace[..|trace| - 1];
      DrawsFilter(front);
      assert trace == front + [trace[|trace| - 1]];
    }
  }

  /** The draws of a trace that grew by `b` are the old draws followed by the draws of `b`. */
  lemma {:induction false} DrawsAppend(a: seq<Cmd>, b: seq<Cmd>)
    ensures Draws(a + b) == Draws(a) + Draws(b)
    decreases |b|
  {
    if b == [] {
      assert a + b == a;
    } else {
      var front := b[..|b| - 1];
      assert (a + b)[..|a + b| - 1] == a + front;
      DrawsAppend(a, front);
    }
  }

  /** A trace without draw calls draws nothing. */
  lemma {:induction false} NoDraws(trace: seq<Cmd>)
    requires forall k :: 0 <= k < |trace| ==> !trace[k].DrawElements?
    ensures Draws(trace) == []
    decreases |trace|
  {
    if trace != [] {
      NoDraws(trace[..|trace| - 1]);
    }
  }

  /**
   * Commands that decide what a draw reads and where it lands: a draw, a
   * render-target bind, or a uniform-block range bind.
   */
  predicate IsPass(c: Cmd)
  {
    c.DrawElements? || c.BindFramebuffer? || c.BindBufferRange?
  }

  /** The draws, render-target binds and uniform-range binds of a trace, in order. */
  function Passes(trace: seq<Cmd>): seq<Cmd>
  {
    if trace == [] then []
    else Passes(trace[..|trace| - 1]) + (if IsPass(trace[|trace| - 1]) then [trace[|trace| - 1]] else [])
  }

  /** The passes of a trace that grew by `b` are the old passes followed by those of `b`. */
  lemma {:induction false} PassesAppend(a: seq<Cmd>, b: seq<Cmd>)
    ensures Passes(a + b) == Passes(a) + Passes(b)
    decreases |b|
  {
    if b == [] {
      assert a + b == a;
    } else {
      var front := b[..|b| - 1];
      assert (a + b)[..|a + b| - 1] == a + front;
      PassesAppend(a, front);
    }
  }

  /** A trace without passes adds none. */
  lemma {:induction false} NoPasses(trace: seq<Cmd>)
    requires forall k :: 0 <= k < |trace| ==> !IsPass(trace[k])
    ensures Passes(trace) == [] && Draws(trace) == []
    decreases |trace|
  {
    if trace != [] {
      NoPasses(trace[..|trace| - 1]);
    }
  }

  /** Filtering the passes keeps every draw: a trace draws what its passes draw. */
  lemma {:induction false} DrawsOfPasses(trace: seq<Cmd>)
    ensures Draws(Passes(trace)) == Draws(trace)
    decreases |trace|
  {
    if trace != [] {
      var front, last := trace[..|trace| - 1], trace[|trace| - 1];
      DrawsOfPasses(front);
      var tail := if IsPass(last) then [last] else [];
      DrawsAppend(Passes(front), tail);
      assert [last][..0] == [];
    }
  }

  /** When the passes grow by `p`, the draws grow by the draws of `p`. */
  lemma {:induction false} DrawsFromPasses(t0: seq<Cmd>, t1: seq<Cmd>, p: seq<Cmd>)
    requires Passes(t1) == Passes(t0) + p
    ensures Draws(t1) == Draws(t0) + Draws(p)
  {
    DrawsOfPasses(t0);
    DrawsOfPasses(t1);
    DrawsAppend(Passes(t0), p);
  }

  /** The framebuffer a trace leaves as render target, if it binds one; draws land there. */
  function Target(trace: seq<Cmd>): Option<nat>
    decreases |trace|
  {
    if trace == [] then None
    else if trace[|trace| - 1].BindFramebuffer? then Some(trace[|trace| - 1].framebuffer)
    else Target(trace[..|trace| - 1])
  }

  /** The range bind a trace leaves at uniform binding `binding`, if it makes one; draws read that block there. */
  function Block(trace: seq<Cmd>, binding: nat): Option<Cmd>
    decreases |trace|
  {
    if trace == [] then None
    else if trace[|trace| - 1].BindBufferRange? && trace[|trace| - 1].binding == binding then Some(trace[|trace| - 1])
    else Block(trace[..|trace| - 1], binding)
  }

  /** After `a + b`, the target and blocks are those `b` binds, or else those `a` left. */
  lemma {:induction false} BoundAppend(a: seq<Cmd>, b: seq<Cmd>, binding: nat)
    ensures Target(a + b) == if Target(b).Some? then Target(b) else Target(a)
    ensures Block(a + b, binding) == if Block(b, binding).Some? then Block(b, binding) else Block(a, binding)
    decreases |b|
  {
    if b == [] {
      assert a + b == a;
    } else {
      var front := b[..|b| - 1];
      assert (a + b)[..|a + b| - 1] == a + front;
      BoundAppend(a, front, binding);
    }
  }

  /** The passes of a trace keep every bind that decides where draws land and what blocks they read. */
  lemma {:induction false} PassesBound(trace: seq<Cmd>, binding: nat)
    ensures Target(Passes(trace)) == Target(trace)
    ensures Block(Passes(trace), binding) == Block(trace, binding)
    decreases |trace|
  {
    if trace != [] {
      var front, last := trace[..|trace| - 1], trace[|trace| - 1];
      PassesBound(front, binding);
      var tail := if IsPass(last) then [last] else [];
      BoundAppend(Passes(front), tail, binding);
      assert [last][..0] == [];
    }
  }

  /** A trace without render-target binds leaves the target unbound. */
  lemma {:induction false} Untargeted(trace: seq<Cmd>)
    requires forall k :: 0 <= k < |trace| ==> !trace[k].BindFramebuffer?
    ensures Target(trace) == None
    decreases |trace|
  {
    if trace != [] {
      Untargeted(trace[..|trace| - 1]);
    }
  }

  /** A trace without range binds at `binding` leaves that binding unbound. */
  lemma {:induction false} Unbound(trace: seq<Cmd>, binding: nat)
    requires forall k :: 0 <= k < |trace| ==> !(trace[k].BindBufferRange? && trace[k].binding == binding)
    ensures Block(trace, binding) == None
    decreases |trace|
  {
    if trace != [] {
      Unbound(trace[..|trace| - 1], binding);
    }
  }

  /** The texture a trace leaves bound to texture unit `unit`, if it binds one. */
  function UnitTexture(trace: seq<Cmd>, unit: nat): Option<nat>
    decreases |trace|
  {
    if trace == [] then None
    else if trace[|trace| - 1].BindTexture? && trace[|trace| - 1].unit == unit then Some(trace[|trace| - 1].texture)
    else UnitTexture(trace[..|trace| - 1], unit)
  }

  /** The trace leaves `texs[k]` bound to texture unit `k`, for each `k`. */
  predicate UnitsBound(trace: seq<Cmd>, texs: seq<nat>)
  {
    forall k :: 0 <= k < |texs| ==> UnitTexture(trace, k) == Some(texs[k])
  }

  /** Commands that bind no texture leave every unit's texture as it was. */
  lemma {:induction false} NoTextureBinds(a: seq<Cmd>, b: seq<Cmd>, unit: nat)
    requires forall k :: 0 <= k < |b| ==> !b[k].BindTexture?
    ensures UnitTexture(a + b, unit) == UnitTexture(a, unit)
    decreases |b|
  {
    if b == [] {
      assert a + b == a;
    } else {
      var front := b[..|b| - 1];
      assert (a + b)[..|a + b| - 1] == a + front;
      NoTextureBinds(a, front, unit);
    }
  }

  /** A unit holds the texture of the last command that bound one to it. */
  lemma {:induction false} LastBindWins(trace: seq<Cmd>, j: nat, unit: nat, texture: nat)
    requires j < |trace| && trace[j] == BindTexture(unit, texture)
    requires forall i :: j < i < |trace| ==> !(trace[i].BindTexture? && trace[i].unit == unit)
    ensures UnitTexture(trace, unit) == Some(texture)
    decreases |trace|
  {
    if j < |trace| - 1 {
      LastBindWins(trace[..|trace| - 1], j, unit, texture);
    }
  }
}
