/**
 * What each display mode draws.  The mesh pass draws every submesh of every
 * entity's mesh with 32-bit indices from the submesh's place in the shared
 * index buffer; the screen quad is drawn with its six 16-bit indices.  The
 * draws of a pass depend on the meshes only through their shape, never on
 * their bind-object caches, which the pass itself fills.
 */
module RenderPasses {
  import opened Wrappers
  import opened EngineTypes
  import opened Device
  import opened Modes
  import opened VaoCache

  /** The draw of one submesh. */
  function SubmeshDraw(s: Submesh): Cmd
  {
    DrawElements(|s.indices|, UnsignedInt, s.indexOffset)
  }

  /** The draw of the screen quad. */
  function QuadDraw(): Cmd
  {
    DrawElements(|QuadIndices|, UnsignedShort, 0)
  }

  /** The draws of a mesh's first `k` submeshes, in submesh order. */
  function MeshDraws(mesh: Mesh, k: nat): (r: seq<Cmd>)
    requires k <= |mesh.submeshes|
    ensures |r| == k
  {
    if k == 0 then [] else MeshDraws(mesh, k - 1) + [SubmeshDraw(mesh.submeshes[k - 1])]
  }

  /** Every entity names a model, and every model a mesh. */
  predicate Drawable(entities: seq<Entity>, models: seq<Model>, meshes: seq<Mesh>)
  {
    && (forall e :: 0 <= e < |entities| ==> entities[e].modelIndex < |models|)
    && (forall m :: 0 <= m < |models| ==> models[m].meshIdx < |meshes|)
  }

  /** Index of the mesh entity `e` is drawn with. */
  function MeshOf(entities: seq<Entity>, models: seq<Model>, meshes: seq<Mesh>, e: nat): (r: nat)
    requires Drawable(entities, models, meshes) && e < |entities|
    ensures r < |meshes|
  {
    models[entities[e].modelIndex].meshIdx
  }

  /** The draws of the mesh pass over the first `e` entities. */
  function MeshPassDraws(entities: seq<Entity>, models: seq<Model>, meshes: seq<Mesh>, e: nat): seq<Cmd>
    requires Drawable(entities, models, meshes) && e <= |entities|
  {
    if e == 0 then []
    else
      var mesh := meshes[MeshOf(entities, models, meshes, e - 1)];
      MeshPassDraws(entities, models, meshes, e - 1) + MeshDraws(mesh, |mesh.submeshes|)
  }

  /** Submeshes drawn by the mesh pass over the first `e` entities. */
  function SubmeshesDrawn(entities: seq<Entity>, models: seq<Model>, meshes: seq<Mesh>, e: nat): nat
    requires Drawable(entities, models, meshes) && e <= |entities|
  {
    if e == 0 then 0
    else SubmeshesDrawn(entities, models, meshes, e - 1) + |meshes[MeshOf(entities, models, meshes, e - 1)].submeshes|
  }

  /**
   * The mesh pass issues one draw per entity and submesh, each with 32-bit
   * indices, the submesh's index count and its offset in the shared buffer.
   */
  lemma {:induction false} MeshPassShape(entities: seq<Entity>, models: seq<Model>, meshes: seq<Mesh>, e: nat)
    requires Drawable(entities, models, meshes) && e <= |entities|
    ensures |MeshPassDraws(entities, models, meshes, e)| == SubmeshesDrawn(entities, models, meshes, e)
    ensures forall k :: 0 <= k < |MeshPassDraws(entities, models, meshes, e)| ==>
      exists x, s :: (0 <= x < e && 0 <= s < |meshes[MeshOf(entities, models, meshes, x)].submeshes|
        && MeshPassDraws(entities, models, meshes, e)[k] == SubmeshDraw(meshes[MeshOf(entities, models, meshes, x)].submeshes[s]))
    decreases e
  {
    if e > 0 {
      MeshPassShape(entities, models, meshes, e - 1);
      var prev := MeshPassDraws(entities, models, meshes, e - 1);
      var mesh := meshes[MeshOf(entities, models, meshes, e - 1)];
      var last := MeshDraws(mesh, |mesh.submeshes|);
      forall k | 0 <= k < |prev + last|
        ensures exists x, s :: (0 <= x < e && 0 <= s < |meshes[MeshOf(entities, models, meshes, x)].submeshes|
          && (prev + last)[k] == SubmeshDraw(meshes[MeshOf(entities, models, meshes, x)].submeshes[s]))
      {
        if k < |prev| {
          assert (prev + last)[k] == prev[k];
        } else {
          MeshDrawsAt(mesh, |mesh.submeshes|, k - |prev|);
          assert (prev + last)[k] == last[k - |prev|];
          var x := e - 1;
          assert (prev + last)[k] == SubmeshDraw(meshes[MeshOf(entities, models, meshes, x)].submeshes[k - |prev|]);
        }
      }
    }
  }

  lemma {:induction false} MeshDrawsAt(mesh: Mesh, k: nat, s: nat)
    requires s < k <= |mesh.submeshes|
    ensures MeshDraws(mesh, k)[s] == SubmeshDraw(mesh.submeshes[s])
    decreases k
  {
    if s < k - 1 {
      MeshDrawsAt(mesh, k - 1, s);
    }
  }

  /** What a mode draws, given the draws of the mesh pass. */
  function ModeDraws(mode: Mode, meshPass: seq<Cmd>): seq<Cmd>
  {
    match mode
    case TexturedQuad => [QuadDraw()]
    case Count => []
    case MeshMode => meshPass
    case Framebuffer => meshPass + [QuadDraw()]
    case Albedo => meshPass + [QuadDraw()]
    case Normal => meshPass + [QuadDraw()]
    case Position => [QuadDraw()]
    case Depth => [QuadDraw()]
  }

  /** The modes that run the mesh pass: the mesh mode and the three geometry-buffer views. */
  predicate UsesMeshPass(mode: Mode)
  {
    mode == MeshMode || mode == Framebuffer || mode == Albedo || mode == Normal
  }

  /**
   * `Count` draws nothing; the geometry-buffer modes draw the mesh pass and
   * then the quad; the other quad modes draw only the quad; the mesh mode
   * only the mesh pass.  The quad is always the last draw when drawn, and
   * always its six 16-bit indices.
   */
  lemma {:induction false} ModeDrawsShape(mode: Mode, meshPass: seq<Cmd>)
    ensures var d := ModeDraws(mode, meshPass);
      && (mode == Count ==> d == [])
      && (mode == MeshMode ==> d == meshPass)
      && (mode in {Framebuffer, Albedo, Normal} ==> d[..|meshPass|] == meshPass && |d| == |meshPass| + 1)
      && (mode in {TexturedQuad, Position, Depth} ==> |d| == 1)
      && (mode != Count && mode != MeshMode ==> d[|d| - 1] == DrawElements(6, UnsignedShort, 0))
  {
    assert |QuadIndices| == 6;
  }

  /** Binds entity `entity`'s block of uniform buffer `buffer` at binding 1. */
  function EntityBind(buffer: nat, entity: Entity): Cmd
  {
    BindBufferRange(1, buffer, entity.head, entity.size)
  }

  /**
   * The passes of the mesh pass over the first `e` entities: entity by entity,
   * its own uniform block bound at binding 1, then the draws of its mesh.
   */
  function EntityPasses(entities: seq<Entity>, models: seq<Model>, meshes: seq<Mesh>, buffer: nat, e: nat): seq<Cmd>
    requires Drawable(entities, models, meshes) && e <= |entities|
  {
    if e == 0 then []
    else
      var mesh := meshes[MeshOf(entities, models, meshes, e - 1)];
      EntityPasses(entities, models, meshes, buffer, e - 1) + ([EntityBind(buffer, entities[e - 1])] + MeshDraws(mesh, |mesh.submeshes|))
  }

  /** The passes of the mesh pass: the global block bound at binding 0, then every entity's block and draws. */
  function MeshPass(entities: seq<Entity>, models: seq<Model>, meshes: seq<Mesh>, buffer: nat,
                    globalsOffset: nat, globalsSize: nat): seq<Cmd>
    requires Drawable(entities, models, meshes)
  {
    [BindBufferRange(0, buffer, globalsOffset, globalsSize)] + EntityPasses(entities, models, meshes, buffer, |entities|)
  }

  /**
   * The passes of a mode, given those of its mesh pass: the geometry-buffer
   * views render the mesh pass into `framebuffer`, then rebind the default
   * framebuffer 0 and draw the quad there.
   */
  function ModePasses(mode: Mode, meshPass: seq<Cmd>, framebuffer: nat): seq<Cmd>
  {
    match mode
    case TexturedQuad => [QuadDraw()]
    case Count => []
    case MeshMode => meshPass
    case Framebuffer => [BindFramebuffer(framebuffer)] + meshPass + [BindFramebuffer(0), QuadDraw()]
    case Albedo => [BindFramebuffer(framebuffer)] + meshPass + [BindFramebuffer(0), QuadDraw()]
    case Normal => [BindFramebuffer(framebuffer)] + meshPass + [BindFramebuffer(0), QuadDraw()]
    case Position => [QuadDraw()]
    case Depth => [QuadDraw()]
  }

  lemma {:induction false} MeshDrawsAreDraws(mesh: Mesh, k: nat)
    requires k <= |mesh.submeshes|
    ensures Draws(MeshDraws(mesh, k)) == MeshDraws(mesh, k)
    decreases k
  {
    if k > 0 {
      MeshDrawsAreDraws(mesh, k - 1);
      assert MeshDraws(mesh, k)[..k - 1] == MeshDraws(mesh, k - 1);
    }
  }

  /** Entity `entity`'s passes draw exactly its mesh's draws. */
  lemma {:induction false} EntityBindDraws(buffer: nat, entity: Entity, mesh: Mesh)
    ensures Draws([EntityBind(buffer, entity)] + MeshDraws(mesh, |mesh.submeshes|)) == MeshDraws(mesh, |mesh.submeshes|)
  {
    DrawsAppend([EntityBind(buffer, entity)], MeshDraws(mesh, |mesh.submeshes|));
    NoDraws([EntityBind(buffer, entity)]);
    MeshDrawsAreDraws(mesh, |mesh.submeshes|);
  }

  /** The draws among the mesh pass's passes are the mesh pass's draws. */
  lemma {:induction false} EntityPassesDraws(entities: seq<Entity>, models: seq<Model>, meshes: seq<Mesh>, buffer: nat, e: nat)
    requires Drawable(entities, models, meshes) && e <= |entities|
    ensures Draws(EntityPasses(entities, models, meshes, buffer, e)) == MeshPassDraws(entities, models, meshes, e)
    decreases e
  {
    if e > 0 {
      EntityPassesDraws(entities, models, meshes, buffer, e - 1);
      var mesh := meshes[MeshOf(entities, models, meshes, e - 1)];
      DrawsAppend(EntityPasses(entities, models, meshes, buffer, e - 1),
                  [EntityBind(buffer, entities[e - 1])] + MeshDraws(mesh, |mesh.submeshes|));
      EntityBindDraws(buffer, entities[e - 1], mesh);
    }
  }

  lemma {:induction false} MeshPassDrawsOf(entities: seq<Entity>, models: seq<Model>, meshes: seq<Mesh>, buffer: nat,
                                           globalsOffset: nat, globalsSize: nat)
    requires Drawable(entities, models, meshes)
    ensures Draws(MeshPass(entities, models, meshes, buffer, globalsOffset, globalsSize))
            == MeshPassDraws(entities, models, meshes, |entities|)
  {
    var bind := [BindBufferRange(0, buffer, globalsOffset, globalsSize)];
    DrawsAppend(bind, EntityPasses(entities, models, meshes, buffer, |entities|));
    NoDraws(bind);
    EntityPassesDraws(entities, models, meshes, buffer, |entities|);
  }

  /** The quad draw alone draws itself. */
  lemma {:induction false} QuadDraws()
    ensures Draws([QuadDraw()]) == [QuadDraw()]
  {
    assert [QuadDraw()][..0] == [];
  }

  /** A geometry-buffer view draws the mesh pass's draws, then the quad: the framebuffer binds draw nothing. */
  lemma {:induction false} ViewDraws(meshPass: seq<Cmd>, framebuffer: nat)
    ensures Draws([BindFramebuffer(framebuffer)] + meshPass + [BindFramebuffer(0), QuadDraw()]) == Draws(meshPass) + [QuadDraw()]
  {
    var open, close, quad := [BindFramebuffer(framebuffer)], [BindFramebuffer(0)], [QuadDraw()];
    assert [BindFramebuffer(0), QuadDraw()] == close + quad;
    NoDraws(open);
    NoDraws(close);
    QuadDraws();
    DrawsAppend(open, meshPass);
    DrawsAppend(open + meshPass, close + quad);
    DrawsAppend(close, quad);
  }

  /** A mode's passes draw what the mode draws. */
  lemma {:induction false} ModePassesDraws(mode: Mode, meshPass: seq<Cmd>, framebuffer: nat)
    ensures Draws(ModePasses(mode, meshPass, framebuffer)) == ModeDraws(mode, Draws(meshPass))
  {
    match mode
    case Framebuffer => ViewDraws(meshPass, framebuffer);
    case Albedo => ViewDraws(meshPass, framebuffer);
    case Normal => ViewDraws(meshPass, framebuffer);
    case TexturedQuad => QuadDraws();
    case Position => QuadDraws();
    case Depth => QuadDraws();
    case MeshMode =>
    case Count =>
  }

  /** A command of the entity passes: a draw, or a range bind at binding 1. */
  predicate EntityPassCmd(c: Cmd)
  {
    c.DrawElements? || (c.BindBufferRange? && c.binding == 1)
  }

  /** The entity passes only draw and bind blocks at binding 1. */
  lemma {:induction false} EntityPassesCmds(entities: seq<Entity>, models: seq<Model>, meshes: seq<Mesh>, buffer: nat, e: nat)
    requires Drawable(entities, models, meshes) && e <= |entities|
    ensures forall k :: 0 <= k < |EntityPasses(entities, models, meshes, buffer, e)| ==>
      EntityPassCmd(EntityPasses(entities, models, meshes, buffer, e)[k])
    decreases e
  {
    if e > 0 {
      EntityPassesCmds(entities, models, meshes, buffer, e - 1);
      var mesh := meshes[MeshOf(entities, models, meshes, e - 1)];
      var prev, step := EntityPasses(entities, models, meshes, buffer, e - 1),
                        [EntityBind(buffer, entities[e - 1])] + MeshDraws(mesh, |mesh.submeshes|);
      forall k | 0 <= k < |prev + step|
        ensures EntityPassCmd((prev + step)[k])
      {
        if k < |prev| {
          assert (prev + step)[k] == prev[k];
        } else if |prev| < k {
          MeshDrawsAt(mesh, |mesh.submeshes|, k - |prev| - 1);
          assert (prev + step)[k] == MeshDraws(mesh, |mesh.submeshes|)[k - |prev| - 1];
        }
      }
    }
  }

  /** The passes over fewer entities begin the passes over more. */
  lemma {:induction false} EntityPassesPrefix(entities: seq<Entity>, models: seq<Model>, meshes: seq<Mesh>, buffer: nat,
                                              e: nat, n: nat)
    requires Drawable(entities, models, meshes) && e <= n <= |entities|
    ensures EntityPasses(entities, models, meshes, buffer, e) <= EntityPasses(entities, models, meshes, buffer, n)
    decreases n
  {
    if e < n {
      EntityPassesPrefix(entities, models, meshes, buffer, e, n - 1);
    }
  }

  /**
   * Every draw of the mesh pass reads the global block at binding 0 and the
   * block of the entity it draws at binding 1: submesh `j` of entity `e`'s
   * mesh is drawn at position `k` of the pass, after its entity's own bind.
   */
  lemma {:induction false} EntityDrawBlocks(entities: seq<Entity>, models: seq<Model>, meshes: seq<Mesh>, buffer: nat,
                                            globalsOffset: nat, globalsSize: nat, e: nat, j: nat)
    requires Drawable(entities, models, meshes) && e < |entities|
    requires j < |meshes[MeshOf(entities, models, meshes, e)].submeshes|
    ensures var p := MeshPass(entities, models, meshes, buffer, globalsOffset, globalsSize);
      var k := |EntityPasses(entities, models, meshes, buffer, e)| + 2 + j;
      && k < |p|
      && p[k] == SubmeshDraw(meshes[MeshOf(entities, models, meshes, e)].submeshes[j])
      && Block(p[..k], 1) == Some(EntityBind(buffer, entities[e]))
      && Block(p[..k], 0) == Some(BindBufferRange(0, buffer, globalsOffset, globalsSize))
      && Target(p[..k]) == None
  {
    var mesh := meshes[MeshOf(entities, models, meshes, e)];
    var globals, prev, bind, draws := [BindBufferRange(0, buffer, globalsOffset, globalsSize)],
      EntityPasses(entities, models, meshes, buffer, e), [EntityBind(buffer, entities[e])], MeshDraws(mesh, |mesh.submeshes|);
    var p := MeshPass(entities, models, meshes, buffer, globalsOffset, globalsSize);
    var k := |prev| + 2 + j;
    assert EntityPasses(entities, models, meshes, buffer, e + 1) == prev + (bind + draws);
    EntityPassesPrefix(entities, models, meshes, buffer, e + 1, |entities|);
    assert p[..k] == globals + prev + bind + draws[..j];
    MeshDrawsAt(mesh, |mesh.submeshes|, j);
    forall i | 0 <= i < j
      ensures draws[..j][i].DrawElements?
    {
      MeshDrawsAt(mesh, |mesh.submeshes|, i);
    }
    EntityPassesCmds(entities, models, meshes, buffer, e);
    forall i | 0 <= i < |prev|
      ensures !prev[i].BindFramebuffer? && !(prev[i].BindBufferRange? && prev[i].binding == 0)
    {
      assert EntityPassCmd(prev[i]);
    }
    Untargeted(prev);
    Untargeted(draws[..j]);
    Unbound(prev, 0);
    Unbound(draws[..j], 0);
    Unbound(draws[..j], 1);
    Unbound(bind[..0], 0);
    Untargeted(bind[..0]);
    Untargeted(globals[..0]);
    BoundAppend(globals + prev + bind, draws[..j], 0);
    BoundAppend(globals + prev + bind, draws[..j], 1);
    BoundAppend(globals + prev, bind, 0);
    BoundAppend(globals + prev, bind, 1);
    BoundAppend(globals, prev, 0);
    BoundAppend(globals, prev, 1);
  }

  /** The mesh pass binds no render target: its draws land wherever the caller points them. */
  lemma {:induction false} MeshPassUntargeted(entities: seq<Entity>, models: seq<Model>, meshes: seq<Mesh>, buffer: nat,
                                              globalsOffset: nat, globalsSize: nat)
    requires Drawable(entities, models, meshes)
    ensures var p := MeshPass(entities, models, meshes, buffer, globalsOffset, globalsSize);
      forall k :: 0 <= k < |p| ==> !p[k].BindFramebuffer?
  {
    var p := MeshPass(entities, models, meshes, buffer, globalsOffset, globalsSize);
    var rest := EntityPasses(entities, models, meshes, buffer, |entities|);
    EntityPassesCmds(entities, models, meshes, buffer, |entities|);
    forall k | 0 <= k < |p|
      ensures !p[k].BindFramebuffer?
    {
      if k > 0 {
        assert p[k] == rest[k - 1] && EntityPassCmd(rest[k - 1]);
      }
    }
  }

  /**
   * A geometry-buffer view sends every command of its mesh pass to
   * `framebuffer` and its closing quad draw to the default framebuffer 0.
   */
  lemma {:induction false} ViewTargets(mode: Mode, meshPass: seq<Cmd>, framebuffer: nat)
    requires mode == Framebuffer || mode == Albedo || mode == Normal
    requires forall k :: 0 <= k < |meshPass| ==> !meshPass[k].BindFramebuffer?
    ensures var p := ModePasses(mode, meshPass, framebuffer);
      && |p| == |meshPass| + 3
      && (forall k :: 1 <= k <= |meshPass| ==> p[k] == meshPass[k - 1] && Target(p[..k]) == Some(framebuffer))
      && p[|p| - 1] == QuadDraw() && Target(p[..|p| - 1]) == Some(0)
  {
    var p := ModePasses(mode, meshPass, framebuffer);
    var open := [BindFramebuffer(framebuffer)];
    assert p == open + meshPass + [BindFramebuffer(0), QuadDraw()];
    forall k | 1 <= k <= |meshPass|
      ensures p[k] == meshPass[k - 1] && Target(p[..k]) == Some(framebuffer)
    {
      assert p[..k] == open + meshPass[..k - 1];
      Untargeted(meshPass[..k - 1]);
      BoundAppend(open, meshPass[..k - 1], 0);
      assert open[..0] == [];
    }
    assert p[..|p| - 1] == (open + meshPass) + [BindFramebuffer(0)];
    assert [BindFramebuffer(0)][..0] == [];
    BoundAppend(open + meshPass, [BindFramebuffer(0)], 0);
  }

  /** The mesh pass's passes do not depend on the caches. */
  lemma {:induction false} EntityPassesIgnoreVaos(entities: seq<Entity>, models: seq<Model>, a: seq<Mesh>, b: seq<Mesh>,
                                                  buffer: nat, e: nat)
    requires Drawable(entities, models, a) && Shapes(a) == Shapes(b) && e <= |entities|
    ensures Drawable(entities, models, b)
    ensures EntityPasses(entities, models, a, buffer, e) == EntityPasses(entities, models, b, buffer, e)
    decreases e
  {
    DrawsIgnoreVaos(entities, models, a, b, 0);
    if e > 0 {
      EntityPassesIgnoreVaos(entities, models, a, b, buffer, e - 1);
      SameShapesDraws(a, b, MeshOf(entities, models, a, e - 1));
    }
  }

  /** A mesh with every submesh's bind-object cache emptied. */
  function Stripped(mesh: Mesh): Mesh
  {
    mesh.(submeshes := seq(|mesh.submeshes|, s requires 0 <= s < |mesh.submeshes| => mesh.submeshes[s].(vaos := [])))
  }

  /**
   * The meshes with their caches emptied: everything of the meshes that a
   * pass reads and never changes.
   */
  function Shapes(meshes: seq<Mesh>): (r: seq<Mesh>)
    ensures |r| == |meshes|
  {
    seq(|meshes|, m requires 0 <= m < |meshes| => Stripped(meshes[m]))
  }

  /** The meshes with one submesh's cache replaced. */
  function WithVaos(meshes: seq<Mesh>, m: nat, s: nat, vaos: seq<Vao>): (r: seq<Mesh>)
    requires m < |meshes| && s < |meshes[m].submeshes|
    ensures |r| == |meshes|
  {
    meshes[m := meshes[m].(submeshes := meshes[m].submeshes[s := meshes[m].submeshes[s].(vaos := vaos)])]
  }

  /** Replacing a cache leaves the shapes alone. */
  lemma {:induction false} ShapesWithVaos(meshes: seq<Mesh>, m: nat, s: nat, vaos: seq<Vao>)
    requires m < |meshes| && s < |meshes[m].submeshes|
    ensures Shapes(WithVaos(meshes, m, s, vaos)) == Shapes(meshes)
  {
    var after := WithVaos(meshes, m, s, vaos);
    forall k | 0 <= k < |meshes|
      ensures Stripped(after[k]) == Stripped(meshes[k])
    {
      if k == m {
        assert Stripped(after[k]).submeshes == Stripped(meshes[k]).submeshes;
      }
    }
  }

  /** Meshes of the same shapes hold submeshes that differ at most in their caches. */
  lemma {:induction false} SameShapesAt(a: seq<Mesh>, b: seq<Mesh>, m: nat, s: nat)
    requires Shapes(a) == Shapes(b) && m < |a|
    ensures |a[m].submeshes| == |b[m].submeshes|
    ensures s < |a[m].submeshes| ==> a[m].submeshes[s].(vaos := []) == b[m].submeshes[s].(vaos := [])
  {
    assert Shapes(a)[m] == Stripped(a[m]) && Shapes(b)[m] == Stripped(b[m]);
    assert |Stripped(a[m]).submeshes| == |a[m].submeshes|;
    if s < |a[m].submeshes| {
      assert Stripped(a[m]).submeshes[s] == a[m].submeshes[s].(vaos := []);
      assert Stripped(b[m]).submeshes[s] == b[m].submeshes[s].(vaos := []);
    }
  }

  lemma {:induction false} SameShapeDraws(a: Mesh, b: Mesh, k: nat)
    requires |a.submeshes| == |b.submeshes| && k <= |a.submeshes|
    requires forall s :: 0 <= s < |a.submeshes| ==> a.submeshes[s].(vaos := []) == b.submeshes[s].(vaos := [])
    ensures MeshDraws(a, k) == MeshDraws(b, k)
    decreases k
  {
    if k > 0 {
      SameShapeDraws(a, b, k - 1);
      assert a.submeshes[k - 1].(vaos := []).indices == b.submeshes[k - 1].(vaos := []).indices;
      assert a.submeshes[k - 1].(vaos := []).indexOffset == b.submeshes[k - 1].(vaos := []).indexOffset;
    }
  }

  /** A mesh draws the same whatever its caches hold. */
  lemma {:induction false} SameShapesDraws(a: seq<Mesh>, b: seq<Mesh>, m: nat)
    requires Shapes(a) == Shapes(b) && m < |a|
    ensures |a[m].submeshes| == |b[m].submeshes|
    ensures MeshDraws(a[m], |a[m].submeshes|) == MeshDraws(b[m], |b[m].submeshes|)
  {
    SameShapesAt(a, b, m, 0);
    forall s | 0 <= s < |a[m].submeshes|
      ensures a[m].submeshes[s].(vaos := []) == b[m].submeshes[s].(vaos := [])
    {
      SameShapesAt(a, b, m, s);
    }
    SameShapeDraws(a[m], b[m], |a[m].submeshes|);
  }

  /** The mesh pass draws the same whatever the caches hold. */
  lemma {:induction false} DrawsIgnoreVaos(entities: seq<Entity>, models: seq<Model>, a: seq<Mesh>, b: seq<Mesh>, e: nat)
    requires Drawable(entities, models, a) && Shapes(a) == Shapes(b) && e <= |entities|
    ensures Drawable(entities, models, b)
    ensures MeshPassDraws(entities, models, a, e) == MeshPassDraws(entities, models, b, e)
    decreases e
  {
    if e > 0 {
      DrawsIgnoreVaos(entities, models, a, b, e - 1);
      SameShapesDraws(a, b, MeshOf(entities, models, a, e - 1));
    }
  }

  /**
   * Every submesh of `mesh` either already has a bind object for `program` or
   * provides an attribute for each of the program's inputs (otherwise the
   * linking assertion fails).
   */
  predicate Linkable(mesh: Mesh, program: Program)
  {
    forall s :: 0 <= s < |mesh.submeshes| ==>
      FirstVaoFor(mesh.submeshes[s].vaos, program.handle).Some? || Covers(mesh.submeshes[s].layout, program.vertexInputLayout)
  }

  /** Every submesh of `mesh` provides an attribute for each of the program's inputs. */
  predicate Covered(mesh: Mesh, program: Program)
  {
    forall s :: 0 <= s < |mesh.submeshes| ==> Covers(mesh.submeshes[s].layout, program.vertexInputLayout)
  }

  /**
   * The model names a material for every submesh of the mesh, and each such
   * material's albedo texture is a loaded texture (not the failed-load sentinel).
   */
  predicate MaterialsReady(model: Model, mesh: Mesh, materials: seq<Material>, textures: seq<Texture>)
  {
    && |mesh.submeshes| <= |model.materialIdx|
    && forall s :: 0 <= s < |mesh.submeshes| ==>
      && model.materialIdx[s] < |materials|
      && materials[model.materialIdx[s]].albedoTextureIdx < |textures|
  }

  /**
   * Everything the mesh pass reads with `program` is in range: each entity
   * names a model, each model a mesh, each submesh a material whose albedo
   * texture is loaded, and each submesh can be bound for `program`.
   */
  predicate PassReady(entities: seq<Entity>, models: seq<Model>, meshes: seq<Mesh>, materials: seq<Material>,
                      textures: seq<Texture>, program: Program)
  {
    && Drawable(entities, models, meshes)
    && forall e :: 0 <= e < |entities| ==> EntityReady(entities, models, meshes, materials, textures, program, e)
  }

  /** What the mesh pass reads for entity `e` is in range. */
  predicate EntityReady(entities: seq<Entity>, models: seq<Model>, meshes: seq<Mesh>, materials: seq<Material>,
                        textures: seq<Texture>, program: Program, e: nat)
    requires Drawable(entities, models, meshes) && e < |entities|
  {
    && MaterialsReady(models[entities[e].modelIndex], meshes[MeshOf(entities, models, meshes, e)], materials, textures)
    && Covered(meshes[MeshOf(entities, models, meshes, e)], program)
  }

  /**
   * A pass ready on the shapes of the meshes is ready on the meshes, whatever
   * their caches hold: entity `e`'s mesh has its materials and can be bound.
   */
  lemma {:induction false} ReadyAt(entities: seq<Entity>, models: seq<Model>, meshes: seq<Mesh>, materials: seq<Material>,
                                   textures: seq<Texture>, program: Program, e: nat)
    requires PassReady(entities, models, Shapes(meshes), materials, textures, program) && e < |entities|
    ensures Drawable(entities, models, meshes)
    ensures var m := MeshOf(entities, models, meshes, e);
      MaterialsReady(models[entities[e].modelIndex], meshes[m], materials, textures) && Linkable(meshes[m], program)
  {
    assert EntityReady(entities, models, Shapes(meshes), materials, textures, program, e);
    var m := MeshOf(entities, models, meshes, e);
    var mesh := Shapes(meshes)[m];
    assert mesh == Stripped(meshes[m]);
    forall s | 0 <= s < |meshes[m].submeshes|
      ensures Covers(meshes[m].submeshes[s].layout, program.vertexInputLayout)
    {
      assert mesh.submeshes[s] == meshes[m].submeshes[s].(vaos := []);
    }
  }

  /** Binds `texs[k]` to texture unit `k`, for each `k` in order. */
  function BindUnits(texs: seq<nat>): seq<Cmd>
  {
    seq(|texs|, k requires 0 <= k < |texs| => BindTexture(k, texs[k]))
  }

  /**
   * The quad pass of the quad-drawing modes: binds `program` and the quad's
   * bind object `vao`, binds `texs[k]` to unit `k`, and draws the quad.
   */
  function QuadPass(program: nat, vao: nat, texs: seq<nat>): seq<Cmd>
  {
    [UseProgram(program), BindVertexArray(vao)] + BindUnits(texs) + [QuadDraw()]
  }

  /** The quad pass draws only the quad, and leaves `texs[k]` bound to unit `k`. */
  lemma {:induction false} QuadPassDraws(trace: seq<Cmd>, program: nat, vao: nat, texs: seq<nat>)
    ensures Draws(trace + QuadPass(program, vao, texs)) == Draws(trace) + [QuadDraw()]
    ensures Passes(trace + QuadPass(program, vao, texs)) == Passes(trace) + [QuadDraw()]
    ensures UnitsBound(trace + QuadPass(program, vao, texs), texs)
  {
    var binds := [UseProgram(program), BindVertexArray(vao)] + BindUnits(texs);
    var all := trace + QuadPass(program, vao, texs);
    assert all == (trace + binds) + [QuadDraw()];
    assert all[..|all| - 1] == trace + binds;
    NoPasses(binds);
    DrawsAppend(trace, binds);
    PassesAppend(trace, binds);
    QuadPassUnits(trace, program, vao, texs);
  }

  lemma {:induction false} QuadPassUnits(trace: seq<Cmd>, program: nat, vao: nat, texs: seq<nat>)
    ensures UnitsBound(trace + QuadPass(program, vao, texs), texs)
  {
    var all := trace + QuadPass(program, vao, texs);
    forall k | 0 <= k < |texs|
      ensures UnitTexture(all, k) == Some(texs[k])
    {
      assert all[|trace| + 2 + k] == BindTexture(k, texs[k]);
      LastBindWins(all, |trace| + 2 + k, k, texs[k]);
    }
  }
}
