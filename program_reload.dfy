/**
 * Hot reload of the program registry: every program whose source file is now
 * newer than when it was built is deleted and rebuilt from the file, and takes
 * the new handle and the new timestamp; nothing else about it changes (in
 * particular its recorded vertex inputs are not read again).  New handles are
 * handed out in registry order, starting from `base`.
 */
module ProgramReload {
  import opened EngineTypes
  import opened ShaderProgram
  import opened Device

  /** A program is rebuilt when its file's timestamp is strictly newer than the one recorded. */
  predicate Stale(p: Program, timestamp: nat)
  {
    timestamp > p.lastWriteTimestamp
  }

  /** Every program's name fits the define buffer its sources are assembled with. */
  predicate NamesFit(programs: seq<Program>)
  {
    forall i :: 0 <= i < |programs| ==> NameFits(programs[i].programName)
  }

  /** Every program handle is below `base`, so handles from `base` on are new. */
  predicate HandlesBelow(programs: seq<Program>, base: nat)
  {
    forall i :: 0 <= i < |programs| ==> programs[i].handle < base
  }

  /** How many of the first `k` programs are rebuilt. */
  function ReloadCount(programs: seq<Program>, timestamps: seq<nat>, k: nat): (r: nat)
    requires |timestamps| == |programs| && k <= |programs|
    ensures r <= k
  {
    if k == 0 then 0
    else ReloadCount(programs, timestamps, k - 1) + (if Stale(programs[k - 1], timestamps[k - 1]) then 1 else 0)
  }

  /** The registry after a reload whose new handles start at `base`. */
  function Reloaded(programs: seq<Program>, timestamps: seq<nat>, base: nat): (r: seq<Program>)
    requires |timestamps| == |programs|
    ensures |r| == |programs|
  {
    seq(|programs|, i requires 0 <= i < |programs| =>
      if Stale(programs[i], timestamps[i])
      then programs[i].(handle := base + ReloadCount(programs, timestamps, i), lastWriteTimestamp := timestamps[i])
      else programs[i])
  }

  /** The device calls that rebuild program `p` from `source` under the new `handle`: delete, compile, unbind. */
  function RebuildTrace(p: Program, source: string, handle: nat): seq<Cmd>
    requires NameFits(p.programName)
  {
    [DeleteProgram(p.handle),
     CompileProgram(handle, StageSource(source, p.programName, Vertex), StageSource(source, p.programName, Fragment)),
     UseProgram(0)]
  }

  /** The device calls of a reload of the first `k` programs: delete, rebuild from `sources`, unbind. */
  function ReloadTrace(programs: seq<Program>, timestamps: seq<nat>, sources: seq<string>, base: nat, k: nat): seq<Cmd>
    requires |timestamps| == |programs| && |sources| == |programs| && k <= |programs|
    requires NamesFit(programs)
  {
    if k == 0 then []
    else
      var p := programs[k - 1];
      ReloadTrace(programs, timestamps, sources, base, k - 1)
      + (if Stale(p, timestamps[k - 1])
         then RebuildTrace(p, sources[k - 1], base + ReloadCount(programs, timestamps, k - 1))
         else [])
  }

  /** The count only grows, and grows by one past every rebuilt program. */
  lemma {:induction false} ReloadCountGrows(programs: seq<Program>, timestamps: seq<nat>, i: nat, j: nat)
    requires |timestamps| == |programs| && i <= j <= |programs|
    ensures ReloadCount(programs, timestamps, i) <= ReloadCount(programs, timestamps, j)
    ensures i < j && Stale(programs[i], timestamps[i])
        ==> ReloadCount(programs, timestamps, i) + 1 <= ReloadCount(programs, timestamps, j)
    decreases j
  {
    if i < j {
      ReloadCountGrows(programs, timestamps, i, j - 1);
    }
  }

  /**
   * A reload keeps the registry's size and order and every program's name,
   * file and vertex inputs; a program's timestamp becomes the later of the
   * recorded and the current one; and, when every old handle is below
   * `base`, a program's handle changes exactly when its file is newer.
   */
  lemma {:induction false} ReloadKeepsIdentity(programs: seq<Program>, timestamps: seq<nat>, base: nat, i: nat)
    requires |timestamps| == |programs| && i < |programs|
    ensures var r := Reloaded(programs, timestamps, base);
      && |r| == |programs|
      && r[i].programName == programs[i].programName
      && r[i].filepath == programs[i].filepath
      && r[i].vertexInputLayout == programs[i].vertexInputLayout
      && r[i].lastWriteTimestamp == (if timestamps[i] > programs[i].lastWriteTimestamp then timestamps[i] else programs[i].lastWriteTimestamp)
      && (HandlesBelow(programs, base) ==> (r[i].handle != programs[i].handle <==> Stale(programs[i], timestamps[i])))
  {
  }

  /**
   * The handles a reload hands out are new, distinct from each other, and
   * all below `base` plus the number of programs rebuilt.
   */
  lemma {:induction false} ReloadHandlesFresh(programs: seq<Program>, timestamps: seq<nat>, base: nat, i: nat, j: nat)
    requires |timestamps| == |programs| && i < j < |programs|
    requires Stale(programs[i], timestamps[i]) && Stale(programs[j], timestamps[j])
    ensures var r := Reloaded(programs, timestamps, base);
      && base <= r[i].handle < r[j].handle < base + ReloadCount(programs, timestamps, |programs|)
  {
    ReloadCountGrows(programs, timestamps, i, j);
    ReloadCountGrows(programs, timestamps, j, |programs|);
  }

  /** After a reload no program is older than its file. */
  lemma {:induction false} ReloadedUpToDate(programs: seq<Program>, timestamps: seq<nat>, base: nat, i: nat)
    requires |timestamps| == |programs| && i < |programs|
    ensures !Stale(Reloaded(programs, timestamps, base)[i], timestamps[i])
  {
  }

  /** With no program stale, a reload rebuilds none. */
  lemma {:induction false} NothingStale(programs: seq<Program>, timestamps: seq<nat>, k: nat)
    requires |timestamps| == |programs| && k <= |programs|
    requires forall i :: 0 <= i < |programs| ==> !Stale(programs[i], timestamps[i])
    ensures ReloadCount(programs, timestamps, k) == 0
    decreases k
  {
    if k > 0 {
      NothingStale(programs, timestamps, k - 1);
    }
  }

  /**
   * Reloading again against the same file timestamps rebuilds nothing and
   * leaves the registry as the first reload left it.
   */
  lemma {:induction false} ReloadIdempotent(programs: seq<Program>, timestamps: seq<nat>, base: nat, laterBase: nat)
    requires |timestamps| == |programs|
    ensures var r := Reloaded(programs, timestamps, base);
      && ReloadCount(r, timestamps, |r|) == 0
      && Reloaded(r, timestamps, laterBase) == r
  {
    var r := Reloaded(programs, timestamps, base);
    forall i | 0 <= i < |r|
      ensures !Stale(r[i], timestamps[i])
    {
      ReloadedUpToDate(programs, timestamps, base, i);
    }
    NothingStale(r, timestamps, |r|);
  }
}
