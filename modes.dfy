/**
 * The display mode and the keys that switch it.  The mode enumerators keep
 * their declaration order; the second one, `Count`, is not a count of the
 * others and no key selects it.
 */
module Modes {

  datatype Mode = TexturedQuad | Count | MeshMode | Framebuffer | Albedo | Normal | Position | Depth

  /** The value of each enumerator: its position in the declaration. */
  function ModeValue(m: Mode): (r: nat)
    ensures r < 8
    ensures r == 1 <==> m == Count
  {
    match m
    case TexturedQuad => 0
    case Count => 1
    case MeshMode => 2
    case Framebuffer => 3
    case Albedo => 4
    case Normal => 5
    case Position => 6
    case Depth => 7
  }

  /** The eight enumerators have eight distinct values. */
  lemma {:induction false} ModeValuesDistinct(a: Mode, b: Mode)
    ensures ModeValue(a) == ModeValue(b) <==> a == b
  {
  }

  /** The keys the frame update looks at. */
  datatype Key = Escape | K1 | K2 | K3 | K4 | K5

  /** Switching to a mode always leaves the application in that mode. */
  function ModeAfterChange(current: Mode, requested: Mode): (r: Mode)
    ensures r == requested
  {
    if current != requested then requested else current
  }

  /**
   * The mode the pressed keys select, by priority: the highest-numbered key
   * held wins; with no mode key held the mode stays as it is.
   */
  function SelectedMode(keys: set<Key>, current: Mode): Mode
  {
    if K5 in keys then Depth
    else if K4 in keys then Normal
    else if K3 in keys then Framebuffer
    else if K2 in keys then MeshMode
    else if K1 in keys then TexturedQuad
    else current
  }

  /**
   * No key reaches `Count`, `Albedo` or `Position`: those are kept only if
   * already current; with no mode key held the mode is kept.
   */
  lemma {:induction false} KeysReach(keys: set<Key>, current: Mode)
    ensures var m := SelectedMode(keys, current);
      (m == Count || m == Albedo || m == Position) ==> m == current
    ensures (K1 !in keys && K2 !in keys && K3 !in keys && K4 !in keys && K5 !in keys)
        ==> SelectedMode(keys, current) == current
  {
  }
}
