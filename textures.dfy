/**
 * Texture bookkeeping: the upload format chosen from an image's channel count,
 * and the texture list used as a cache keyed by file path.
 */
module Textures {
  import opened Wrappers
  import opened EngineTypes

  datatype InternalFormat = RGB8 | RGBA8
  datatype DataFormat = RGB | RGBA

  /**
   * How an image is uploaded.  `supported` is false when the channel count is
   * neither 3 nor 4: an error is logged and the texture is still created with
   * the RGB defaults.
   */
  datatype UploadFormat = UploadFormat(internalFormat: InternalFormat, dataFormat: DataFormat, supported: bool)

  function InternalChannels(f: InternalFormat): nat
  {
    match f
    case RGB8 => 3
    case RGBA8 => 4
  }

  function DataChannels(f: DataFormat): nat
  {
    match f
    case RGB => 3
    case RGBA => 4
  }

  /**
   * Three- and four-channel images are uploaded in a format with exactly their
   * channel count; any other count is flagged and falls back to RGB.  The
   * internal and the data format always agree.
   */
  function FormatFor(nchannels: int): (r: UploadFormat)
    ensures r.supported <==> nchannels == 3 || nchannels == 4
    ensures r.supported ==> InternalChannels(r.internalFormat) == nchannels
    ensures !r.supported ==> r.internalFormat == RGB8 && r.dataFormat == RGB
    ensures InternalChannels(r.internalFormat) == DataChannels(r.dataFormat)
  {
    match nchannels
    case 3 => UploadFormat(RGB8, RGB, true)
    case 4 => UploadFormat(RGBA8, RGBA, true)
    case _ => UploadFormat(RGB8, RGB, false)
  }

  /** Position of the first texture loaded from `path`, if there is one. */
  function FirstTextureFor(textures: seq<Texture>, path: string): (r: Option<nat>)
    ensures r.Some? ==> r.value < |textures| && textures[r.value].filepath == path
    ensures r.Some? ==> forall k :: 0 <= k < r.value ==> textures[k].filepath != path
    ensures r.None? <==> forall k :: 0 <= k < |textures| ==> textures[k].filepath != path
    decreases |textures|
  {
    if textures == [] then None
    else if textures[0].filepath == path then Some(0)
    else match FirstTextureFor(textures[1..], path)
      case None => None
      case Some(k) => Some(k + 1)
  }

  /**
   * Loading `path` given the decodable files `images`: a path already loaded
   * gives its index back; a new path that decodes appends a texture with
   * `freshHandle`; a new path that does not decode gives the sentinel.
   */
  function LoadResult(textures: seq<Texture>, path: string, images: map<string, Image>, freshHandle: nat): (nat, seq<Texture>)
  {
    match FirstTextureFor(textures, path)
    case Some(k) => (k, textures)
    case None =>
      if path in images then (|textures|, textures + [Texture(freshHandle, path)])
      else (UINT32_MAX, textures)
  }

  predicate DistinctPaths(textures: seq<Texture>)
  {
    forall i, j :: 0 <= i < j < |textures| ==> textures[i].filepath != textures[j].filepath
  }

  /**
   * While indices stay below the sentinel, a load keeps the textures already
   * there, adds at most one, and keeps file paths distinct; it fails exactly
   * when the path is neither loaded nor decodable, and otherwise names a
   * texture loaded from that path.
   */
  lemma {:induction false} LoadKeepsCache(textures: seq<Texture>, path: string, images: map<string, Image>, freshHandle: nat)
    requires DistinctPaths(textures) && |textures| < UINT32_MAX
    ensures var (idx, out) := LoadResult(textures, path, images, freshHandle);
      && textures <= out
      && |out| <= |textures| + 1
      && DistinctPaths(out)
      && (idx == UINT32_MAX <==> FirstTextureFor(textures, path).None? && path !in images)
      && (idx != UINT32_MAX ==> idx < |out| && out[idx].filepath == path)
  {
    var (idx, out) := LoadResult(textures, path, images, freshHandle);
    if FirstTextureFor(textures, path).None? && path in images {
      assert forall k :: 0 <= k < |textures| ==> out[k] == textures[k];
      assert out[|textures|].filepath == path;
    }
  }

  /**
   * Loading the same path again gives the same index and changes nothing,
   * whether the first load found, added or failed.
   */
  lemma {:induction false} LoadIdempotent(textures: seq<Texture>, path: string, images: map<string, Image>, freshHandle: nat, laterFreshHandle: nat)
    requires DistinctPaths(textures) && |textures| < UINT32_MAX
    ensures var (idx, out) := LoadResult(textures, path, images, freshHandle);
      LoadResult(out, path, images, laterFreshHandle) == (idx, out)
  {
    var (idx, out) := LoadResult(textures, path, images, freshHandle);
    LoadKeepsCache(textures, path, images, freshHandle);
    if FirstTextureFor(textures, path).None? && path in images {
      assert FirstTextureFor(out, path) == Some(|textures|) by {
        assert forall k :: 0 <= k < |textures| ==> out[k] == textures[k];
      }
    }
  }
}
