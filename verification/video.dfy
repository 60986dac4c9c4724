/** The two helpers of the video widget (`ui/widgets/video_widget_impl.rs`)
  * that do not touch the media pipeline: turning a source into a URI the
  * pipeline accepts, and making a placeholder image whose pixels are unique
  * to one widget. */
module Video {
  import opened Common
  import opened Framing

  predicate IsUri(src: string) {
    StartsWith(src, "http://") || StartsWith(src, "https://") || StartsWith(src, "file://")
  }

  /** `normalize_uri`: URLs pass through; anything else is taken as a file
    * path, made absolute when the file system can (`canonicalize`, which may
    * fail), written with forward slashes, stripped of a Windows `//?/`
    * verbatim prefix and of leading slashes, and prefixed with `file:///`. */
  function NormalizeUri(src: string, canonicalize: string -> Option<string>): (r: string)
    ensures IsUri(src) ==> r == src
    ensures !IsUri(src) ==> StartsWith(r, "file:///") && '\\' !in r
    ensures !IsUri(src) ==> |r| == 8 || r[8] != '/'
  {
    if IsUri(src) then src
    else
      var absPath := canonicalize(src).GetOr(src);
      var slashed := ReplaceChar(absPath, '\\', "/");
      ReplaceCharPointwise(absPath, '\\', '/');
      var unprefixed := StripPrefix(slashed, "//?/").GetOr(slashed);
      var path := TrimStartChar(unprefixed, '/');
      TrimStartKeepsFree(unprefixed, '/', '\\');
      StripKeepsFree(slashed, "//?/", '\\');
      var r := "file:///" + path;
      assert r[..8] == "file:///" && r[8..] == path;
      r
  }

  lemma {:induction false} TrimStartKeepsFree(s: string, c: char, d: char)
    requires d !in s
    ensures d !in TrimStartChar(s, c)
    decreases |s|
  {
    if s != [] && s[0] == c {
      TrimStartKeepsFree(s[1..], c, d);
    }
  }

  lemma StripKeepsFree(s: string, prefix: string, d: char)
    requires d !in s
    ensures d !in StripPrefix(s, prefix).GetOr(s)
  {
    if StartsWith(s, prefix) {
      assert forall i :: 0 <= i < |s| - |prefix| ==> s[|prefix|..][i] == s[|prefix| + i];
    }
  }

  /** Normalising is idempotent: what it returns is always a URI. */
  lemma NormalizeIdempotent(src: string, canonicalize: string -> Option<string>)
    ensures NormalizeUri(NormalizeUri(src, canonicalize), canonicalize) == NormalizeUri(src, canonicalize)
  {
    var r := NormalizeUri(src, canonicalize);
    if !IsUri(src) {
      assert r[..7] == "file://";
      assert IsUri(r);
    }
  }

  /** A POSIX absolute path, once made canonical, keeps its slashes: the URI
    * is `file://` followed by the path. */
  lemma PosixPathUri(src: string, path: string, canonicalize: string -> Option<string>)
    requires !IsUri(src)
    requires canonicalize(src) == Some("/" + path)
    requires '\\' !in path && (path == [] || path[0] != '/') && !StartsWith(path, "/?/")
    ensures NormalizeUri(src, canonicalize) == "file:///" + path
  {
    var slashed := ReplaceChar("/" + path, '\\', "/");
    ReplaceCharConcat("/", path, '\\', "/");
    ReplaceCharAbsent("/", '\\', "/");
    ReplaceCharAbsent(path, '\\', "/");
    assert slashed == "/" + path;
    assert TrimStartChar(slashed, '/') == TrimStartChar(path, '/');
  }

  /** A canonical Windows path in verbatim form, `\\?\C:\dir\file`, becomes
    * `file:///C:/dir/file`. */
  lemma VerbatimWindowsPathUri(src: string, path: string, canonicalize: string -> Option<string>)
    requires !IsUri(src)
    requires canonicalize(src) == Some("\\\\?\\" + path)
    requires path != [] && path[0] != '/' && path[0] != '\\'
    ensures NormalizeUri(src, canonicalize) == "file:///" + ReplaceChar(path, '\\', "/")
  {
    var slashed := ReplaceChar("\\\\?\\" + path, '\\', "/");
    ReplaceCharConcat("\\\\?\\", path, '\\', "/");
    assert ReplaceChar("\\\\?\\", '\\', "/") == "//?/" by {
      ReplaceCharPointwise("\\\\?\\", '\\', '/');
    }
    assert slashed == "//?/" + ReplaceChar(path, '\\', "/");
    assert slashed[..4] == "//?/" && slashed[4..] == ReplaceChar(path, '\\', "/");
  }

  // ----- Overlay keys -----

  /** The placeholder image: 8-bit RGBA pixels with straight alpha. */
  datatype OverlayImage = OverlayImage(data: seq<Byte>, width: nat, height: nat)

  /** The pixels `create_unique_overlay_key` makes for widget number `id`:
    * all zero, except the first four bytes, which hold the id cut to 32
    * bits, little-endian, when there is room for them. */
  function OverlayPixels(id: nat, width: nat, height: nat): (r: seq<Byte>)
    ensures |r| == width * height * 4
    ensures forall i :: 4 <= i < |r| ==> r[i] == 0
    ensures |r| >= 4 ==> r[..4] == LeBytes(id % LengthLimit)
    ensures |r| < 4 ==> r == []
    ensures |r| >= 4 <==> width > 0 && height > 0
  {
    assert width > 0 && height > 0 ==> width * height >= 1 by {
      if width > 0 && height > 0 {
        assert width * height >= width * 1;
      }
    }
    var len := width * height * 4;
    if len >= 4 then LeBytes(id % LengthLimit) + seq(len - 4, _ => 0) else []
  }

  /** Two widgets whose numbers differ below 2^32 get different pixels,
    * whenever the image has any pixel at all. */
  lemma OverlayKeysDistinct(id1: nat, id2: nat, width: nat, height: nat)
    requires id1 % LengthLimit != id2 % LengthLimit
    requires width > 0 && height > 0
    ensures OverlayPixels(id1, width, height) != OverlayPixels(id2, width, height)
  {
    var p1, p2 := OverlayPixels(id1, width, height), OverlayPixels(id2, width, height);
    LeRoundTrip(id1 % LengthLimit);
    LeRoundTrip(id2 % LengthLimit);
    assert p1[..4] != p2[..4];
  }

  /** The process-wide widget counter, which starts at 1. */
  class OverlayCounter {
    var next: nat

    constructor ()
      ensures next == 1
    {
      next := 1;
    }

    /** `create_unique_overlay_key`: takes the next number, builds the
      * zeroed buffer in place and writes the number's bytes at its start. */
    method CreateUniqueOverlayKey(width: nat, height: nat) returns (key: OverlayImage)
      requires width < LengthLimit && height < LengthLimit
      modifies this
      ensures next == old(next) + 1
      ensures key == OverlayImage(OverlayPixels(old(next), width, height), width, height)
    {
      var id := next;
      next := next + 1;
      var len := width * height * 4;
      var buf := new Byte[len](_ => 0);
      if len >= 4 {
        var le := LeBytes(id % LengthLimit);
        buf[0], buf[1], buf[2], buf[3] := le[0], le[1], le[2], le[3];
      }
      key := OverlayImage(buf[..], width, height);
      assert key.data == OverlayPixels(id, width, height);
    }
  }
}
