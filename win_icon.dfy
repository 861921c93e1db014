/**
 * src/platform_impl/windows/icon.rs: the RGBA-to-BGRA conversion with its
 * AND mask, the null-handle check after `CreateIcon`/`LoadImageW`, the
 * default load size, and the `Arc`-shared `RaiiIcon` that destroys the
 * handle when the last `WinIcon` clone goes away.
 */
module WinIcons {
  import opened TrayTypes

  const PIXEL_SIZE: nat := 4
  const IMAGE_ICON: int := 1
  const LR_LOADFROMFILE: int := 0x10
  const LR_DEFAULTSIZE: int := 0x40

  /** `BadIcon::OsError` (the wrapped `io::Error` is not modelled). */
  datatype BadIcon = BadIconOsError

  /** `Pixel { r, g, b, a }`. */
  datatype Pixel = Pixel(r: u8, g: u8, b: u8, a: u8)

  /** `Pixel::convert_to_bgra`: swaps red and blue. */
  function ConvertToBgra(p: Pixel): (q: Pixel)
    ensures q.g == p.g && q.a == p.a
  {
    Pixel(p.b, p.g, p.r, p.a)
  }

  /** Converting a pixel twice gives it back. */
  lemma ConvertToBgraInvolution(p: Pixel)
    ensures ConvertToBgra(ConvertToBgra(p)) == p
  {
  }

  /** `a.wrapping_sub(u8::MAX)`. */
  function AndMaskByte(alpha: u8): u8
  {
    (alpha - 255) % 256
  }

  /** The AND-mask byte is the alpha plus one, wrapping: opaque 255 gives 0, transparent 0 gives 1. */
  lemma AndMaskByteIsAlphaPlusOne(alpha: u8)
    ensures AndMaskByte(alpha) == (alpha + 1) % 256
    ensures alpha == 255 <==> AndMaskByte(alpha) == 0
  {
  }

  /** The pixel stored at index `k` of an RGBA byte buffer. */
  function PixelAt(s: seq<u8>, k: nat): Pixel
    requires PIXEL_SIZE * k + 3 < |s|
  {
    Pixel(s[4 * k], s[4 * k + 1], s[4 * k + 2], s[4 * k + 3])
  }

  /**
   * The buffer after every whole pixel has been converted: in pixel `k`, the
   * bytes at `4k` and `4k + 2` exchange places; bytes past the last whole
   * pixel keep their value.
   */
  function BgraBytes(s: seq<u8>): (t: seq<u8>)
    ensures |t| == |s|
  {
    seq(|s|, i requires 0 <= i < |s| =>
      if i < |s| / 4 * 4 && i % 4 == 0 then s[i + 2]
      else if i < |s| / 4 * 4 && i % 4 == 2 then s[i - 2]
      else s[i])
  }

  /** The AND mask: one byte per whole pixel, from that pixel's alpha. */
  function AndMask(s: seq<u8>): (m: seq<u8>)
    ensures |m| == |s| / 4
  {
    seq(|s| / 4, k requires 0 <= k < |s| / 4 => AndMaskByte(s[4 * k + 3]))
  }

  /** Each whole pixel of the converted buffer is `convert_to_bgra` of the original pixel. */
  lemma BgraBytesPixel(s: seq<u8>, k: nat)
    requires k < |s| / 4
    ensures PixelAt(BgraBytes(s), k) == ConvertToBgra(PixelAt(s, k))
  {
    var t := BgraBytes(s);
    assert 4 * k + 3 < |s| / 4 * 4;
    assert t[4 * k] == s[4 * k + 2];
    assert t[4 * k + 2] == s[4 * k];
  }

  /** Converting twice gives the original buffer back. */
  lemma BgraBytesInvolution(s: seq<u8>)
    ensures BgraBytes(BgraBytes(s)) == s
  {
    var t := BgraBytes(BgraBytes(s));
    forall i | 0 <= i < |s|
      ensures t[i] == s[i]
    {
    }
  }

  /** Bytes past the last whole pixel are never modified. */
  lemma BgraBytesTail(s: seq<u8>)
    ensures BgraBytes(s)[|s| / 4 * 4..] == s[|s| / 4 * 4..]
  {
  }

  /**
   * `RgbaIcon::into_windows_icon`: walks the whole pixels of the buffer in
   * place, pushing each pixel's AND-mask byte and swapping its red and blue
   * bytes; then `CreateIcon` (whose result is the parameter `created`) either
   * fails with a null handle or yields a fresh shared icon on that handle.
   */
  method IntoWindowsIcon(rgba: array<u8>, created: int) returns (andMask: seq<u8>, r: Result<WinIcon, BadIcon>)
    modifies rgba
    ensures rgba[..] == BgraBytes(old(rgba[..]))
    ensures andMask == AndMask(old(rgba[..]))
    ensures r.Err? <==> created == 0
    ensures r.Ok? ==> (fresh(r.value.inner) && r.value.inner.handle == created && r.value.inner.Valid()
                       && r.value.inner.strongCount == 1 && r.value.inner.destroyCalls == 0)
  {
    ghost var original := rgba[..];
    var pixelCount := rgba.Length / PIXEL_SIZE;
    andMask := [];
    var k := 0;
    while k < pixelCount
      invariant 0 <= k <= pixelCount
      invariant andMask == AndMask(original)[..k]
      invariant forall i :: 0 <= i < 4 * k ==> rgba[i] == BgraBytes(original)[i]
      invariant forall i :: 4 * k <= i < rgba.Length ==> rgba[i] == original[i]
    {
      andMask := andMask + [AndMaskByte(rgba[4 * k + 3])];
      rgba[4 * k], rgba[4 * k + 2] := rgba[4 * k + 2], rgba[4 * k];
      k := k + 1;
    }
    assert rgba[..] == BgraBytes(original);
    if created != 0 {
      var w := FromHandle(created);
      r := Ok(w);
    } else {
      r := Err(BadIconOsError);
    }
  }

  /** `RaiiIcon`: owns an `HICON`; its `Drop` calls `DestroyIcon`. */
  class RaiiIcon {
    const handle: int
    /** The `Arc` strong count: how many `WinIcon` clones share this icon. */
    var strongCount: nat
    /** How many times `DestroyIcon` has been called on `handle`. */
    var destroyCalls: nat

    /** The handle is destroyed once, and exactly when no clone is left. */
    ghost predicate Valid()
      reads this
    {
      destroyCalls == (if strongCount == 0 then 1 else 0)
    }

    constructor (handle: int)
      ensures this.handle == handle && strongCount == 1 && destroyCalls == 0 && Valid()
    {
      this.handle := handle;
      strongCount := 1;
      destroyCalls := 0;
    }
  }

  /** `WinIcon { inner: Arc<RaiiIcon> }`: a clone shares `inner`. */
  datatype WinIcon = WinIcon(inner: RaiiIcon)

  /** `WinIcon::as_raw_handle`: every clone yields the same handle. */
  function AsRawHandle(w: WinIcon): int
  {
    w.inner.handle
  }

  /** `WinIcon::from_handle`. */
  method FromHandle(handle: int) returns (w: WinIcon)
    ensures fresh(w.inner) && w.inner.handle == handle && w.inner.strongCount == 1 && w.inner.destroyCalls == 0
    ensures w.inner.Valid()
  {
    var raii := new RaiiIcon(handle);
    w := WinIcon(raii);
  }

  /** `Clone` for `WinIcon`: one more holder of the same `RaiiIcon`. */
  method CloneIcon(w: WinIcon) returns (c: WinIcon)
    requires w.inner.Valid() && w.inner.strongCount > 0
    modifies w.inner
    ensures c.inner == w.inner && AsRawHandle(c) == AsRawHandle(w)
    ensures w.inner.strongCount == old(w.inner.strongCount) + 1
    ensures w.inner.destroyCalls == old(w.inner.destroyCalls) && w.inner.Valid()
  {
    w.inner.strongCount := w.inner.strongCount + 1;
    c := WinIcon(w.inner);
  }

  /** Dropping a `WinIcon`: the last one out runs `RaiiIcon::drop`. */
  method DropIcon(w: WinIcon)
    requires w.inner.Valid() && w.inner.strongCount > 0
    modifies w.inner
    ensures w.inner.strongCount == old(w.inner.strongCount) - 1
    ensures w.inner.destroyCalls == (if w.inner.strongCount == 0 then 1 else 0)
    ensures w.inner.Valid()
  {
    w.inner.strongCount := w.inner.strongCount - 1;
    if w.inner.strongCount == 0 {
      w.inner.destroyCalls := w.inner.destroyCalls + 1;
    }
  }

  /** An operation on the clones of one `WinIcon`. */
  datatype ArcOp = CloneOp | DropOp

  /** Holders left after `ops`, starting from `live`; `None` if an operation needs a holder and there is none. */
  function LiveAfter(live: nat, ops: seq<ArcOp>): Option<nat>
    decreases |ops|
  {
    if ops == [] then Some(live)
    else if live == 0 then None
    else LiveAfter(if ops[0] == CloneOp then live + 1 else live - 1, ops[1..])
  }

  /** `DestroyIcon` calls made by `ops`: one for each drop of the last holder. */
  function DestroysDuring(live: nat, ops: seq<ArcOp>): nat
    decreases |ops|
  {
    if ops == [] || live == 0 then 0
    else
      var here := if ops[0] == DropOp && live == 1 then 1 else 0;
      here + DestroysDuring(if ops[0] == CloneOp then live + 1 else live - 1, ops[1..])
  }

  /**
   * Along any sequence of clones and drops that real holders can perform,
   * the handle is destroyed at most once, and exactly when no holder remains.
   */
  lemma {:induction false} DestroyedOnceWhenLastDropped(live: nat, ops: seq<ArcOp>)
    requires live > 0 && LiveAfter(live, ops).Some?
    ensures DestroysDuring(live, ops) == (if LiveAfter(live, ops).value == 0 then 1 else 0)
    decreases |ops|
  {
    if ops != [] {
      var next := if ops[0] == CloneOp then live + 1 else live - 1;
      if next > 0 {
        DestroyedOnceWhenLastDropped(next, ops[1..]);
      }
    }
  }

  /** The `(width, height)` handed to `LoadImageW`: 0 by 0 (with `LR_DEFAULTSIZE`, the system size) when none is given. */
  function LoadSize(size: Option<(u32, u32)>): (wh: (u32, u32))
    ensures size.None? ==> wh == (0, 0)
    ensures size.Some? ==> wh == size.value
  {
    size.GetOr((0, 0))
  }

  /** The arguments of the `LoadImageW` call made by `from_path` or `from_resource_inner_name`. */
  datatype LoadImageCall = LoadImageCall(fromInstance: bool, name: seq<u16>, imageType: int, width: i32, height: i32, flags: int)

  /** `u32 as i32`. */
  function AsI32(v: u32): i32
  {
    if v < 0x8000_0000 then v else v - 0x1_0000_0000
  }

  /** The null check after `LoadImageW`/`CreateIcon`: `Err(OsError)` for 0, else the handle. */
  function CheckHandle(handle: int): (r: Result<int, BadIcon>)
    ensures r.Ok? <==> handle != 0
    ensures r.Ok? ==> r.value == handle
  {
    if handle != 0 then Ok(handle) else Err(BadIconOsError)
  }

  /**
   * `WinIcon::from_path`: loads the file `widePath` (already `encode_wide`d)
   * at the requested or default size; `loaded` is the handle `LoadImageW` returns.
   */
  method FromPath(widePath: seq<u16>, size: Option<(u32, u32)>, loaded: int) returns (call: LoadImageCall, r: Result<WinIcon, BadIcon>)
    ensures call == LoadImageCall(false, widePath, IMAGE_ICON, AsI32(LoadSize(size).0), AsI32(LoadSize(size).1), LR_DEFAULTSIZE + LR_LOADFROMFILE)
    ensures size.None? ==> call.width == 0 && call.height == 0
    ensures r.Err? <==> loaded == 0
    ensures r.Ok? ==> fresh(r.value.inner) && r.value.inner.handle == loaded && r.value.inner.strongCount == 1
  {
    var (width, height) := LoadSize(size);
    call := LoadImageCall(false, widePath, IMAGE_ICON, AsI32(width), AsI32(height), LR_DEFAULTSIZE + LR_LOADFROMFILE);
    match CheckHandle(loaded) {
      case Ok(h) =>
        var w := FromHandle(h);
        r := Ok(w);
      case Err(e) => r := Err(e);
    }
  }

  /** `WinIcon::from_resource_inner_name`: the same with the module's own resources and without `LR_LOADFROMFILE`. */
  method FromResourceInnerName(name: seq<u16>, size: Option<(u32, u32)>, loaded: int) returns (call: LoadImageCall, r: Result<WinIcon, BadIcon>)
    ensures call == LoadImageCall(true, name, IMAGE_ICON, AsI32(LoadSize(size).0), AsI32(LoadSize(size).1), LR_DEFAULTSIZE)
    ensures size.None? ==> call.width == 0 && call.height == 0
    ensures r.Err? <==> loaded == 0
    ensures r.Ok? ==> fresh(r.value.inner) && r.value.inner.handle == loaded && r.value.inner.strongCount == 1
  {
    var (width, height) := LoadSize(size);
    call := LoadImageCall(true, name, IMAGE_ICON, AsI32(width), AsI32(height), LR_DEFAULTSIZE);
    match CheckHandle(loaded) {
      case Ok(h) =>
        var w := FromHandle(h);
        r := Ok(w);
      case Err(e) => r := Err(e);
    }
  }
}
