/**
 * src/platform_impl/windows/util.rs: `encode_wide` (UTF-16 plus a NUL),
 * the `hwnd_dpi` fallback decision and the precondition of
 * `get_function_impl`. Every OS call is replaced by its result.
 */
module WinUtil {
  import opened TrayTypes

  const BASE_DPI: u32 := 96
  const S_OK: int := 0

  /** Number of UTF-16 code units of `s`: two for a character above U+FFFF, one otherwise. */
  function Utf16Length(s: string): nat
  {
    if s == [] then 0 else (if s[0] as int >= 0x1_0000 then 2 else 1) + Utf16Length(s[1..])
  }

  /** The UTF-16 code units of one Unicode scalar value. */
  function CharUnits(c: char): (units: seq<u16>)
    ensures 1 <= |units| <= 2
  {
    var v := c as int;
    if v < 0x1_0000 then [v]
    else [0xD800 + (v - 0x1_0000) / 0x400, 0xDC00 + (v - 0x1_0000) % 0x400]
  }

  /** `OsStrExt::encode_wide` on a string: its UTF-16 encoding, in order. */
  function Utf16(s: string): (units: seq<u16>)
    ensures |units| == Utf16Length(s)
  {
    if s == [] then [] else CharUnits(s[0]) + Utf16(s[1..])
  }

  /** The independent reading of UTF-16: `None` on an unpaired surrogate. */
  function DecodeUtf16(units: seq<u16>): Option<string>
    decreases |units|
  {
    if units == [] then Some([])
    else
      var u: int := units[0];
      if 0xD800 <= u < 0xDC00 then
        if |units| >= 2 && 0xDC00 <= units[1] < 0xE000 then
          var low: int := units[1];
          var c := ((u - 0xD800) * 0x400 + (low - 0xDC00) + 0x1_0000) as char;
          match DecodeUtf16(units[2..])
          case None => None
          case Some(rest) => Some([c] + rest)
        else None
      else if 0xDC00 <= u < 0xE000 then None
      else
        match DecodeUtf16(units[1..])
        case None => None
        case Some(rest) => Some([u as char] + rest)
  }

  /** Decoding the units of one character followed by anything decodes that character first. */
  lemma DecodeCharUnits(c: char, rest: seq<u16>)
    ensures DecodeUtf16(CharUnits(c) + rest) ==
      match DecodeUtf16(rest) case None => None case Some(r) => Some([c] + r)
  {
    var units := CharUnits(c) + rest;
    var v := c as int;
    if v < 0x1_0000 {
      assert units[1..] == rest;
    } else {
      assert units[2..] == rest;
      var hi: int, lo: int := units[0], units[1];
      assert (hi - 0xD800) * 0x400 + (lo - 0xDC00) + 0x1_0000 == v;
    }
  }

  /** UTF-16 encoding is lossless: decoding it gives the string back. */
  lemma {:induction false} DecodeUtf16OfUtf16(s: string)
    ensures DecodeUtf16(Utf16(s)) == Some(s)
  {
    if s != [] {
      DecodeUtf16OfUtf16(s[1..]);
      DecodeCharUnits(s[0], Utf16(s[1..]));
      assert [s[0]] + s[1..] == s;
    }
  }

  /** Only the NUL character encodes to a 0 unit. */
  lemma {:induction false} Utf16HasNoZero(s: string)
    requires forall i :: 0 <= i < |s| ==> s[i] != '\0'
    ensures forall j :: 0 <= j < |Utf16(s)| ==> Utf16(s)[j] != 0
  {
    if s != [] {
      Utf16HasNoZero(s[1..]);
      var head, tail := CharUnits(s[0]), Utf16(s[1..]);
      assert Utf16(s) == head + tail;
      forall j | 0 <= j < |Utf16(s)|
        ensures Utf16(s)[j] != 0
      {
        if j >= |head| {
          assert Utf16(s)[j] == tail[j - |head|];
        }
      }
    }
  }

  /**
   * `encode_wide`: the UTF-16 units of `s` followed by one 0. The length is
   * one more than the unit count, and everything before the final 0 decodes
   * back to `s`.
   */
  function EncodeWide(s: string): (w: seq<u16>)
    ensures |w| == Utf16Length(s) + 1
    ensures w[|w| - 1] == 0
    ensures DecodeUtf16(w[..|w| - 1]) == Some(s)
  {
    DecodeUtf16OfUtf16(s);
    var w := Utf16(s) + [0];
    assert w[..|w| - 1] == Utf16(s);
    w
  }

  /** Only the final unit of `encode_wide` of a NUL-free string is 0. */
  lemma EncodeWideNoInnerZero(s: string)
    requires forall i :: 0 <= i < |s| ==> s[i] != '\0'
    ensures forall j :: 0 <= j < |EncodeWide(s)| - 1 ==> EncodeWide(s)[j] != 0
  {
    Utf16HasNoZero(s);
    assert EncodeWide(s) == Utf16(s) + [0];
  }

  /** The results of the OS calls `hwnd_dpi` makes (only one of its two branches reads each). */
  datatype DpiQueries = DpiQueries(
    hasGetDpiForMonitor: bool,  // shcore.dll exports GetDpiForMonitor
    monitor: int,               // MonitorFromWindow
    getDpiResult: int,          // HRESULT of GetDpiForMonitor
    dpiX: u32,                  // its horizontal DPI
    hdc: int,                   // GetDC
    isProcessDpiAware: int,     // IsProcessDPIAware (a BOOL)
    deviceCaps: i32)            // GetDeviceCaps(hdc, LOGPIXELSX)

  /**
   * `hwnd_dpi`: a DPI other than 96 is reported only when an OS query
   * produced it, and which query is read depends on GetDpiForMonitor
   * being available.
   */
  function HwndDpi(q: DpiQueries): (dpi: u32)
    ensures dpi == BASE_DPI
      || (q.hasGetDpiForMonitor && q.monitor != 0 && q.getDpiResult == S_OK && dpi == q.dpiX)
      || (!q.hasGetDpiForMonitor && q.hdc != 0 && q.isProcessDpiAware == 1 && dpi == AsU32(q.deviceCaps))
  {
    if q.hasGetDpiForMonitor then
      if q.monitor == 0 then BASE_DPI
      else if q.getDpiResult == S_OK then q.dpiX
      else BASE_DPI
    else
      if q.hdc == 0 then BASE_DPI
      else if q.isProcessDpiAware == 1 then AsU32(q.deviceCaps)
      else BASE_DPI
  }

  /** The decision table of `hwnd_dpi`, case by case. */
  lemma HwndDpiCases(q: DpiQueries)
    ensures q.hasGetDpiForMonitor && q.monitor == 0 ==> HwndDpi(q) == BASE_DPI
    ensures q.hasGetDpiForMonitor && q.getDpiResult != S_OK ==> HwndDpi(q) == BASE_DPI
    ensures q.hasGetDpiForMonitor && q.monitor != 0 && q.getDpiResult == S_OK ==> HwndDpi(q) == q.dpiX
    ensures !q.hasGetDpiForMonitor && q.hdc == 0 ==> HwndDpi(q) == BASE_DPI
    ensures !q.hasGetDpiForMonitor && q.hdc != 0 && q.isProcessDpiAware == 1 ==> HwndDpi(q) == AsU32(q.deviceCaps)
    ensures !q.hasGetDpiForMonitor && q.isProcessDpiAware != 1 ==> HwndDpi(q) == BASE_DPI
  {
  }

  /**
   * `get_function_impl`: the function name must end in NUL (it is asserted);
   * `None` when `LoadLibraryW` returns 0, else what `GetProcAddress` returns.
   */
  function GetFunctionImpl(library: string, name: string, hmodule: int, procAddress: Option<nat>): (r: Option<nat>)
    requires |name| > 0 && name[|name| - 1] == '\0'
    ensures hmodule == 0 ==> r == None
    ensures hmodule != 0 ==> r == procAddress
  {
    if hmodule == 0 then None else procAddress
  }

  /** The `get_function!` macro appends the NUL, so it always meets that precondition. */
  function GetFunction(library: string, name: string, hmodule: int, procAddress: Option<nat>): (r: Option<nat>)
    ensures hmodule == 0 ==> r == None
    ensures hmodule != 0 ==> r == procAddress
  {
    GetFunctionImpl(library, name + "\0", hmodule, procAddress)
  }
}
