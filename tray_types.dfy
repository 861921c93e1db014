/**
 * Value types shared by every platform driver: the failure wrappers, the
 * crate's `Error` enum (src/error.rs), fixed-width integers, the geometry
 * and the `TrayIconEvent` model, and opaque stand-ins for icons and menus.
 */
module TrayTypes {
  import opened TrayIconIds

  datatype Option<+T> = None | Some(value: T) {
    /** `unwrap_or`. */
    function GetOr(default: T): T
    {
      if Some? then value else default
    }
  }

  datatype Result<+T, +E> = Ok(value: T) | Err(error: E)

  type u8 = x: int | 0 <= x < 0x100
  type u16 = x: int | 0 <= x < 0x1_0000
  type u32 = x: int | 0 <= x < 0x1_0000_0000
  type i32 = x: int | -0x8000_0000 <= x < 0x8000_0000

  /** `v as u32` in Rust: keep the low 32 bits (Euclidean `%` gives the two's-complement reading). */
  function AsU32(v: int): (r: u32)
    ensures r == v <==> 0 <= v < 0x1_0000_0000
  {
    v % 0x1_0000_0000
  }

  /** `crate::Error`. The wrapped `std::io::Error` and `png::EncodingError` payloads are not modelled. */
  datatype Error = OsError | PngEncodingError | NotMainThread

  /** `PhysicalPosition<f64>`, read as exact reals. */
  datatype Position = Position(x: real, y: real)

  /** `Rect`: a top-left position and a `PhysicalSize<u32>`. */
  datatype Rect = Rect(position: Position, width: u32, height: u32)

  datatype MouseButton = Left | Right | Middle

  datatype MouseButtonState = Up | Down

  /** The unified event every driver emits. */
  datatype TrayIconEvent =
    | Click(id: TrayIconId, position: Position, rect: Rect, button: MouseButton, buttonState: MouseButtonState)
    | DoubleClick(id: TrayIconId, position: Position, rect: Rect, button: MouseButton)
    | Enter(id: TrayIconId, position: Position, rect: Rect)
    | Move(id: TrayIconId, position: Position, rect: Rect)
    | Leave(id: TrayIconId, position: Position, rect: Rect)

  /**
   * `crate::icon::Icon`, opaque: `handle` is what `as_raw_handle` yields on
   * Windows; the other platforms only pass the icon through.
   */
  datatype Icon = Icon(handle: nat)

  /**
   * A `menu::ContextMenu` as the drivers see it: its Win32 popup-menu handle
   * (`hpopupmenu`) and the item count its `NSMenu` reports (`numberOfItems`).
   */
  datatype Menu = Menu(key: nat, hpopupmenu: int, itemCount: nat)

  /** A `PathBuf`, as its list of components; `join` appends one component. */
  type Path = seq<string>
}
