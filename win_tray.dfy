/**
 * src/platform_impl/windows/mod.rs: the hidden window's procedure
 * `tray_proc`, which owns the `TrayUserData`, turns the shell's callback
 * messages into `TrayIconEvent`s and re-registers the icon; and the driver
 * `TrayIcon`, which talks to that window with `SendMessageW`.
 *
 * `Step` is the procedure as a function of the user data, the leave timer,
 * the message and what the OS answers (`GetCursorPos`,
 * `Shell_NotifyIconGetRect`); `TrayWindow.Proc` performs it in place.
 */
module WinTray {
  import opened TrayIconIds
  import opened TrayTypes
  import opened WinUtil
  import opened EventSinks
  import opened Attributes
  import opened Facade

  const WM_CREATE: u32 := 0x0001
  const WM_DESTROY: u32 := 0x0002
  const WM_TIMER: u32 := 0x0113
  const WM_MOUSEMOVE: u32 := 0x0200
  const WM_LBUTTONDOWN: u32 := 0x0201
  const WM_LBUTTONUP: u32 := 0x0202
  const WM_LBUTTONDBLCLK: u32 := 0x0203
  const WM_RBUTTONDOWN: u32 := 0x0204
  const WM_RBUTTONUP: u32 := 0x0205
  const WM_RBUTTONDBLCLK: u32 := 0x0206
  const WM_MBUTTONDOWN: u32 := 0x0207
  const WM_MBUTTONUP: u32 := 0x0208
  const WM_MBUTTONDBLCLK: u32 := 0x0209

  const WM_USER_TRAYICON: u32 := 6002
  const WM_USER_UPDATE_TRAYMENU: u32 := 6003
  const WM_USER_UPDATE_TRAYICON: u32 := 6004
  const WM_USER_SHOW_TRAYICON: u32 := 6005
  const WM_USER_HIDE_TRAYICON: u32 := 6006
  const WM_USER_UPDATE_TRAYTOOLTIP: u32 := 6007
  const WM_USER_LEAVE_TIMER_ID: u32 := 6008

  const NIF_MESSAGE: u32 := 0x1
  const NIF_ICON: u32 := 0x2
  const NIF_TIP: u32 := 0x4

  /** The length of `NOTIFYICONDATAW::szTip`, in UTF-16 units. */
  const TIP_UNITS: nat := 128

  /** A Win32 `POINT`. */
  datatype Point = Point(x: i32, y: i32)

  /** A Win32 `RECT`. */
  datatype Win32Rect = Win32Rect(left: i32, top: i32, right: i32, bottom: i32)

  /** `i32::saturating_sub`. */
  function SaturatingSub(a: i32, b: i32): (r: i32)
    ensures -0x8000_0000 <= a - b < 0x8000_0000 ==> r == a - b
    ensures a - b >= 0x8000_0000 ==> r == 0x7FFF_FFFF
    ensures a - b < -0x8000_0000 ==> r == -0x8000_0000
  {
    if a - b > 0x7FFF_FFFF then 0x7FFF_FFFF
    else if a - b < -0x8000_0000 then -0x8000_0000
    else a - b
  }

  /** One side of `From<RECT> for Rect`: `(high.saturating_sub(low)) as u32`. */
  function Extent(low: i32, high: i32): (n: u32)
    ensures low <= high < low + 0x8000_0000 ==> n == high - low
    ensures low + 0x8000_0000 <= high ==> n == 0x7FFF_FFFF
    ensures low - 0x8000_0000 <= high < low ==> n == 0x1_0000_0000 + (high - low)
    ensures high < low - 0x8000_0000 ==> n == 0x8000_0000
  {
    AsU32(SaturatingSub(high, low))
  }

  /**
   * `From<RECT> for Rect`: the top-left corner and the clamped extents; an
   * ordered rectangle keeps its width and height, an inverted one wraps to
   * a size near 2^32.
   */
  function FromRect(r: Win32Rect): (q: Rect)
    ensures q.position == Position(r.left as real, r.top as real)
    ensures q.width == Extent(r.left, r.right) && q.height == Extent(r.top, r.bottom)
  {
    Rect(Position(r.left as real, r.top as real), Extent(r.left, r.right), Extent(r.top, r.bottom))
  }

  /** `PhysicalPosition::new(cursor.x as f64, cursor.y as f64)`. */
  function CursorPosition(c: Point): Position
  {
    Position(c.x as real, c.y as real)
  }

  /** The half-open containment test of the leave timer: `left..right` and `top..bottom`. */
  predicate Contains(r: Win32Rect, c: Point)
  {
    r.left <= c.x < r.right && r.top <= c.y < r.bottom
  }

  /** What a `Box::into_raw` in `wparam` points to, for the messages that carry one. */
  datatype Payload =
    | NoPayload
    | MenuPayload(hmenu: Option<int>)
    | IconPayload(icon: Option<Icon>)
    | TooltipPayload(tooltip: Option<string>)

  datatype Message = Message(msg: u32, wparam: int, lparam: int, payload: Payload)

  /** The sender of an update message boxed the value of the type the procedure unboxes. */
  predicate WellFormed(m: Message)
  {
    && (m.msg == WM_USER_UPDATE_TRAYMENU ==> m.payload.MenuPayload?)
    && (m.msg == WM_USER_UPDATE_TRAYICON ==> m.payload.IconPayload?)
    && (m.msg == WM_USER_UPDATE_TRAYTOOLTIP ==> m.payload.TooltipPayload?)
  }

  /** The answers of `GetCursorPos` and `Shell_NotifyIconGetRect`; `None` when the call fails. */
  datatype OsReadings = OsReadings(cursor: Option<Point>, trayRect: Option<Win32Rect>)

  /** `TrayUserData` (the window handle is not modelled). */
  datatype UserData = UserData(
    internalId: nat,
    id: TrayIconId,
    hpopupmenu: Option<int>,
    icon: Option<Icon>,
    tooltip: Option<string>,
    entered: bool,
    lastPosition: Option<Position>,
    menuOnLeftClick: bool)

  /** The user data and whether the `WM_USER_LEAVE_TIMER_ID` timer is set. */
  datatype ProcState = ProcState(data: UserData, leaveTimer: bool)

  /** The `NOTIFYICONDATAW` fields the driver fills in (a null `hIcon` is 0). */
  datatype NotifyIconData = NotifyIconData(flags: u32, uid: nat, callbackMessage: u32, hicon: nat, tip: seq<u16>)

  /** The calls into the shell and the window manager that a step makes, in order. */
  datatype NativeCall =
    | NimAdd(nid: NotifyIconData)
    | NimModify(nid: NotifyIconData)
    | NimDelete(uid: nat)
    | SetLeaveTimer
    | KillLeaveTimer
    | ShowPopupMenu(hmenu: int, x: i32, y: i32)

  /** What the procedure returns: a value of its own, or whatever `DefWindowProcW` returns. */
  datatype LResult = Returned(v: int) | DefWindowProc

  /** A step's return value, the event it sends, and its native calls. */
  datatype Outcome = Outcome(result: LResult, event: Option<TrayIconEvent>, calls: seq<NativeCall>)

  datatype StepResult = StepResult(state: ProcState, out: Outcome)

  /** Whether bit `bit` is set in `flags`. */
  predicate HasFlag(flags: u32, bit: u32)
    requires bit > 0
  {
    (flags / bit) % 2 == 1
  }

  /** A `[u16; 128]` that starts zeroed and receives the first `min(len, 128)` units of `wide`. */
  function TipBuffer(wide: seq<u16>): (buf: seq<u16>)
    ensures |buf| == TIP_UNITS
  {
    seq(TIP_UNITS, i requires 0 <= i < TIP_UNITS => if i < |wide| then wide[i] else 0)
  }

  /** The `szTip` a tooltip yields: zeros when there is none, else its `encode_wide` copied in. */
  function TipOf(tooltip: Option<string>): (buf: seq<u16>)
    ensures |buf| == TIP_UNITS
  {
    match tooltip
    case None => TipBuffer([])
    case Some(t) => TipBuffer(EncodeWide(t))
  }

  /** The copy loop of `register_tray_icon` and `set_tooltip`, on the fixed-size buffer. */
  method CopyTip(wide: seq<u16>) returns (buf: seq<u16>)
    ensures buf == TipBuffer(wide)
  {
    var tip := new u16[TIP_UNITS](_ => 0);
    var n := if |wide| < TIP_UNITS then |wide| else TIP_UNITS;
    for i := 0 to n
      invariant forall j :: 0 <= j < TIP_UNITS ==> tip[j] == (if j < i then wide[j] else 0)
    {
      tip[i] := wide[i];
    }
    buf := tip[..];
  }

  /**
   * The `NOTIFYICONDATAW` of `register_tray_icon`: callback message
   * `WM_USER_TRAYICON` always, `NIF_ICON` and the handle exactly when there
   * is an icon, `NIF_TIP` and the copied tooltip exactly when there is one.
   */
  function RegisterData(internalId: nat, icon: Option<Icon>, tooltip: Option<string>): (nid: NotifyIconData)
    ensures nid.uid == internalId && nid.callbackMessage == WM_USER_TRAYICON
    ensures HasFlag(nid.flags, NIF_MESSAGE)
    ensures HasFlag(nid.flags, NIF_ICON) <==> icon.Some?
    ensures HasFlag(nid.flags, NIF_TIP) <==> tooltip.Some?
    ensures nid.hicon == (if icon.Some? then icon.value.handle else 0)
    ensures nid.tip == TipOf(tooltip)
  {
    var flags := NIF_MESSAGE + (if icon.Some? then NIF_ICON else 0) + (if tooltip.Some? then NIF_TIP else 0);
    NotifyIconData(flags, internalId, WM_USER_TRAYICON, if icon.Some? then icon.value.handle else 0, TipOf(tooltip))
  }

  /** `register_tray_icon` for the icon and tooltip the user data holds. */
  function Register(u: UserData): NativeCall
  {
    NimAdd(RegisterData(u.internalId, u.icon, u.tooltip))
  }

  /** The sub-messages in `lparam` that `tray_proc` turns into events. */
  predicate IsMouseSub(sub: u32)
  {
    sub in {WM_LBUTTONDOWN, WM_RBUTTONDOWN, WM_MBUTTONDOWN, WM_LBUTTONUP, WM_RBUTTONUP, WM_MBUTTONUP,
            WM_LBUTTONDBLCLK, WM_RBUTTONDBLCLK, WM_MBUTTONDBLCLK, WM_MOUSEMOVE}
  }

  /**
   * The event for a button sub-message: a press or release is a `Click` with
   * that button and state, a double click a `DoubleClick` with that button.
   */
  function ButtonEvent(sub: u32, id: TrayIconId, position: Position, rect: Rect): (e: TrayIconEvent)
    requires IsMouseSub(sub) && sub != WM_MOUSEMOVE
    ensures e.id == id && e.position == position && e.rect == rect
    ensures e.Click? || e.DoubleClick?
    ensures e.DoubleClick? <==> sub in {WM_LBUTTONDBLCLK, WM_RBUTTONDBLCLK, WM_MBUTTONDBLCLK}
    ensures e.button == Left <==> sub in {WM_LBUTTONDOWN, WM_LBUTTONUP, WM_LBUTTONDBLCLK}
    ensures e.button == Right <==> sub in {WM_RBUTTONDOWN, WM_RBUTTONUP, WM_RBUTTONDBLCLK}
    ensures e.button == Middle <==> sub in {WM_MBUTTONDOWN, WM_MBUTTONUP, WM_MBUTTONDBLCLK}
    ensures e.Click? ==> (e.buttonState == Down <==> sub in {WM_LBUTTONDOWN, WM_RBUTTONDOWN, WM_MBUTTONDOWN})
  {
    if sub == WM_LBUTTONDOWN then Click(id, position, rect, Left, Down)
    else if sub == WM_RBUTTONDOWN then Click(id, position, rect, Right, Down)
    else if sub == WM_MBUTTONDOWN then Click(id, position, rect, Middle, Down)
    else if sub == WM_LBUTTONUP then Click(id, position, rect, Left, Up)
    else if sub == WM_RBUTTONUP then Click(id, position, rect, Right, Up)
    else if sub == WM_MBUTTONUP then Click(id, position, rect, Middle, Up)
    else if sub == WM_LBUTTONDBLCLK then DoubleClick(id, position, rect, Left)
    else if sub == WM_RBUTTONDBLCLK then DoubleClick(id, position, rect, Right)
    else DoubleClick(id, position, rect, Middle)
  }

  /** The popup menu is wanted on a right press, and on a left press when `menu_on_left_click`. */
  predicate MenuTriggered(u: UserData, sub: u32)
  {
    sub == WM_RBUTTONDOWN || (u.menuOnLeftClick && sub == WM_LBUTTONDOWN)
  }

  /** `show_tray_menu` at the cursor, when the menu is wanted and there is one. */
  function PopupCalls(u: UserData, sub: u32, c: Point): seq<NativeCall>
  {
    if MenuTriggered(u, sub) && u.hpopupmenu.Some? then [ShowPopupMenu(u.hpopupmenu.value, c.x, c.y)] else []
  }

  function Done(s: ProcState, result: LResult): StepResult
  {
    StepResult(s, Outcome(result, None, []))
  }

  /** The `WM_USER_TRAYICON` arm, for a sub-message it handles. */
  function TrayMouse(s: ProcState, sub: u32, os: OsReadings): StepResult
    requires IsMouseSub(sub)
  {
    var u := s.data;
    match os.cursor
    case None => Done(s, Returned(0))
    case Some(c) =>
      match os.trayRect
      case None => Done(s, Returned(0))
      case Some(wr) =>
        var position := CursorPosition(c);
        var rect := FromRect(wr);
        if sub != WM_MOUSEMOVE then
          StepResult(s, Outcome(DefWindowProc, Some(ButtonEvent(sub, u.id, position, rect)), PopupCalls(u, sub, c)))
        else if !u.entered then
          StepResult(s.(data := u.(entered := true)), Outcome(DefWindowProc, Some(Enter(u.id, position, rect)), PopupCalls(u, sub, c)))
        else if u.lastPosition != Some(position) then
          StepResult(ProcState(u.(lastPosition := Some(position)), true),
                     Outcome(DefWindowProc, Some(Move(u.id, position, rect)), [SetLeaveTimer] + PopupCalls(u, sub, c)))
        else
          Done(s.(data := u.(lastPosition := Some(position))), Returned(0))
  }

  /** The `WM_TIMER` arm for the leave timer: takes the last position, then sends `Leave` when the cursor is outside the icon. */
  function LeaveTick(s: ProcState, os: OsReadings): StepResult
  {
    var u := s.data;
    match u.lastPosition
    case None => Done(s, Returned(0))
    case Some(position) =>
      var taken := s.(data := u.(lastPosition := None));
      match os.cursor
      case None => Done(taken, Returned(0))
      case Some(c) =>
        match os.trayRect
        case None => Done(taken, Returned(0))
        case Some(wr) =>
          if Contains(wr, c) then Done(taken, Returned(0))
          else StepResult(ProcState(taken.data.(entered := false), false),
                          Outcome(Returned(0), Some(Leave(u.id, position, FromRect(wr))), [KillLeaveTimer]))
  }

  /**
   * `tray_proc` once the user data is attached, arm by arm in the order of
   * the source; `restart` is the registered "TaskbarCreated" message.
   * `WM_DESTROY` frees the user data: the caller stops here.
   */
  function Step(s: ProcState, m: Message, os: OsReadings, restart: u32): StepResult
    requires WellFormed(m)
  {
    var u := s.data;
    var sub := AsU32(m.lparam);
    if m.msg == WM_CREATE then Done(s, DefWindowProc)
    else if m.msg == WM_DESTROY then Done(s, Returned(0))
    else if m.msg == WM_USER_UPDATE_TRAYMENU then Done(s.(data := u.(hpopupmenu := m.payload.hmenu)), DefWindowProc)
    else if m.msg == WM_USER_UPDATE_TRAYICON then Done(s.(data := u.(icon := m.payload.icon)), DefWindowProc)
    else if m.msg == WM_USER_SHOW_TRAYICON then StepResult(s, Outcome(DefWindowProc, None, [Register(u)]))
    else if m.msg == WM_USER_HIDE_TRAYICON then StepResult(s, Outcome(DefWindowProc, None, [NimDelete(u.internalId)]))
    else if m.msg == WM_USER_UPDATE_TRAYTOOLTIP then Done(s.(data := u.(tooltip := m.payload.tooltip)), DefWindowProc)
    else if m.msg == restart then StepResult(s, Outcome(DefWindowProc, None, [NimDelete(u.internalId), Register(u)]))
    else if m.msg == WM_USER_TRAYICON && IsMouseSub(sub) then TrayMouse(s, sub, os)
    else if m.msg == WM_TIMER && AsU32(m.wparam) == WM_USER_LEAVE_TIMER_ID then LeaveTick(s, os)
    else Done(s, DefWindowProc)
  }

  /**
   * The "TaskbarCreated" message number is none of the messages `tray_proc`
   * matches before it: `RegisterWindowMessageA` gives a value from 0xC000
   * up, or 0 when it fails, and both qualify.
   */
  predicate DistinctRestart(restart: u32)
  {
    && restart != WM_CREATE && restart != WM_DESTROY && restart != WM_USER_TRAYICON
    && restart != WM_USER_UPDATE_TRAYMENU && restart != WM_USER_UPDATE_TRAYICON
    && restart != WM_USER_SHOW_TRAYICON && restart != WM_USER_HIDE_TRAYICON
    && restart != WM_USER_UPDATE_TRAYTOOLTIP
  }

  /**
   * The hover state is consistent: outside the icon there is no remembered
   * position and no leave timer.
   */
  predicate HoverInvariant(s: ProcState)
  {
    !s.data.entered ==> s.data.lastPosition == None && !s.leaveTimer
  }

  /** Every step keeps the hover state consistent. */
  lemma StepPreservesHover(s: ProcState, m: Message, os: OsReadings, restart: u32)
    requires WellFormed(m) && HoverInvariant(s)
    ensures HoverInvariant(Step(s, m, os, restart).state)
  {
  }

  /**
   * `entered` changes only with an `Enter` (from outside) or a `Leave` (from
   * inside); the identity, the internal id and the left-click flag never change.
   */
  lemma StepEnteredFlag(s: ProcState, m: Message, os: OsReadings, restart: u32)
    requires WellFormed(m) && HoverInvariant(s)
    ensures var r := Step(s, m, os, restart);
      && r.state.data.id == s.data.id && r.state.data.internalId == s.data.internalId
      && r.state.data.menuOnLeftClick == s.data.menuOnLeftClick
      && (r.out.event.Some? && r.out.event.value.Enter? ==> !s.data.entered && r.state.data.entered)
      && (r.out.event.Some? && r.out.event.value.Leave? ==> s.data.entered && !r.state.data.entered)
      && (r.out.event.None? || !(r.out.event.value.Enter? || r.out.event.value.Leave?) ==> r.state.data.entered == s.data.entered)
  {
  }

  /** A leave-timer tick sends `Leave` exactly when a position was remembered, both OS queries succeed and the cursor is outside the icon. */
  lemma LeaveOnlyOutside(s: ProcState, m: Message, os: OsReadings, restart: u32)
    requires WellFormed(m) && m.msg == WM_TIMER && AsU32(m.wparam) == WM_USER_LEAVE_TIMER_ID && restart != WM_TIMER
    ensures var r := Step(s, m, os, restart);
      && r.out.result == Returned(0)
      && (r.out.event.Some? <==>
            s.data.lastPosition.Some? && os.cursor.Some? && os.trayRect.Some? && !Contains(os.trayRect.value, os.cursor.value))
      && (r.out.event.Some? ==> r.out.event.value == Leave(s.data.id, s.data.lastPosition.value, FromRect(os.trayRect.value))
                                && r.out.calls == [KillLeaveTimer] && !r.state.leaveTimer)
      && r.state.data.lastPosition == None
  {
  }

  /**
   * After an `Enter` nothing is remembered, so leave-timer ticks do nothing
   * at all: if the cursor goes away before a second move, no `Leave` follows.
   */
  lemma EnterAloneNeverLeaves(s: ProcState, m: Message, os: OsReadings, restart: u32)
    requires WellFormed(m) && m.msg == WM_TIMER && AsU32(m.wparam) == WM_USER_LEAVE_TIMER_ID && restart != WM_TIMER
    requires s.data.entered && s.data.lastPosition == None
    ensures Step(s, m, os, restart) == Done(s, Returned(0))
  {
  }

  /**
   * A move inside the icon at the remembered position changes nothing and
   * sends nothing; at any other position it remembers the position, sets
   * the leave timer and sends `Move`.
   */
  lemma MoveDeduplication(s: ProcState, m: Message, os: OsReadings, restart: u32)
    requires WellFormed(m) && m.msg == WM_USER_TRAYICON && restart != WM_USER_TRAYICON && AsU32(m.lparam) == WM_MOUSEMOVE
    requires s.data.entered && os.cursor.Some? && os.trayRect.Some?
    ensures var p := CursorPosition(os.cursor.value);
      var r := Step(s, m, os, restart);
      && (s.data.lastPosition == Some(p) ==> r == Done(s, Returned(0)))
      && (s.data.lastPosition != Some(p) ==>
            && r.state == ProcState(s.data.(lastPosition := Some(p)), true)
            && r.out == Outcome(DefWindowProc, Some(Move(s.data.id, p, FromRect(os.trayRect.value))), [SetLeaveTimer]))
  {
  }

  /** Button sub-messages send their `Click`/`DoubleClick` and leave the user data alone. */
  lemma ButtonMessages(s: ProcState, m: Message, os: OsReadings, restart: u32)
    requires WellFormed(m) && m.msg == WM_USER_TRAYICON && restart != WM_USER_TRAYICON
    requires IsMouseSub(AsU32(m.lparam)) && AsU32(m.lparam) != WM_MOUSEMOVE
    ensures var r := Step(s, m, os, restart);
      && r.state == s
      && (os.cursor.None? || os.trayRect.None? ==> r == Done(s, Returned(0)))
      && (os.cursor.Some? && os.trayRect.Some? ==>
            r.out.result == DefWindowProc
            && r.out.event == Some(ButtonEvent(AsU32(m.lparam), s.data.id, CursorPosition(os.cursor.value), FromRect(os.trayRect.value))))
  {
  }

  /** Whether a call list opens the popup menu. */
  predicate ShowsMenu(calls: seq<NativeCall>)
  {
    exists i :: 0 <= i < |calls| && calls[i].ShowPopupMenu?
  }

  /**
   * The popup menu opens exactly on a right press, or a left press with
   * `menu_on_left_click`, when there is a menu and both OS queries succeed;
   * it opens at the cursor with the menu's handle.
   */
  lemma MenuShownOnlyOnTrigger(s: ProcState, m: Message, os: OsReadings, restart: u32)
    requires WellFormed(m)
    requires DistinctRestart(restart)
    ensures var r := Step(s, m, os, restart);
      && (ShowsMenu(r.out.calls) <==>
            && m.msg == WM_USER_TRAYICON && MenuTriggered(s.data, AsU32(m.lparam))
            && s.data.hpopupmenu.Some? && os.cursor.Some? && os.trayRect.Some?)
      && (ShowsMenu(r.out.calls) ==>
            r.out.calls == [ShowPopupMenu(s.data.hpopupmenu.value, os.cursor.value.x, os.cursor.value.y)])
  {
    var r := Step(s, m, os, restart);
    if ShowsMenu(r.out.calls) {
      var i :| 0 <= i < |r.out.calls| && r.out.calls[i].ShowPopupMenu?;
    }
    if && m.msg == WM_USER_TRAYICON && MenuTriggered(s.data, AsU32(m.lparam))
       && s.data.hpopupmenu.Some? && os.cursor.Some? && os.trayRect.Some?
    {
      assert r.out.calls[0].ShowPopupMenu?;
    }
  }

  /**
   * The update messages replace exactly their own field; show registers the
   * icon with the current data, hide deletes it, and a taskbar restart does both.
   */
  lemma UpdateMessages(s: ProcState, m: Message, os: OsReadings, restart: u32)
    requires WellFormed(m) && DistinctRestart(restart)
    ensures var r := Step(s, m, os, restart);
      && (m.msg == WM_USER_UPDATE_TRAYMENU ==> r == Done(s.(data := s.data.(hpopupmenu := m.payload.hmenu)), DefWindowProc))
      && (m.msg == WM_USER_UPDATE_TRAYICON ==> r == Done(s.(data := s.data.(icon := m.payload.icon)), DefWindowProc))
      && (m.msg == WM_USER_UPDATE_TRAYTOOLTIP ==> r == Done(s.(data := s.data.(tooltip := m.payload.tooltip)), DefWindowProc))
      && (m.msg == WM_USER_SHOW_TRAYICON ==> r.state == s && r.out.calls == [Register(s.data)])
      && (m.msg == WM_USER_HIDE_TRAYICON ==> r.state == s && r.out.calls == [NimDelete(s.data.internalId)])
      && (m.msg == restart ==> r.state == s && r.out.calls == [NimDelete(s.data.internalId), Register(s.data)])
  {
  }

  /** No character of the string is NUL. */
  predicate NoNul(t: string)
  {
    forall i :: 0 <= i < |t| ==> t[i] != '\0'
  }

  /**
   * A tooltip of fewer than 128 UTF-16 units reaches `szTip` whole and
   * NUL-terminated: its first NUL is right after it, and the units before
   * it decode back to the tooltip.
   */
  lemma ShortTooltipTerminated(t: string)
    requires NoNul(t) && Utf16Length(t) < TIP_UNITS
    ensures TipOf(Some(t))[Utf16Length(t)] == 0
    ensures forall j :: 0 <= j < Utf16Length(t) ==> TipOf(Some(t))[j] != 0
    ensures DecodeUtf16(TipOf(Some(t))[..Utf16Length(t)]) == Some(t)
  {
    var w := EncodeWide(t);
    EncodeWideNoInnerZero(t);
    TerminatedCopy(w);
  }

  /** A NUL-terminated buffer that fits is copied into `szTip` unchanged, NUL included. */
  lemma TerminatedCopy(w: seq<u16>)
    requires 0 < |w| <= TIP_UNITS && w[|w| - 1] == 0
    requires forall j :: 0 <= j < |w| - 1 ==> w[j] != 0
    ensures TipBuffer(w)[|w| - 1] == 0
    ensures forall j :: 0 <= j < |w| - 1 ==> TipBuffer(w)[j] != 0
    ensures TipBuffer(w)[..|w| - 1] == w[..|w| - 1]
  {
  }

  /** A tooltip of 128 UTF-16 units or more fills `szTip` with no NUL at all. */
  lemma LongTooltipUnterminated(t: string)
    requires NoNul(t) && Utf16Length(t) >= TIP_UNITS
    ensures forall j :: 0 <= j < TIP_UNITS ==> TipOf(Some(t))[j] != 0
  {
    Utf16HasNoZero(t);
    forall j | 0 <= j < TIP_UNITS
      ensures TipOf(Some(t))[j] != 0
    {
      assert TipOf(Some(t))[j] == Utf16(t)[j];
    }
  }

  /** One message with the OS answers it meets. */
  datatype Input = Input(m: Message, os: OsReadings)

  /** Messages a live window can receive: well formed, and no `WM_DESTROY`. */
  predicate LiveInputs(ins: seq<Input>)
  {
    forall i :: 0 <= i < |ins| ==> WellFormed(ins[i].m) && ins[i].m.msg != WM_DESTROY
  }

  function EventsOf(e: Option<TrayIconEvent>): seq<TrayIconEvent>
  {
    if e.Some? then [e.value] else []
  }

  /** The state after a run of messages, and the events sent along the way. */
  function Run(s: ProcState, ins: seq<Input>, restart: u32): (ProcState, seq<TrayIconEvent>)
    requires LiveInputs(ins)
    decreases |ins|
  {
    if ins == [] then (s, [])
    else
      var r := Step(s, ins[0].m, ins[0].os, restart);
      var rest := Run(r.state, ins[1..], restart);
      (rest.0, EventsOf(r.out.event) + rest.1)
  }

  /** `Enter` and `Leave` alternate, starting from the given hover state. */
  predicate Alternates(evs: seq<TrayIconEvent>, entered: bool)
    decreases |evs|
  {
    if evs == [] then true
    else if evs[0].Enter? then !entered && Alternates(evs[1..], true)
    else if evs[0].Leave? then entered && Alternates(evs[1..], false)
    else Alternates(evs[1..], entered)
  }

  /** Along any run, `Enter` and `Leave` alternate: never two `Enter`s without a `Leave` between them, nor the reverse. */
  lemma {:induction false} RunAlternates(s: ProcState, ins: seq<Input>, restart: u32)
    requires LiveInputs(ins) && HoverInvariant(s)
    ensures Alternates(Run(s, ins, restart).1, s.data.entered)
    decreases |ins|
  {
    if ins != [] {
      var r := Step(s, ins[0].m, ins[0].os, restart);
      StepEnteredFlag(s, ins[0].m, ins[0].os, restart);
      StepPreservesHover(s, ins[0].m, ins[0].os, restart);
      assert LiveInputs(ins[1..]) by {
        forall i | 0 <= i < |ins[1..]|
          ensures WellFormed(ins[1..][i].m) && ins[1..][i].m.msg != WM_DESTROY
        {
          assert ins[1..][i] == ins[i + 1];
        }
      }
      RunAlternates(r.state, ins[1..], restart);
      var rest := Run(r.state, ins[1..], restart).1;
      if r.out.event.Some? {
        var evs := [r.out.event.value] + rest;
        assert evs[1..] == rest;
      } else {
        assert EventsOf(r.out.event) + rest == rest;
      }
    }
  }

  /** `n` copies of one input. */
  function Repeat(input: Input, n: nat): (ins: seq<Input>)
    ensures |ins| == n
  {
    seq(n, _ => input)
  }

  /** Repeating an input that changes nothing and sends nothing sends nothing. */
  lemma {:induction false} RepeatSilent(s: ProcState, input: Input, n: nat, restart: u32)
    requires WellFormed(input.m) && input.m.msg != WM_DESTROY
    requires Step(s, input.m, input.os, restart) == Done(s, Returned(0))
    ensures LiveInputs(Repeat(input, n))
    ensures Run(s, Repeat(input, n), restart) == (s, [])
    decreases n
  {
    if n > 0 {
      assert Repeat(input, n)[0] == input;
      assert Repeat(input, n)[1..] == Repeat(input, n - 1);
      RepeatSilent(s, input, n - 1, restart);
      assert EventsOf(None) + [] == [];
    }
  }

  /**
   * A cursor resting on the icon, reported again and again, sends `Enter`
   * and one `Move` at that position, then nothing more.
   */
  lemma {:induction false} RestingCursor(s: ProcState, m: Message, os: OsReadings, restart: u32, n: nat)
    requires HoverInvariant(s) && !s.data.entered
    requires m.msg == WM_USER_TRAYICON && AsU32(m.lparam) == WM_MOUSEMOVE && restart != WM_USER_TRAYICON
    requires os.cursor.Some? && os.trayRect.Some?
    requires n >= 2
    ensures LiveInputs(Repeat(Input(m, os), n))
    ensures var p := CursorPosition(os.cursor.value);
      var q := FromRect(os.trayRect.value);
      Run(s, Repeat(Input(m, os), n), restart).1 == [Enter(s.data.id, p, q), Move(s.data.id, p, q)]
  {
    var input := Input(m, os);
    var p := CursorPosition(os.cursor.value);
    var q := FromRect(os.trayRect.value);
    var s1 := Step(s, m, os, restart).state;
    var s2 := Step(s1, m, os, restart).state;
    assert s2.data.entered && s2.data.lastPosition == Some(p);
    RepeatSilent(s2, input, n - 2, restart);
    var ins := Repeat(input, n);
    assert ins[1..] == [input] + Repeat(input, n - 2);
    assert ins[1..][1..] == Repeat(input, n - 2);
    assert Run(s1, ins[1..], restart).1 == [Move(s.data.id, p, q)];
  }

  /** `register_tray_icon`'s buffer and flags, filled step by step. */
  method RegisterTrayIcon(internalId: nat, icon: Option<Icon>, tooltip: Option<string>) returns (nid: NotifyIconData)
    ensures nid == RegisterData(internalId, icon, tooltip)
  {
    var hicon := 0;
    var flags := NIF_MESSAGE;
    var tip := TipBuffer([]);
    if icon.Some? {
      flags := flags + NIF_ICON;
      hicon := icon.value.handle;
    }
    if tooltip.Some? {
      flags := flags + NIF_TIP;
      tip := CopyTip(EncodeWide(tooltip.value));
    }
    nid := NotifyIconData(flags, internalId, WM_USER_TRAYICON, hicon, tip);
  }

  /** The popup-menu handle of an optional menu. */
  function MenuHandle(menu: Option<Menu>): (h: Option<int>)
    ensures h.Some? <==> menu.Some?
    ensures menu.Some? ==> h.value == menu.value.hpopupmenu
  {
    if menu.Some? then Some(menu.value.hpopupmenu) else None
  }

  /** The `TrayUserData` that `TrayIcon::new` boxes: the attributes' menu, icon, tooltip and left-click flag, outside the icon. */
  function InitialState(internalId: nat, id: TrayIconId, attrs: TrayIconAttributes): (s: ProcState)
    ensures HoverInvariant(s) && !s.data.entered && !s.leaveTimer
    ensures s.data.internalId == internalId && s.data.id == id
    ensures s.data.hpopupmenu == MenuHandle(attrs.menu) && s.data.icon == attrs.icon && s.data.tooltip == attrs.tooltip
    ensures s.data.menuOnLeftClick == attrs.menuOnLeftClick
  {
    ProcState(UserData(internalId, id, MenuHandle(attrs.menu), attrs.icon, attrs.tooltip, false, None, attrs.menuOnLeftClick), false)
  }

  /** The hidden window: its `TrayUserData`, its leave timer, and the sink events go to. */
  class TrayWindow {
    const internalId: nat
    const id: TrayIconId
    const menuOnLeftClick: bool
    var hpopupmenu: Option<int>
    var icon: Option<Icon>
    var tooltip: Option<string>
    var entered: bool
    var lastPosition: Option<Position>
    /** Whether the window manager holds the `WM_USER_LEAVE_TIMER_ID` timer for this window. */
    var leaveTimer: bool
    /** Set by `WM_DESTROY`, which frees the user data. */
    var destroyed: bool
    /** The value `RegisterWindowMessageA("TaskbarCreated")` returned. */
    const restart: u32
    const sink: EventSink<TrayIconEvent>

    function State(): ProcState
      reads this
    {
      ProcState(UserData(internalId, id, hpopupmenu, icon, tooltip, entered, lastPosition, menuOnLeftClick), leaveTimer)
    }

    constructor (s: ProcState, restart: u32, sink: EventSink<TrayIconEvent>)
      ensures State() == s && !destroyed && this.restart == restart && this.sink == sink
    {
      internalId := s.data.internalId;
      id := s.data.id;
      menuOnLeftClick := s.data.menuOnLeftClick;
      hpopupmenu := s.data.hpopupmenu;
      icon := s.data.icon;
      tooltip := s.data.tooltip;
      entered := s.data.entered;
      lastPosition := s.data.lastPosition;
      leaveTimer := s.leaveTimer;
      destroyed := false;
      this.restart := restart;
      this.sink := sink;
    }

    /** `tray_proc` on a live window: does in place what `Step` describes, sending its event to the sink. */
    method Proc(m: Message, os: OsReadings) returns (result: LResult, calls: seq<NativeCall>)
      requires !destroyed && WellFormed(m)
      modifies this, sink
      ensures var r := Step(old(State()), m, os, restart);
        && State() == r.state && result == r.out.result && calls == r.out.calls
        && sink.State() == (if r.out.event.Some? then Sent(old(sink.State()), r.out.event.value) else old(sink.State()))
      ensures destroyed <==> m.msg == WM_DESTROY
    {
      calls := [];
      result := DefWindowProc;
      var sub := AsU32(m.lparam);
      if m.msg == WM_CREATE {
        return;
      }
      if m.msg == WM_DESTROY {
        destroyed := true;
        result := Returned(0);
        return;
      }
      if m.msg == WM_USER_UPDATE_TRAYMENU {
        hpopupmenu := m.payload.hmenu;
      } else if m.msg == WM_USER_UPDATE_TRAYICON {
        icon := m.payload.icon;
      } else if m.msg == WM_USER_SHOW_TRAYICON {
        var nid := RegisterTrayIcon(internalId, icon, tooltip);
        calls := [NimAdd(nid)];
      } else if m.msg == WM_USER_HIDE_TRAYICON {
        calls := [NimDelete(internalId)];
      } else if m.msg == WM_USER_UPDATE_TRAYTOOLTIP {
        tooltip := m.payload.tooltip;
      } else if m.msg == restart {
        var nid := RegisterTrayIcon(internalId, icon, tooltip);
        calls := [NimDelete(internalId), NimAdd(nid)];
      } else if m.msg == WM_USER_TRAYICON && IsMouseSub(sub) {
        if os.cursor.None? {
          result := Returned(0);
          return;
        }
        var cursor := os.cursor.value;
        var position := CursorPosition(cursor);
        if os.trayRect.None? {
          result := Returned(0);
          return;
        }
        var rect := FromRect(os.trayRect.value);
        var event: TrayIconEvent;
        if sub != WM_MOUSEMOVE {
          event := ButtonEvent(sub, id, position, rect);
        } else if !entered {
          entered := true;
          event := Enter(id, position, rect);
        } else {
          var moved := lastPosition != Some(position);
          lastPosition := Some(position);
          if moved {
            leaveTimer := true;
            calls := calls + [SetLeaveTimer];
            event := Move(id, position, rect);
          } else {
            result := Returned(0);
            return;
          }
        }
        sink.Send(event);
        if sub == WM_RBUTTONDOWN || (menuOnLeftClick && sub == WM_LBUTTONDOWN) {
          if hpopupmenu.Some? {
            calls := calls + [ShowPopupMenu(hpopupmenu.value, cursor.x, cursor.y)];
          }
        }
      } else if m.msg == WM_TIMER && AsU32(m.wparam) == WM_USER_LEAVE_TIMER_ID {
        result := Returned(0);
        var position := lastPosition;
        lastPosition := None;
        if position.Some? {
          if os.cursor.None? || os.trayRect.None? {
            return;
          }
          var wr := os.trayRect.value;
          if !Contains(wr, os.cursor.value) {
            calls := [KillLeaveTimer];
            leaveTimer := false;
            entered := false;
            sink.Send(Leave(id, position.value, FromRect(wr)));
          }
        }
      }
    }
  }

  /** The Windows driver `TrayIcon`: the hidden window, the tray id and the attached menu. */
  class WinTrayIcon {
    const window: TrayWindow
    const internalId: nat
    var menu: Option<Menu>

    /** The window is alive, belongs to this icon, and its hover state is consistent. */
    ghost predicate Valid()
      reads this, window
    {
      !window.destroyed && window.internalId == internalId && HoverInvariant(window.State())
    }

    constructor (window: TrayWindow, internalId: nat, menu: Option<Menu>)
      ensures this.window == window && this.internalId == internalId && this.menu == menu
    {
      this.window := window;
      this.internalId := internalId;
      this.menu := menu;
    }

    /**
     * `TrayIcon::new`: draws the internal id from the counter, creates the
     * window (`windowCreated`) and adds the icon (`added`); either failure is
     * an `OsError`.
     */
    static method New(counter: Counter, id: TrayIconId, attrs: TrayIconAttributes, restart: u32,
                      sink: EventSink<TrayIconEvent>, windowCreated: bool, added: bool)
      returns (r: Result<WinTrayIcon, Error>, calls: seq<NativeCall>)
      modifies counter
      ensures counter.current == old(counter.current) + 1
      ensures r.Ok? <==> windowCreated && added
      ensures r.Err? ==> r.error == OsError
      ensures calls == (if windowCreated then [NimAdd(RegisterData(old(counter.current), attrs.icon, attrs.tooltip))] else [])
      ensures r.Ok? ==> && fresh(r.value) && fresh(r.value.window) && r.value.Valid()
                        && r.value.internalId == old(counter.current) && r.value.menu == attrs.menu
                        && r.value.window.State() == InitialState(old(counter.current), id, attrs)
                        && r.value.window.sink == sink && r.value.window.restart == restart
    {
      var internalId := counter.Next();
      calls := [];
      if !windowCreated {
        r := Err(OsError);
        return;
      }
      var window := new TrayWindow(InitialState(internalId, id, attrs), restart, sink);
      var nid := RegisterTrayIcon(internalId, attrs.icon, attrs.tooltip);
      calls := [NimAdd(nid)];
      if !added {
        r := Err(OsError);
        return;
      }
      var icon := new WinTrayIcon(window, internalId, attrs.menu);
      r := Ok(icon);
    }

    /**
     * `set_icon`: `NIM_MODIFY` with `NIF_ICON` (a null handle removes the
     * image); on success the window stores the icon, on failure nothing changes.
     */
    method SetIcon(icon: Option<Icon>, modified: bool) returns (r: Result<(), Error>, calls: seq<NativeCall>)
      requires Valid()
      modifies window, window.sink
      ensures Valid()
      ensures calls == [NimModify(NotifyIconData(NIF_ICON, internalId, 0, if icon.Some? then icon.value.handle else 0, TipOf(None)))]
      ensures r.Ok? <==> modified
      ensures r.Err? ==> r.error == OsError
      ensures window.State() == if modified then old(window.State()).(data := old(window.State()).data.(icon := icon)) else old(window.State())
      ensures window.sink.State() == old(window.sink.State())
    {
      calls := [NimModify(NotifyIconData(NIF_ICON, internalId, 0, if icon.Some? then icon.value.handle else 0, TipBuffer([])))];
      if !modified {
        r := Err(OsError);
        return;
      }
      var _, _ := window.Proc(Message(WM_USER_UPDATE_TRAYICON, 0, 0, IconPayload(icon)), OsReadings(None, None));
      r := Ok(());
    }

    /** `set_menu`: the window switches to the new menu's popup handle (or none). */
    method SetMenu(menu: Option<Menu>)
      requires Valid()
      modifies this, window, window.sink
      ensures Valid() && this.menu == menu
      ensures window.State() == old(window.State()).(data := old(window.State()).data.(hpopupmenu := MenuHandle(menu)))
      ensures window.sink.State() == old(window.sink.State())
    {
      var _, _ := window.Proc(Message(WM_USER_UPDATE_TRAYMENU, 0, 0, MenuPayload(MenuHandle(menu))), OsReadings(None, None));
      this.menu := menu;
    }

    /**
     * `set_tooltip`: `NIM_MODIFY` with `NIF_TIP` and the copied tooltip (all
     * zeros for none); on success the window stores the tooltip.
     */
    method SetTooltip(tooltip: Option<string>, modified: bool) returns (r: Result<(), Error>, calls: seq<NativeCall>)
      requires Valid()
      modifies window, window.sink
      ensures Valid()
      ensures calls == [NimModify(NotifyIconData(NIF_TIP, internalId, 0, 0, TipOf(tooltip)))]
      ensures r.Ok? <==> modified
      ensures r.Err? ==> r.error == OsError
      ensures window.State() == if modified then old(window.State()).(data := old(window.State()).data.(tooltip := tooltip)) else old(window.State())
      ensures window.sink.State() == old(window.sink.State())
    {
      var tip := TipBuffer([]);
      if tooltip.Some? {
        tip := CopyTip(EncodeWide(tooltip.value));
      }
      calls := [NimModify(NotifyIconData(NIF_TIP, internalId, 0, 0, tip))];
      if !modified {
        r := Err(OsError);
        return;
      }
      var _, _ := window.Proc(Message(WM_USER_UPDATE_TRAYTOOLTIP, 0, 0, TooltipPayload(tooltip)), OsReadings(None, None));
      r := Ok(());
    }

    /** `set_title`: Windows tray icons have no title, so nothing happens. */
    method SetTitle(title: Option<string>)
    {
    }

    /**
     * `set_visible`: showing adds the icon again with the stored icon and
     * tooltip, hiding deletes it; it always reports success.
     */
    method SetVisible(visible: bool) returns (r: Result<(), Error>, calls: seq<NativeCall>)
      requires Valid()
      modifies window, window.sink
      ensures Valid() && r == Ok(())
      ensures visible ==> calls == [NimAdd(RegisterData(internalId, window.icon, window.tooltip))]
      ensures !visible ==> calls == [NimDelete(internalId)]
      ensures window.State() == old(window.State()) && window.sink.State() == old(window.sink.State())
    {
      var msg := if visible then WM_USER_SHOW_TRAYICON else WM_USER_HIDE_TRAYICON;
      var result;
      result, calls := window.Proc(Message(msg, 0, 0, NoPayload), OsReadings(None, None));
      r := Ok(());
    }

    /** `Drop`: deletes the icon, then destroys the window, which frees its user data. */
    method Drop() returns (calls: seq<NativeCall>)
      requires Valid()
      modifies window, window.sink
      ensures calls == [NimDelete(internalId)]
      ensures window.destroyed
      ensures window.sink.State() == old(window.sink.State())
    {
      calls := [NimDelete(internalId)];
      var _, _ := window.Proc(Message(WM_DESTROY, 0, 0, NoPayload), OsReadings(None, None));
    }
  }

  /** `rect`: `None` when `Shell_NotifyIconGetRect` fails, else the converted rectangle. */
  function TrayRect(reading: Option<Win32Rect>): (r: Option<Rect>)
    ensures r.Some? <==> reading.Some?
    ensures r.Some? ==> r.value == FromRect(reading.value)
  {
    if reading.Some? then Some(FromRect(reading.value)) else None
  }
}
