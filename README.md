# tray-icon, modelled in Dafny

This project models the core of the `tray-icon` Rust crate. The crate puts an
icon in the desktop notification area on Windows, macOS and Linux (GTK
AppIndicator), keeps that icon in step with its attributes (icon, tooltip,
title, menu, visibility), and turns native mouse input into one
cross-platform `TrayIconEvent` stream.

The modules follow the crate's files:

| file | module | models |
|---|---|---|
| `tray_icon_id.dfy` | `TrayIconIds` | `TrayIconId`, the string newtype, with its constructors and equalities |
| `tray_types.dfy` | `TrayTypes` | shared values: `Option`/`Result`, fixed-width integers, `Error`, geometry, `TrayIconEvent`, opaque icons and menus |
| `lib_attributes.dfy` | `Attributes` | `TrayIconAttributes`, its `Default`, and the by-value `TrayIconBuilder` |
| `lib_events.dfy` | `EventSinks` | the once-settable handler slot and the FIFO channel behind `send` |
| `lib_tray_icon.dfy` | `Facade` | `TrayIcon::new`/`id` over the process-wide counter |
| `win_util.dfy` | `WinUtil` | `encode_wide` (UTF-16 plus NUL, with a decoder), `hwnd_dpi`, `get_function_impl` |
| `win_icon.dfy` | `WinIcons` | RGBA-to-BGRA conversion with the AND mask, icon loading, and the `Arc`-shared `HICON` |
| `win_tray.dfy` | `WinTray` | the hidden window's `tray_proc` as a step function and as a class, plus the Windows driver |
| `mac_tray.dfy` | `MacTray` | the macOS driver's handles, attribute mirroring, click routing and coordinate flip |
| `gtk_tray.dfy` | `GtkTray` | the GTK driver's icon-file naming and indicator state |

Every OS or FFI call is replaced by its answer, passed in as a parameter.
These answers are:
- the cursor position and the icon rectangle;
- whether `Shell_NotifyIconW`, `CreateWindowExW` or `CreateIcon` succeeded;
- whether the PNG encoding succeeded;
- whether a main-thread marker exists;
- the environment directories;
- whether `create_dir_all` succeeded.

The calls a step makes into the shell are returned as a list of `NativeCall`
values. On Windows, the driver's `SendMessageW` is a direct call of the
window's `Proc` method.

Some behaviour of the crate worth knowing before reading the model:
- The GTK driver keeps no per-instance revision counter. The icon path depends
  only on the directory and the id, so setting icon A and then icon B reuses
  one file rather than leaving two (`GtkTray.SetIconTwice`).
- On Windows, a cursor resting on the icon and reported repeatedly produces
  `Enter` followed by one `Move`, not a single event
  (`WinTray.RestingCursor`). The first move only sets `entered`; the second
  finds no remembered position.
- `src/lib.rs` names its event type `TrayEvent` while the drivers build
  `TrayIconEvent`s. The sink is modelled generically over the event type.
- `TrayIcon::new` in `src/lib.rs` draws its id from `COUNTER`, and the
  Windows driver draws its internal id from the same counter again.

## Model

| member | source | states |
|---|---|---|
| TrayIconIds.New | src/tray_icon_id.rs:10-12 | the id wraps exactly the given string |
| TrayIconIds.AsRef | src/tray_icon_id.rs:15-19 | `as_ref` returns the wrapped string: wrapping it again gives the same id |
| TrayIconIds.Default | src/tray_icon_id.rs:4-5 | the default id wraps the empty string |
| TrayIconIds.FromStr | src/tray_icon_id.rs:27-33 | parsing never fails and gives `new(s)` |
| TrayIconIds.EqStr | src/tray_icon_id.rs:35-63 | definition of the id-to-string comparisons; their meaning is stated by `EqStrIffNew` |
| TrayIconIds.EqId | src/tray_icon_id.rs:65-69 | definition of the id-to-id comparisons; their meaning is stated by `EqIdIsEquality` |
| TrayIconIds.EqStrIffNew | src/tray_icon_id.rs:35-63 | comparing an id with a string is true exactly when the id is `new` of that string |
| TrayIconIds.EqIdIsEquality | src/tray_icon_id.rs:65-69 | id-to-id comparison, by value or by reference, is equality of the wrapped strings, so it is reflexive and symmetric |
| TrayIconIds.IsEqTest | src/tray_icon_id.rs:71-85 | the assertions of the `is_eq` test hold |
| TrayTypes.AsU32 | src/platform_impl/windows/mod.rs:331 | `as u32` is the identity exactly on values already in range |
| Attributes.DefaultAttributes | src/lib.rs:160-172 | every optional field is `None`, the icon is not a template, the menu opens on left click |
| Attributes.NewBuilder | src/lib.rs:182-186 | a new builder holds the default attributes |
| Attributes.WithMenu | src/lib.rs:193-196 | sets the menu and leaves every other field unchanged |
| Attributes.WithIcon | src/lib.rs:204-207 | sets the icon and leaves every other field unchanged |
| Attributes.WithTooltip | src/lib.rs:214-217 | sets the tooltip and leaves every other field unchanged |
| Attributes.WithTitle | src/lib.rs:229-232 | sets the title and leaves every other field unchanged |
| Attributes.WithTempDirPath | src/lib.rs:238-241 | sets the staging directory and leaves every other field unchanged |
| Attributes.WithIconAsTemplate | src/lib.rs:244-247 | sets the template flag and leaves every other field unchanged |
| Attributes.WithMenuOnLeftClick | src/lib.rs:250-253 | sets the left-click flag and leaves every other field unchanged |
| Attributes.WithTitleOverwrites | src/lib.rs:229-232 | a later `with_title` replaces an earlier one |
| Attributes.SettersCommute | src/lib.rs:180-253 | setters of different fields can be applied in either order |
| EventSinks.Registered | src/lib.rs:408-414 | registering fills an unset slot and is ignored once the slot holds anything; the channel and deliveries are untouched |
| EventSinks.Sent | src/lib.rs:417-423 | `send` fixes an unset slot to `None`, then hands the event to a present handler or appends it to the channel |
| EventSinks.Received | src/lib.rs:388 | receiving takes the oldest queued event, or nothing from an empty channel |
| EventSinks.SentAllToChannel | src/lib.rs:417-423 | with no handler, a run of sends appends exactly those events, in order, to the channel |
| EventSinks.SentAllToHandler | src/lib.rs:417-423 | with a handler, a run of sends delivers every event to it, in order, and leaves the channel alone |
| EventSinks.DrainedIsChannel | src/lib.rs:388 | draining the channel yields the queued events in the order they were sent |
| EventSinks.EarlySendLocksChannel | src/lib.rs:408-423 | a send before any registration locks out later handlers, so every event goes to the channel |
| EventSinks.FirstRegistrationWins | src/lib.rs:408-414 | a second registration changes nothing |
| EventSinks.EventSink.constructor | src/lib.rs:388-389 | the sink starts with no handler and an empty channel |
| EventSinks.EventSink.SetEventHandler | src/lib.rs:408-414 | updates the sink as `Registered` describes |
| EventSinks.EventSink.Send | src/lib.rs:417-423 | updates the sink as `Sent` describes |
| EventSinks.EventSink.TryRecv | src/lib.rs:388 | returns and removes what `Received` describes |
| Facade.Counter.Next | src/lib.rs:112 | returns the current count and advances it by one |
| Facade.TrayIcon.New | src/lib.rs:274-280 | the id is drawn even when the driver fails; the icon exists exactly when the driver does, with the drawn id |
| Facade.TrayIcon.Id | src/lib.rs:283-285 | returns the id drawn at creation |
| Facade.NewTwice | src/lib.rs:274-285 | two builds use up two ids whether or not they succeed; each succeeds exactly when its driver does; two successful icons have strictly increasing ids |
| WinUtil.CharUnits | src/platform_impl/windows/util.rs:23-27 | one UTF-16 unit below U+10000, a surrogate pair above |
| WinUtil.Utf16 | src/platform_impl/windows/util.rs:23-27 | the encoding has the string's UTF-16 length |
| WinUtil.DecodeCharUnits | src/platform_impl/windows/util.rs:23-27 | decoding a character's units gives the character back, then continues with the rest |
| WinUtil.DecodeUtf16OfUtf16 | src/platform_impl/windows/util.rs:23-27 | decoding the UTF-16 of a string gives the string back |
| WinUtil.Utf16HasNoZero | src/platform_impl/windows/util.rs:23-27 | a string without NUL encodes to units without 0 |
| WinUtil.EncodeWide | src/platform_impl/windows/util.rs:23-27 | `encode_wide` has the UTF-16 length plus one, ends in 0, and everything before the 0 decodes to the string |
| WinUtil.EncodeWideNoInnerZero | src/platform_impl/windows/util.rs:23-27 | for a string without NUL, the final unit of `encode_wide` is its only 0 |
| WinUtil.HwndDpi | src/platform_impl/windows/util.rs:114-148 | the DPI is 96, the monitor's DPI, or the device caps value |
| WinUtil.HwndDpiCases | src/platform_impl/windows/util.rs:114-148 | which of these each branch of the decision tree returns, on both the `GetDpiForMonitor` path and the fallback path |
| WinUtil.GetFunctionImpl | src/platform_impl/windows/util.rs:75-86 | demands a NUL-terminated name; nothing when the library does not load, else the address lookup |
| WinUtil.GetFunction | src/platform_impl/windows/util.rs:88-96 | the macro adds the NUL, so any name may be given, with the same results |
| WinIcons.ConvertToBgra | src/platform_impl/windows/icon.rs:21-23 | green and alpha are kept |
| WinIcons.ConvertToBgraInvolution | src/platform_impl/windows/icon.rs:21-23 | converting twice gives the pixel back |
| WinIcons.AndMaskByte | src/platform_impl/windows/icon.rs:34 | definition of `alpha.wrapping_sub(u8::MAX)`; its meaning is stated by `AndMaskByteIsAlphaPlusOne` |
| WinIcons.AndMaskByteIsAlphaPlusOne | src/platform_impl/windows/icon.rs:34 | the mask byte is alpha plus one modulo 256; it is 0 exactly for opaque pixels |
| WinIcons.BgraBytes | src/platform_impl/windows/icon.rs:29-36 | conversion keeps the buffer length |
| WinIcons.AndMask | src/platform_impl/windows/icon.rs:29-37 | the mask has one byte per whole pixel |
| WinIcons.BgraBytesPixel | src/platform_impl/windows/icon.rs:33-36 | each whole pixel of the converted buffer is `convert_to_bgra` of the original pixel |
| WinIcons.BgraBytesInvolution | src/platform_impl/windows/icon.rs:29-36 | converting the buffer twice restores it |
| WinIcons.BgraBytesTail | src/platform_impl/windows/icon.rs:28-36 | bytes past the last whole pixel are untouched |
| WinIcons.IntoWindowsIcon | src/platform_impl/windows/icon.rs:27-55 | the loop leaves the buffer converted and builds the mask; a null `CreateIcon` result is an `OsError`, any other handle a fresh icon owning it |
| WinIcons.FromHandle | src/platform_impl/windows/icon.rs:79-84 | a fresh shared icon with one holder that owns the handle |
| WinIcons.CloneIcon | src/platform_impl/windows/icon.rs:62-66 | a clone shares the icon and its handle and adds one holder |
| WinIcons.DropIcon | src/platform_impl/windows/icon.rs:148-152 | dropping a holder destroys the handle exactly when it was the last one |
| WinIcons.DestroyedOnceWhenLastDropped | src/platform_impl/windows/icon.rs:57-66 | along any sequence of clones and drops, the handle is destroyed once, exactly when no holder remains |
| WinIcons.LoadSize | src/platform_impl/windows/icon.rs:91 | no size requests 0 by 0, the system default |
| WinIcons.CheckHandle | src/platform_impl/windows/icon.rs:105-109 | a null handle is an error, any other is kept |
| WinIcons.FromPath | src/platform_impl/windows/icon.rs:86-110 | loads from the file at the requested or default size; fails exactly on a null handle |
| WinIcons.FromResourceInnerName | src/platform_impl/windows/icon.rs:112-130 | loads from the module's resources at the requested or default size; fails exactly on a null handle |
| WinTray.SaturatingSub | src/platform_impl/windows/mod.rs:586-587 | `i32::saturating_sub` clamps to the `i32` range |
| WinTray.Extent | src/platform_impl/windows/mod.rs:586-587 | an ordered side keeps its length up to 2^31-1; an inverted side wraps to near 2^32 |
| WinTray.FromRect | src/platform_impl/windows/mod.rs:581-591 | the position is the top-left corner and the sizes are the clamped extents |
| WinTray.TipBuffer | src/platform_impl/windows/mod.rs:516-530 | the tooltip buffer is always 128 units |
| WinTray.TipOf | src/platform_impl/windows/mod.rs:523-530 | a present or absent tooltip gives 128 units |
| WinTray.CopyTip | src/platform_impl/windows/mod.rs:203-209 | the copy loop fills the zeroed 128-unit array with the first `min(len, 128)` units |
| WinTray.RegisterData | src/platform_impl/windows/mod.rs:507-543 | `NIF_MESSAGE` is always set; `NIF_ICON` and the handle are set exactly when there is an icon; `NIF_TIP` and the tip are set exactly when there is a tooltip |
| WinTray.TrayMouse | src/platform_impl/windows/mod.rs:329-447 | definition of the `WM_USER_TRAYICON` arm; its properties are stated by `ButtonMessages`, `MoveDeduplication` and `MenuShownOnlyOnTrigger` |
| WinTray.LeaveTick | src/platform_impl/windows/mod.rs:450-478 | definition of the `WM_TIMER` arm; its properties are stated by `LeaveOnlyOutside` and `EnterAloneNeverLeaves` |
| WinTray.Step | src/platform_impl/windows/mod.rs:266-484 | definition of `tray_proc` as a pure step; its properties are stated by `StepPreservesHover`, `StepEnteredFlag`, `UpdateMessages`, `RunAlternates` and the lemmas on each arm, and `TrayWindow.Proc` performs it in place |
| WinTray.ButtonEvent | src/platform_impl/windows/mod.rs:357-417 | each button sub-message maps to its event kind, button and press state, in both directions |
| WinTray.StepPreservesHover | src/platform_impl/windows/mod.rs:95-96 | outside the icon there is never a remembered position or a leave timer, and no message changes that |
| WinTray.StepEnteredFlag | src/platform_impl/windows/mod.rs:418-421 | `entered` changes only with `Enter` (from outside) or `Leave` (from inside); the ids and left-click flag never change |
| WinTray.LeaveOnlyOutside | src/platform_impl/windows/mod.rs:450-478 | a leave tick clears the remembered position; it sends `Leave` with that position exactly when both OS queries succeed and the cursor is outside the half-open rectangle, killing the timer |
| WinTray.EnterAloneNeverLeaves | src/platform_impl/windows/mod.rs:418-421 | after an `Enter` with no later move, ticks do nothing, so no `Leave` follows |
| WinTray.MoveDeduplication | src/platform_impl/windows/mod.rs:422-433 | a move at the remembered position changes and sends nothing; any other position is remembered, arms the timer and sends `Move` |
| WinTray.ButtonMessages | src/platform_impl/windows/mod.rs:344-417 | button sub-messages leave the data alone; if either OS query fails they return 0, otherwise they send their event |
| WinTray.MenuShownOnlyOnTrigger | src/platform_impl/windows/mod.rs:441-447 | the popup opens, at the cursor, exactly on a right press, or a left press with `menu_on_left_click`, when a menu exists and both OS queries succeed |
| WinTray.UpdateMessages | src/platform_impl/windows/mod.rs:296-327 | each update message replaces exactly its field; show re-adds and hide deletes the icon; a taskbar restart deletes and re-adds it with the stored icon and tooltip |
| WinTray.ShortTooltipTerminated | src/platform_impl/windows/mod.rs:523-530 | a tooltip under 128 units reaches the shell whole and NUL-terminated and decodes back |
| WinTray.LongTooltipUnterminated | src/platform_impl/windows/mod.rs:523-530 | a tooltip of 128 units or more fills the buffer with no NUL |
| WinTray.RunAlternates | src/platform_impl/windows/mod.rs:418-473 | along any message sequence, `Enter` and `Leave` alternate: never two `Enter`s without a `Leave` between them |
| WinTray.Repeat | src/platform_impl/windows/mod.rs:422-433 | a repeated input has the requested length |
| WinTray.RepeatSilent | src/platform_impl/windows/mod.rs:422-433 | repeating a message that changes nothing sends nothing |
| WinTray.RestingCursor | src/platform_impl/windows/mod.rs:418-433 | repeated moves at one position from outside give `Enter`, one `Move`, then nothing |
| WinTray.RegisterTrayIcon | src/platform_impl/windows/mod.rs:507-543 | the step-by-step fill builds the data `RegisterData` describes |
| WinTray.MenuHandle | src/platform_impl/windows/mod.rs:92 | the popup handle is present exactly when a menu is |
| WinTray.InitialState | src/platform_impl/windows/mod.rs:88-98 | the new user data takes its menu, icon, tooltip and flag from the attributes and starts outside the icon with no timer |
| WinTray.TrayWindow.constructor | src/platform_impl/windows/mod.rs:88-121 | the window holds the given data and is alive |
| WinTray.TrayWindow.Proc | src/platform_impl/windows/mod.rs:266-484 | performs in place what `Step` describes, sends its event to the sink, and is destroyed exactly by `WM_DESTROY` |
| WinTray.WinTrayIcon.New | src/platform_impl/windows/mod.rs:72-142 | draws the internal id; fails with `OsError` if the window or the registration fails; otherwise the window holds the initial data |
| WinTray.WinTrayIcon.SetIcon | src/platform_impl/windows/mod.rs:144-171 | a `NIM_MODIFY` with `NIF_ICON`; the window stores the icon exactly when that succeeds |
| WinTray.WinTrayIcon.SetMenu | src/platform_impl/windows/mod.rs:173-193 | the window switches to the new menu's popup handle |
| WinTray.WinTrayIcon.SetTooltip | src/platform_impl/windows/mod.rs:195-225 | a `NIM_MODIFY` with `NIF_TIP` and the copied tooltip; the window stores the tooltip exactly when that succeeds |
| WinTray.WinTrayIcon.SetVisible | src/platform_impl/windows/mod.rs:229-244 | show re-adds the icon with the stored icon and tooltip, hide deletes it; it always succeeds |
| WinTray.WinTrayIcon.Drop | src/platform_impl/windows/mod.rs:251-264 | deletes the icon, then destroys the window |
| WinTray.TrayRect | src/platform_impl/windows/mod.rs:246-248 | nothing when the shell cannot give the rectangle, else the converted one |
| MacTray.ImageFor | src/platform_impl/macos/mod.rs:250-273 | an image exists exactly when an icon does, carrying the template flag |
| MacTray.Create | src/platform_impl/macos/mod.rs:48-99 | definition of `create`; its meaning is stated by `CreateMatchesRender` |
| MacTray.ApplyIcon | src/platform_impl/macos/mod.rs:242-276 | fails with `PngEncodingError` exactly when an icon cannot be encoded, leaving the button alone; otherwise the button shows the icon or no image |
| MacTray.SetTitleNativeAsWritten | src/platform_impl/macos/mod.rs:178-190 | a title replaces the button's title; `None` leaves it |
| MacTray.SetTitleNative | src/platform_impl/macos/mod.rs:178-190 | corrected: the button's title becomes the title, or empty for `None`, and nothing else changes |
| MacTray.CreateMatchesRender | src/platform_impl/macos/mod.rs:48-99 | `create` builds exactly the item and target the attributes call for, and fails only when the icon cannot be encoded |
| MacTray.SetIconKeepsRender | src/platform_impl/macos/mod.rs:114-122 | corrected `set_icon` keeps the shown item equal to what the new attributes call for |
| MacTray.SetTitleKeepsRender | src/platform_impl/macos/mod.rs:168-190 | corrected `set_title` keeps the shown item equal to what the new attributes call for |
| MacTray.SetIconAsWrittenDropsTemplate | src/platform_impl/macos/mod.rs:117 | as written, a template icon replaced while shown loses its template flag while the attributes keep it |
| MacTray.SetTitleAsWrittenKeepsStaleTitle | src/platform_impl/macos/mod.rs:183-189 | as written, `set_title(None)` leaves the old title shown while a re-created item would have none |
| MacTray.MacTrayIcon.New | src/platform_impl/macos/mod.rs:33-46 | fails with `NotMainThread` off the main thread, with `PngEncodingError` if the icon cannot be encoded; otherwise the icon is shown and consistent |
| MacTray.MacTrayIcon.Remove | src/platform_impl/macos/mod.rs:101-112 | both handles are cleared; the attributes stay (also `Drop`, lines 236-240) |
| MacTray.MacTrayIcon.SetIcon | src/platform_impl/macos/mod.rs:114-122 | fails exactly when shown and the icon cannot be encoded, changing nothing; otherwise the attributes take the icon, shown or not, and, corrected to pass the stored template flag, the shown item stays equal to what the attributes call for |
| MacTray.MacTrayIcon.SetMenu | src/platform_impl/macos/mod.rs:124-141 | the attributes, and while shown the item and target, take the menu |
| MacTray.MacTrayIcon.SetTooltip | src/platform_impl/macos/mod.rs:143-166 | always succeeds; the attributes and the shown item take the tooltip |
| MacTray.MacTrayIcon.SetTitle | src/platform_impl/macos/mod.rs:168-190 | the attributes and the shown item take the title (corrected for `None`) |
| MacTray.MacTrayIcon.SetVisible | src/platform_impl/macos/mod.rs:192-204 | showing creates from the current attributes only when hidden, so a second call changes nothing; hiding clears both handles; the handles are both present or both absent |
| MacTray.MacTrayIcon.SetIconAsTemplate | src/platform_impl/macos/mod.rs:206-217 | the attributes, and the shown image if any, take the template flag |
| MacTray.MacTrayIcon.SetShowMenuOnLeftClick | src/platform_impl/macos/mod.rs:219-224 | the attributes, and the target while shown, take the flag |
| MacTray.MacTrayIcon.Rect | src/platform_impl/macos/mod.rs:226-233 | nothing while hidden, else what the button's window gives |
| MacTray.HideThenShow | src/platform_impl/macos/mod.rs:192-204 | hiding and showing again rebuilds the very item and target that were shown |
| MacTray.OnTrayClick | src/platform_impl/macos/mod.rs:454-475 | the button is clicked exactly for Right, or Left with `menu_on_left_click`, when the menu has items; otherwise it is highlighted |
| MacTray.HandleMouse | src/platform_impl/macos/mod.rs:301-405 | definition of the mouse callbacks as action lists; their meaning is stated by `MouseCallbacks` |
| MacTray.SentEvents | src/platform_impl/macos/mod.rs:492-545 | an event is sent exactly when a `Send` of it is among the actions |
| MacTray.SentEventsAppend | src/platform_impl/macos/mod.rs:492-545 | the events of consecutive actions are sent in the order of the actions |
| MacTray.MouseCallbacks | src/platform_impl/macos/mod.rs:301-405 | each callback sends exactly one event of its kind with the target's id, the cursor and the rectangle; other buttons only for button number 2; only left and right presses reach `on_tray_click`; a left release un-highlights first |
| MacTray.Flip | src/platform_impl/macos/mod.rs:572-574 | definition of the flip; its properties are stated by `FlipReversesOrder` and `FlipInvolution` |
| MacTray.FlipReversesOrder | src/platform_impl/macos/mod.rs:561-574 | the flip swaps the top and bottom edges of the display and reverses vertical order, in both directions |
| MacTray.FlipInvolution | src/platform_impl/macos/mod.rs:561-574 | flipping twice gives the coordinate back |
| GtkTray.DigitChar | src/platform_impl/gtk/mod.rs:117 | a digit character |
| GtkTray.DecimalString | src/platform_impl/gtk/mod.rs:117 | the id prints as a non-empty string of digits |
| GtkTray.ParseDecimalString | src/platform_impl/gtk/mod.rs:117 | the printed digits read back as the id |
| GtkTray.IconFileNameInjective | src/platform_impl/gtk/mod.rs:117 | different ids give different file names |
| GtkTray.IconFileName | src/platform_impl/gtk/mod.rs:117 | definition of `tray-icon-{id}.png`; its meaning is stated by `IconFileNameInjective` |
| GtkTray.IconDir | src/platform_impl/gtk/mod.rs:104-114 | the given directory, else `tray-icon` under the runtime directory, else under the temp directory |
| GtkTray.TempIconPath | src/platform_impl/gtk/mod.rs:108-119 | fails with `OsError` exactly when the directory cannot be created; otherwise the directory and `tray-icon-{id}.png` inside it |
| GtkTray.DistinctIdsDistinctFiles | src/platform_impl/gtk/mod.rs:108-119 | icons with different ids never write the same file, whatever their directories |
| GtkTray.StatusForVisibleAsWritten | src/platform_impl/gtk/mod.rs:82-90 | as written: `Passive` for visible and `Active` for hidden; exhibited by `SetVisibleAsWrittenInverted` |
| GtkTray.StatusForVisible | src/platform_impl/gtk/mod.rs:82-90 | corrected: the status is `Active` exactly when visible |
| GtkTray.SetVisibleAsWrittenInverted | src/platform_impl/gtk/mod.rs:82-90 | as written, showing sets the status that `drop` uses for hiding |
| GtkTray.GtkTrayIcon.New | src/platform_impl/gtk/mod.rs:22-49 | fails exactly when the directory cannot be created; otherwise an active indicator on the icon file, written when there is an icon, with the menu and title |
| GtkTray.GtkTrayIcon.SetIcon | src/platform_impl/gtk/mod.rs:50-66 | removes the old file first; on a directory failure stops there with `OsError`; otherwise writes the new icon, if any, and points the indicator and path at it; on failure the theme path, icon name and description stay; the status, menu, label and directory never change |
| GtkTray.GtkTrayIcon.SetMenu | src/platform_impl/gtk/mod.rs:67-71 | a menu replaces the current one; `None` leaves it; every other field stays |
| GtkTray.GtkTrayIcon.SetTooltip | src/platform_impl/gtk/mod.rs:73-75 | always succeeds, changing nothing |
| GtkTray.GtkTrayIcon.SetTitle | src/platform_impl/gtk/mod.rs:77-80 | the label becomes the title, or empty for `None`; every other field stays |
| GtkTray.GtkTrayIcon.SetVisible | src/platform_impl/gtk/mod.rs:82-90 | corrected: `Active` to show, `Passive` to hide; always succeeds; every other field stays |
| GtkTray.GtkTrayIcon.SetTempDirPath | src/platform_impl/gtk/mod.rs:92-94 | only the staging directory changes; every other field stays |
| GtkTray.GtkTrayIcon.Drop | src/platform_impl/gtk/mod.rs:97-102 | the indicator goes passive and its icon file is removed; every other field stays |
| GtkTray.SetIconTwice | src/platform_impl/gtk/mod.rs:50-66 | two icon changes in one directory reuse one path, leaving only the latest file |

## Left out

- Native FFI is not modelled: `Shell_NotifyIconW`, window creation and class registration, `TrackPopupMenu`, `SetForegroundWindow`, Objective-C message sends, `NSTrackingArea` set-up and the AppIndicator calls. They appear only as recorded calls, oracle parameters or fields.
- Pointer plumbing is not modelled: `GWL_USERDATA`, the `WM_NCCREATE` hand-over and the `(0, WM_CREATE)` failure. The model starts once the user data is attached, and `WM_CREATE` afterwards is passed on.
- Messages that reach the window after `WM_DESTROY` are not modelled, because the source frees the user data there.
- The `TrayUserData` box leaked when `CreateWindowExW` fails is not modelled, and neither is the window left behind when `register_tray_icon` fails in `new`.
- Attaching and detaching the menu's window subclass is left out: it is code in the menu crate.
- Floating point is left out. Positions and rectangles are exact reals. The following are not computed; the macOS cursor position and rectangle are parameters instead:
  - macOS `get_tray_rect` and the scale-factor conversions;
  - the 18-point icon sizing;
  - `update_dimensions`;
  - `dpi_to_scale_factor`.
- `WinTray.WinTrayIcon.SetTitle`: Windows ignores the title. The method changes nothing and carries no contract.
- Facade.Counter.Next: src/counter.rs is not part of this model. The counter is an unbounded fetch-and-increment, so the wrap-around of its `u32` is not modelled, and internal ids are `nat`.
- The `OnceCell` and channel concurrency are left out. The sink is sequential, and a handler is an opaque number whose calls are logged.
- The GTK PNG writing (src/platform_impl/gtk/icon.rs) and file removal are modelled only as a ghost set of files present. The model always adds the file, while `write_to_png` unwraps `File::create` and the encoder, so a failed write panics there. The PNG encoding on macOS is only a success flag.
- The macOS `setDelegate` call and the retained `NSStatusItem` inside the target are left out.
- The native objects on macOS are values held by the driver's fields, so the sharing of one object between the driver and the target is not captured.
- A status item already placed in the menu bar is not modelled as leaked when `create` then fails to encode the icon.
- `WinIcons.FromPath`, `WinIcons.FromResourceInnerName`: the path and resource name are taken already UTF-16 encoded. `from_resource` and `from_resource_name` only pick that name.
- Nothing about the `examples/winit.rs` demo, `src/error.rs` (beyond the `Error` variants) or the `Accel` wrapper is modelled.

## Findings

| source | as written | input that shows it | evidently intended | confidence | as-written member | corrected member |
|---|---|---|---|---|---|---|
| src/platform_impl/gtk/mod.rs:82-90 | `set_visible(true)` sets `Passive` and `set_visible(false)` sets `Active` | `set_visible(true)` on a new indicator hides it; `new` sets `Active` and `drop` sets `Passive` | `Active` when visible, `Passive` when hidden | high, not executed | GtkTray.SetVisibleAsWrittenInverted | GtkTray.GtkTrayIcon.SetVisible |
| src/platform_impl/macos/mod.rs:117 | `set_icon` rebuilds the image with template flag `false` | shown icon built with `with_icon_as_template(true)`, then `set_icon(Some(other))`: not a template, though the attributes say it is | pass the stored `icon_is_template` | medium, not executed | MacTray.SetIconAsWrittenDropsTemplate | MacTray.MacTrayIcon.SetIcon |
| src/platform_impl/macos/mod.rs:183-189 | `set_title(None)` leaves the old title on the button | title `"3"`, then `set_title(None)`: `"3"` stays shown while the attributes hold `None` | clear the title | low, not executed | MacTray.SetTitleNativeAsWritten | MacTray.SetTitleNative |
