/**
 * src/platform_impl/macos/mod.rs: the driver keeps an `NSStatusItem` and the
 * `TrayTarget` view laid over its button, both present or both absent, and
 * mirrors every setter into its `TrayIconAttributes`; the target turns
 * AppKit mouse callbacks into `TrayIconEvent`s and decides between opening
 * the menu and highlighting the button.
 *
 * The native objects are modelled as values that the driver's fields hold;
 * an in-place change to one of them is a reassignment of that field.
 */
module MacTray {
  import opened TrayIconIds
  import opened TrayTypes
  import opened Attributes

  /** An `NSImage` built from an icon, with its template flag. */
  datatype Image = Image(icon: Icon, isTemplate: bool)

  /** What the status item's button shows: image, tooltip, title, and the item's menu. */
  datatype StatusItem = StatusItem(image: Option<Image>, tooltip: Option<string>, title: string, menu: Option<Menu>)

  /** `TrayTargetIvars` (the retained status item is the driver's own). */
  datatype TrayTarget = TrayTarget(id: string, menu: Option<Menu>, menuOnLeftClick: bool)

  /** A status item as `statusItemWithLength` returns it: no image, tooltip, title or menu. */
  function FreshItem(): StatusItem
  {
    StatusItem(None, None, "", None)
  }

  /** The image the attributes call for. */
  function ImageFor(icon: Option<Icon>, isTemplate: bool): (image: Option<Image>)
    ensures image.Some? <==> icon.Some?
    ensures image.Some? ==> image.value == Image(icon.value, isTemplate)
  {
    if icon.Some? then Some(Image(icon.value, isTemplate)) else None
  }

  /** The status item a driver with these attributes should show. */
  function RenderItem(attrs: TrayIconAttributes): StatusItem
  {
    StatusItem(ImageFor(attrs.icon, attrs.iconIsTemplate), attrs.tooltip, attrs.title.GetOr(""), attrs.menu)
  }

  /** The target a driver with this id and these attributes should hold. */
  function RenderTarget(id: TrayIconId, attrs: TrayIconAttributes): TrayTarget
  {
    TrayTarget(id.value, attrs.menu, attrs.menuOnLeftClick)
  }

  /**
   * `set_icon_for_ns_status_item_button`: encoding the icon as PNG may fail
   * (`pngOk`), which leaves the button as it was; otherwise the button shows
   * the icon with the given template flag, or no image for `None`.
   */
  function ApplyIcon(item: StatusItem, icon: Option<Icon>, isTemplate: bool, pngOk: bool): (r: Result<StatusItem, Error>)
    ensures r.Err? <==> icon.Some? && !pngOk
    ensures r.Err? ==> r.error == PngEncodingError
    ensures r.Ok? ==> r.value == item.(image := ImageFor(icon, isTemplate))
  {
    if icon.None? then Ok(item.(image := None))
    else if !pngOk then Err(PngEncodingError)
    else Ok(item.(image := Some(Image(icon.value, isTemplate))))
  }

  /** `set_title_inner` as written: a `None` title leaves the button's title alone. */
  function SetTitleNativeAsWritten(item: StatusItem, title: Option<string>): (r: StatusItem)
    ensures title.Some? ==> r == item.(title := title.value)
    ensures title.None? ==> r == item
  {
    if title.Some? then item.(title := title.value) else item
  }

  /** `set_title_inner` corrected: a `None` title clears the button's title. */
  function SetTitleNative(item: StatusItem, title: Option<string>): (r: StatusItem)
    ensures r.title == title.GetOr("")
    ensures r.(title := item.title) == item
  {
    item.(title := title.GetOr(""))
  }

  /**
   * `TrayIcon::create`: a fresh status item receives the icon, the menu (if
   * any), the tooltip and the title; the target copies the id, menu and
   * left-click flag.
   */
  function Create(id: TrayIconId, attrs: TrayIconAttributes, pngOk: bool): Result<(StatusItem, TrayTarget), Error>
  {
    match ApplyIcon(FreshItem(), attrs.icon, attrs.iconIsTemplate, pngOk)
    case Err(e) => Err(e)
    case Ok(withIcon) =>
      var withMenu := if attrs.menu.Some? then withIcon.(menu := attrs.menu) else withIcon;
      var withTooltip := withMenu.(tooltip := attrs.tooltip);
      var item := SetTitleNativeAsWritten(withTooltip, attrs.title);
      Ok((item, TrayTarget(id.value, attrs.menu, attrs.menuOnLeftClick)))
  }

  /** `create` builds exactly what the attributes call for, and fails only when the icon cannot be encoded. */
  lemma CreateMatchesRender(id: TrayIconId, attrs: TrayIconAttributes, pngOk: bool)
    ensures attrs.icon.Some? && !pngOk ==> Create(id, attrs, pngOk) == Err(PngEncodingError)
    ensures attrs.icon.None? || pngOk ==> Create(id, attrs, pngOk) == Ok((RenderItem(attrs), RenderTarget(id, attrs)))
  {
  }

  /** The corrected `set_icon` keeps the shown item in step with the attributes, template flag included. */
  lemma SetIconKeepsRender(attrs: TrayIconAttributes, icon: Option<Icon>, pngOk: bool)
    requires icon.None? || pngOk
    ensures ApplyIcon(RenderItem(attrs), icon, attrs.iconIsTemplate, pngOk) == Ok(RenderItem(attrs.(icon := icon)))
  {
  }

  /** The corrected `set_title` keeps the shown item in step with the attributes. */
  lemma SetTitleKeepsRender(attrs: TrayIconAttributes, title: Option<string>)
    ensures SetTitleNative(RenderItem(attrs), title) == RenderItem(attrs.(title := title))
  {
  }

  /**
   * `set_icon` as written rebuilds the image with the template flag `false`:
   * a template icon replaced while shown is no longer a template, although
   * the attributes still say it is, and hiding and showing again would make
   * it one.
   */
  lemma SetIconAsWrittenDropsTemplate()
    ensures var attrs := DefaultAttributes().(icon := Some(Icon(1)), iconIsTemplate := true);
      var after := attrs.(icon := Some(Icon(2)));
      && ApplyIcon(RenderItem(attrs), Some(Icon(2)), false, true) == Ok(RenderItem(after).(image := Some(Image(Icon(2), false))))
      && RenderItem(after).image == Some(Image(Icon(2), true))
  {
  }

  /**
   * `set_title(None)` as written leaves the old title on the button while
   * the attributes forget it, so the shown title and the one a re-created
   * item would get differ.
   */
  lemma SetTitleAsWrittenKeepsStaleTitle()
    ensures var attrs := DefaultAttributes().(title := Some("3"));
      && SetTitleNativeAsWritten(RenderItem(attrs), None).title == "3"
      && RenderItem(attrs.(title := None)).title == ""
  {
  }

  /** The macOS driver `TrayIcon`. */
  class MacTrayIcon {
    var statusItem: Option<StatusItem>
    var target: Option<TrayTarget>
    const id: TrayIconId
    var attrs: TrayIconAttributes

    /** Both handles or neither; while shown they are what the attributes call for. */
    ghost predicate Valid()
      reads this
    {
      && (statusItem.Some? <==> target.Some?)
      && (statusItem.Some? ==> statusItem.value == RenderItem(attrs) && target.value == RenderTarget(id, attrs))
    }

    predicate Shown()
      reads this
    {
      statusItem.Some?
    }

    constructor (id: TrayIconId, attrs: TrayIconAttributes, item: StatusItem, target: TrayTarget)
      ensures this.id == id && this.attrs == attrs && statusItem == Some(item) && this.target == Some(target)
    {
      this.id := id;
      this.attrs := attrs;
      statusItem := Some(item);
      this.target := Some(target);
    }

    /**
     * `TrayIcon::new`: off the main thread it fails with `NotMainThread`;
     * otherwise it creates the native objects, which fails only when the
     * icon cannot be encoded.
     */
    static method New(id: TrayIconId, attrs: TrayIconAttributes, mainThread: bool, pngOk: bool) returns (r: Result<MacTrayIcon, Error>)
      ensures !mainThread ==> r == Err(NotMainThread)
      ensures mainThread && attrs.icon.Some? && !pngOk ==> r == Err(PngEncodingError)
      ensures r.Ok? <==> mainThread && (attrs.icon.None? || pngOk)
      ensures r.Ok? ==> fresh(r.value) && r.value.Valid() && r.value.Shown() && r.value.id == id && r.value.attrs == attrs
    {
      if !mainThread {
        return Err(NotMainThread);
      }
      CreateMatchesRender(id, attrs, pngOk);
      match Create(id, attrs, pngOk) {
        case Err(e) => r := Err(e);
        case Ok((item, target)) =>
          var icon := new MacTrayIcon(id, attrs, item, target);
          r := Ok(icon);
      }
    }

    /** `remove` (and `Drop`): both handles go. */
    method Remove()
      modifies this
      ensures statusItem == None && target == None && attrs == old(attrs)
      ensures Valid()
    {
      statusItem := None;
      target := None;
    }

    /**
     * `set_icon`: while shown, the button's image is rebuilt (corrected to
     * keep the stored template flag); an encoding failure changes nothing.
     * The attributes take the icon whether or not it is shown.
     */
    method SetIcon(icon: Option<Icon>, pngOk: bool) returns (r: Result<(), Error>)
      requires Valid()
      modifies this
      ensures Valid() && Shown() == old(Shown())
      ensures r.Err? <==> old(Shown()) && icon.Some? && !pngOk
      ensures r.Err? ==> r.error == PngEncodingError && attrs == old(attrs)
      ensures r.Ok? ==> attrs == old(attrs).(icon := icon)
    {
      if statusItem.Some? && target.Some? {
        match ApplyIcon(statusItem.value, icon, attrs.iconIsTemplate, pngOk) {
          case Err(e) =>
            return Err(e);
          case Ok(item) =>
            SetIconKeepsRender(attrs, icon, pngOk);
            statusItem := Some(item);
        }
      }
      attrs := attrs.(icon := icon);
      r := Ok(());
    }

    /** `set_menu`: while shown, both the item and the target take the menu; so do the attributes. */
    method SetMenu(menu: Option<Menu>)
      requires Valid()
      modifies this
      ensures Valid() && Shown() == old(Shown())
      ensures attrs == old(attrs).(menu := menu)
    {
      if statusItem.Some? && target.Some? {
        statusItem := Some(statusItem.value.(menu := menu));
        target := Some(target.value.(menu := menu));
      }
      attrs := attrs.(menu := menu);
    }

    /** `set_tooltip`: always succeeds. */
    method SetTooltip(tooltip: Option<string>) returns (r: Result<(), Error>)
      requires Valid()
      modifies this
      ensures Valid() && Shown() == old(Shown()) && r == Ok(())
      ensures attrs == old(attrs).(tooltip := tooltip)
    {
      if statusItem.Some? && target.Some? {
        statusItem := Some(statusItem.value.(tooltip := tooltip));
      }
      attrs := attrs.(tooltip := tooltip);
      r := Ok(());
    }

    /** `set_title`, with `None` clearing the shown title (corrected). */
    method SetTitle(title: Option<string>)
      requires Valid()
      modifies this
      ensures Valid() && Shown() == old(Shown())
      ensures attrs == old(attrs).(title := title)
    {
      if statusItem.Some? && target.Some? {
        SetTitleKeepsRender(attrs, title);
        statusItem := Some(SetTitleNative(statusItem.value, title));
      }
      attrs := attrs.(title := title);
    }

    /**
     * `set_visible`: showing creates the native objects from the current
     * attributes only when they are absent; hiding removes them.
     */
    method SetVisible(visible: bool, pngOk: bool) returns (r: Result<(), Error>)
      requires Valid()
      modifies this
      ensures Valid() && attrs == old(attrs)
      ensures visible && old(Shown()) ==> r == Ok(()) && statusItem == old(statusItem) && target == old(target)
      ensures visible && !old(Shown()) ==> (r.Ok? <==> attrs.icon.None? || pngOk) && Shown() == r.Ok?
      ensures r.Err? ==> r.error == PngEncodingError
      ensures !visible ==> r == Ok(()) && !Shown()
    {
      if visible {
        if statusItem.None? {
          CreateMatchesRender(id, attrs, pngOk);
          match Create(id, attrs, pngOk) {
            case Err(e) =>
              return Err(e);
            case Ok((item, t)) =>
              statusItem := Some(item);
              target := Some(t);
          }
        }
      } else {
        Remove();
      }
      r := Ok(());
    }

    /** `set_icon_as_template`: while shown and with an image, the image's flag changes; the attributes always do. */
    method SetIconAsTemplate(isTemplate: bool)
      requires Valid()
      modifies this
      ensures Valid() && Shown() == old(Shown())
      ensures attrs == old(attrs).(iconIsTemplate := isTemplate)
    {
      if statusItem.Some? {
        var item := statusItem.value;
        if item.image.Some? {
          statusItem := Some(item.(image := Some(item.image.value.(isTemplate := isTemplate))));
        }
      }
      attrs := attrs.(iconIsTemplate := isTemplate);
    }

    /** `set_show_menu_on_left_click`: the target's flag (while shown) and the attributes. */
    method SetShowMenuOnLeftClick(enable: bool)
      requires Valid()
      modifies this
      ensures Valid() && Shown() == old(Shown())
      ensures attrs == old(attrs).(menuOnLeftClick := enable)
    {
      if target.Some? {
        target := Some(target.value.(menuOnLeftClick := enable));
      }
      attrs := attrs.(menuOnLeftClick := enable);
    }

    /** `rect`: nothing while hidden; else what the button's window reports, if it has one. */
    function Rect(windowRect: Option<Rect>): (r: Option<Rect>)
      reads this
      ensures !Shown() ==> r == None
      ensures Shown() ==> r == windowRect
    {
      if statusItem.None? then None else windowRect
    }
  }

  /** Hiding and showing again rebuilds the very item that was shown. */
  method HideThenShow(icon: MacTrayIcon, pngOk: bool) returns (r: Result<(), Error>)
    requires icon.Valid() && icon.Shown() && (icon.attrs.icon.None? || pngOk)
    modifies icon
    ensures r.Ok? && icon.Valid()
    ensures icon.statusItem == old(icon.statusItem) && icon.target == old(icon.target)
  {
    var _ := icon.SetVisible(false, pngOk);
    r := icon.SetVisible(true, pngOk);
  }

  /** The AppKit mouse callbacks `TrayTarget` overrides. */
  datatype MouseCallback =
    | MouseDown
    | MouseUp
    | RightMouseDown
    | RightMouseUp
    | OtherMouseDown(buttonNumber: int)
    | OtherMouseUp(buttonNumber: int)
    | MouseEntered
    | MouseExited
    | MouseMoved

  /** What a callback does, in order: send an event, set the button's highlight, or click the button (which opens its menu). */
  datatype ButtonAction = Send(event: TrayIconEvent) | Highlight(on: bool) | PerformClick

  /**
   * `on_tray_click`: the button is clicked, opening its menu, exactly when
   * the button is Right or (with `menu_on_left_click`) Left and the menu has
   * items; otherwise it is highlighted.
   */
  function OnTrayClick(t: TrayTarget, button: MouseButton): (a: ButtonAction)
    ensures a == PerformClick <==>
      (button == Right || (t.menuOnLeftClick && button == Left)) && t.menu.Some? && t.menu.value.itemCount > 0
    ensures a != PerformClick ==> a == Highlight(true)
  {
    if button == Right || (t.menuOnLeftClick && button == Left) then
      var hasItems := if t.menu.Some? then t.menu.value.itemCount > 0 else false;
      if hasItems then PerformClick else Highlight(true)
    else Highlight(true)
  }

  /**
   * The callbacks; `position` and `rect` are the cursor position and icon
   * rectangle `send_mouse_event` computes.
   */
  function HandleMouse(t: TrayTarget, cb: MouseCallback, position: Position, rect: Rect): seq<ButtonAction>
  {
    var id := TrayIconId(t.id);
    match cb
    case MouseDown => [Send(Click(id, position, rect, Left, Down)), OnTrayClick(t, Left)]
    case MouseUp => [Highlight(false), Send(Click(id, position, rect, Left, Up))]
    case RightMouseDown => [Send(Click(id, position, rect, Right, Down)), OnTrayClick(t, Right)]
    case RightMouseUp => [Send(Click(id, position, rect, Right, Up))]
    case OtherMouseDown(n) => if n == 2 then [Send(Click(id, position, rect, Middle, Down))] else []
    case OtherMouseUp(n) => if n == 2 then [Send(Click(id, position, rect, Middle, Up))] else []
    case MouseEntered => [Send(Enter(id, position, rect))]
    case MouseExited => [Send(Leave(id, position, rect))]
    case MouseMoved => [Send(Move(id, position, rect))]
  }

  /** The events among a callback's actions. */
  function SentEvents(acts: seq<ButtonAction>): (evs: seq<TrayIconEvent>)
    ensures forall e :: e in evs <==> Send(e) in acts
  {
    if acts == [] then []
    else (if acts[0].Send? then [acts[0].event] else []) + SentEvents(acts[1..])
  }

  /** The events of consecutive actions are sent in the order of the actions. */
  lemma {:induction false} SentEventsAppend(a: seq<ButtonAction>, b: seq<ButtonAction>)
    ensures SentEvents(a + b) == SentEvents(a) + SentEvents(b)
  {
    if a != [] {
      SentEventsAppend(a[1..], b);
      assert (a + b)[1..] == a[1..] + b;
    } else {
      assert a + b == b;
    }
  }

  /** Whether a callback reaches `on_tray_click` (it then clicks or highlights). */
  predicate ClicksOrHighlights(acts: seq<ButtonAction>)
  {
    exists i :: 0 <= i < |acts| && (acts[i] == PerformClick || acts[i] == Highlight(true))
  }

  /** The kind of event each callback sends, with its button and state where it has one. */
  predicate EventMatches(cb: MouseCallback, e: TrayIconEvent)
  {
    match cb
    case MouseDown => e.Click? && e.button == Left && e.buttonState == Down
    case MouseUp => e.Click? && e.button == Left && e.buttonState == Up
    case RightMouseDown => e.Click? && e.button == Right && e.buttonState == Down
    case RightMouseUp => e.Click? && e.button == Right && e.buttonState == Up
    case OtherMouseDown(_) => e.Click? && e.button == Middle && e.buttonState == Down
    case OtherMouseUp(_) => e.Click? && e.button == Middle && e.buttonState == Up
    case MouseEntered => e.Enter?
    case MouseExited => e.Leave?
    case MouseMoved => e.Move?
  }

  /**
   * Every callback sends exactly one event of its own kind, carrying the
   * target's id, the cursor and the rectangle, except the other-button
   * callbacks for a button number other than 2, which send nothing; only
   * the left and right presses reach `on_tray_click`; a left release first
   * clears the highlight.
   */
  lemma MouseCallbacks(t: TrayTarget, cb: MouseCallback, position: Position, rect: Rect)
    ensures var acts := HandleMouse(t, cb, position, rect);
      var evs := SentEvents(acts);
      && |evs| == (if (cb.OtherMouseDown? || cb.OtherMouseUp?) && cb.buttonNumber != 2 then 0 else 1)
      && (|evs| == 1 ==> EventMatches(cb, evs[0]) && evs[0].id == TrayIconId(t.id)
                         && evs[0].position == position && evs[0].rect == rect)
      && (ClicksOrHighlights(acts) <==> cb == MouseDown || cb == RightMouseDown)
      && (cb == MouseUp ==> acts[0] == Highlight(false))
  {
    var acts := HandleMouse(t, cb, position, rect);
    if cb == MouseDown || cb == RightMouseDown {
      assert acts[1] == PerformClick || acts[1] == Highlight(true);
    }
    assert SentEvents([]) == [];
    if |acts| == 2 {
      assert acts[1..][1..] == [];
    }
  }

  /** `flip_window_screen_coordinates` for a main display `pixelsHigh` pixels high. */
  function Flip(pixelsHigh: nat, y: real): real
  {
    pixelsHigh as real - y
  }

  /** The conversion swaps the top and bottom edges of the display and reverses vertical order. */
  lemma FlipReversesOrder(pixelsHigh: nat, y1: real, y2: real)
    ensures Flip(pixelsHigh, 0.0) == pixelsHigh as real && Flip(pixelsHigh, pixelsHigh as real) == 0.0
    ensures y1 < y2 <==> Flip(pixelsHigh, y1) > Flip(pixelsHigh, y2)
  {
  }

  /** The conversion is its own inverse. */
  lemma FlipInvolution(pixelsHigh: nat, y: real)
    ensures Flip(pixelsHigh, Flip(pixelsHigh, y)) == y
  {
  }
}
