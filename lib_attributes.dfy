/** `TrayIconAttributes` and `TrayIconBuilder` of src/lib.rs. */
module Attributes {
  import opened TrayTypes

  /** The configuration snapshot a driver is created from; every field is independently optional. */
  datatype TrayIconAttributes = TrayIconAttributes(
    tooltip: Option<string>,
    menu: Option<Menu>,
    icon: Option<Icon>,
    tempDirPath: Option<Path>,
    iconIsTemplate: bool,
    menuOnLeftClick: bool,
    title: Option<string>)

  /** `TrayIconAttributes::default()`: nothing set, not a template, menu shown on left click. */
  function DefaultAttributes(): (a: TrayIconAttributes)
    ensures a.tooltip == None && a.menu == None && a.icon == None
    ensures a.tempDirPath == None && a.title == None
    ensures !a.iconIsTemplate && a.menuOnLeftClick
  {
    TrayIconAttributes(None, None, None, None, false, true, None)
  }

  /** `TrayIconBuilder`: a by-value wrapper around the attributes it accumulates. */
  datatype TrayIconBuilder = TrayIconBuilder(attrs: TrayIconAttributes)

  /** `TrayIconBuilder::new()` (and the derived `Default`). */
  function NewBuilder(): (b: TrayIconBuilder)
    ensures b.attrs == DefaultAttributes()
  {
    TrayIconBuilder(DefaultAttributes())
  }

  function WithMenu(b: TrayIconBuilder, menu: Menu): (r: TrayIconBuilder)
    ensures r.attrs.menu == Some(menu)
    ensures OthersUnchanged(b.attrs, r.attrs, MenuField)
  {
    TrayIconBuilder(b.attrs.(menu := Some(menu)))
  }

  function WithIcon(b: TrayIconBuilder, icon: Icon): (r: TrayIconBuilder)
    ensures r.attrs.icon == Some(icon)
    ensures OthersUnchanged(b.attrs, r.attrs, IconField)
  {
    TrayIconBuilder(b.attrs.(icon := Some(icon)))
  }

  function WithTooltip(b: TrayIconBuilder, s: string): (r: TrayIconBuilder)
    ensures r.attrs.tooltip == Some(s)
    ensures OthersUnchanged(b.attrs, r.attrs, TooltipField)
  {
    TrayIconBuilder(b.attrs.(tooltip := Some(s)))
  }

  /** `with_title` uses `Option::replace`, which stores `Some(title)` whatever was there. */
  function WithTitle(b: TrayIconBuilder, title: string): (r: TrayIconBuilder)
    ensures r.attrs.title == Some(title)
    ensures OthersUnchanged(b.attrs, r.attrs, TitleField)
  {
    TrayIconBuilder(b.attrs.(title := Some(title)))
  }

  function WithTempDirPath(b: TrayIconBuilder, p: Path): (r: TrayIconBuilder)
    ensures r.attrs.tempDirPath == Some(p)
    ensures OthersUnchanged(b.attrs, r.attrs, TempDirField)
  {
    TrayIconBuilder(b.attrs.(tempDirPath := Some(p)))
  }

  function WithIconAsTemplate(b: TrayIconBuilder, isTemplate: bool): (r: TrayIconBuilder)
    ensures r.attrs.iconIsTemplate == isTemplate
    ensures OthersUnchanged(b.attrs, r.attrs, TemplateField)
  {
    TrayIconBuilder(b.attrs.(iconIsTemplate := isTemplate))
  }

  function WithMenuOnLeftClick(b: TrayIconBuilder, enable: bool): (r: TrayIconBuilder)
    ensures r.attrs.menuOnLeftClick == enable
    ensures OthersUnchanged(b.attrs, r.attrs, MenuOnLeftClickField)
  {
    TrayIconBuilder(b.attrs.(menuOnLeftClick := enable))
  }

  /** The fields of `TrayIconAttributes`, used to say which one a setter may change. */
  datatype Field = TooltipField | MenuField | IconField | TempDirField | TemplateField | MenuOnLeftClickField | TitleField

  /** Every field of `a` other than `f` equals that of `b`. */
  predicate OthersUnchanged(a: TrayIconAttributes, b: TrayIconAttributes, f: Field)
  {
    && (f != TooltipField ==> a.tooltip == b.tooltip)
    && (f != MenuField ==> a.menu == b.menu)
    && (f != IconField ==> a.icon == b.icon)
    && (f != TempDirField ==> a.tempDirPath == b.tempDirPath)
    && (f != TemplateField ==> a.iconIsTemplate == b.iconIsTemplate)
    && (f != MenuOnLeftClickField ==> a.menuOnLeftClick == b.menuOnLeftClick)
    && (f != TitleField ==> a.title == b.title)
  }

  /** A later `with_title` overwrites an earlier one. */
  lemma WithTitleOverwrites(b: TrayIconBuilder, t1: string, t2: string)
    ensures WithTitle(WithTitle(b, t1), t2) == WithTitle(b, t2)
  {
  }

  /** Setters of different fields commute, so the order of builder calls does not matter. */
  lemma SettersCommute(b: TrayIconBuilder, m: Menu, i: Icon, s: string, t: string, p: Path)
    ensures WithIcon(WithMenu(b, m), i) == WithMenu(WithIcon(b, i), m)
    ensures WithTooltip(WithTitle(b, t), s) == WithTitle(WithTooltip(b, s), t)
    ensures WithTempDirPath(WithIcon(b, i), p) == WithIcon(WithTempDirPath(b, p), i)
  {
  }
}
