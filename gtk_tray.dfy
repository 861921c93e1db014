/**
 * src/platform_impl/gtk/mod.rs: the AppIndicator driver. The icon is
 * written as a PNG into a per-icon file under a temporary directory, whose
 * choice and naming `temp_icon_path` fixes; the setters update the
 * indicator's status, icon path, menu and label.
 */
module GtkTray {
  import opened TrayTypes
  import opened Attributes

  /** `AppIndicatorStatus`: `Active` shows the indicator, `Passive` hides it. */
  datatype IndicatorStatus = Passive | Active | Attention

  /** The environment `temp_icon_path` consults: `dirs_next::runtime_dir()` and `std::env::temp_dir()`. */
  datatype Env = Env(runtimeDir: Option<Path>, tempDir: Path)

  function DigitChar(d: nat): (c: char)
    requires d < 10
    ensures '0' <= c <= '9'
  {
    ['0', '1', '2', '3', '4', '5', '6', '7', '8', '9'][d]
  }

  /** `format!("{}", n)` for an unsigned integer: its decimal digits, without leading zeros. */
  function DecimalString(n: nat): (s: string)
    ensures |s| > 0
    ensures forall i :: 0 <= i < |s| ==> '0' <= s[i] <= '9'
    decreases n
  {
    if n < 10 then [DigitChar(n)] else DecimalString(n / 10) + [DigitChar(n % 10)]
  }

  /** Reads a string of decimal digits back as a number. */
  function ParseDecimal(s: string): nat
    requires forall i :: 0 <= i < |s| ==> '0' <= s[i] <= '9'
    decreases |s|
  {
    if s == [] then 0 else 10 * ParseDecimal(s[..|s| - 1]) + (s[|s| - 1] as int - '0' as int)
  }

  /** Decimal printing loses nothing: the digits read back as the number. */
  lemma {:induction false} ParseDecimalString(n: nat)
    ensures ParseDecimal(DecimalString(n)) == n
    decreases n
  {
    var s := DecimalString(n);
    if n >= 10 {
      ParseDecimalString(n / 10);
      assert s[..|s| - 1] == DecimalString(n / 10);
    }
  }

  /** The icon's file name, `tray-icon-{id}.png`. */
  function IconFileName(id: nat): string
  {
    "tray-icon-" + DecimalString(id) + ".png"
  }

  /** Different icons never share a file name. */
  lemma IconFileNameInjective(a: nat, b: nat)
    requires IconFileName(a) == IconFileName(b)
    ensures a == b
  {
    var sa := IconFileName(a);
    var sb := IconFileName(b);
    assert |DecimalString(a)| == |DecimalString(b)|;
    assert DecimalString(a) == sa[10..|sa| - 4];
    assert DecimalString(b) == sb[10..|sb| - 4];
    ParseDecimalString(a);
    ParseDecimalString(b);
  }

  /** The directory `temp_icon_path` settles on: the given one, else the runtime dir's `tray-icon`, else the temp dir's. */
  function IconDir(dir: Option<Path>, env: Env): (parent: Path)
    ensures dir.Some? ==> parent == dir.value
    ensures dir.None? && env.runtimeDir.Some? ==> parent == env.runtimeDir.value + ["tray-icon"]
    ensures dir.None? && env.runtimeDir.None? ==> parent == env.tempDir + ["tray-icon"]
  {
    match dir
    case Some(path) => path
    case None => env.runtimeDir.GetOr(env.tempDir) + ["tray-icon"]
  }

  /**
   * `temp_icon_path`: the directory and the icon file inside it, once
   * `create_dir_all` succeeds (`dirCreated`); an I/O error otherwise.
   */
  function TempIconPath(dir: Option<Path>, id: nat, env: Env, dirCreated: bool): (r: Result<(Path, Path), Error>)
    ensures r.Ok? <==> dirCreated
    ensures r.Err? ==> r.error == OsError
    ensures r.Ok? ==> r.value.0 == IconDir(dir, env) && r.value.1 == IconDir(dir, env) + [IconFileName(id)]
  {
    var parent := IconDir(dir, env);
    if dirCreated then Ok((parent, parent + [IconFileName(id)])) else Err(OsError)
  }

  /** Two icons never write the same file, whatever their directories. */
  lemma DistinctIdsDistinctFiles(d1: Option<Path>, d2: Option<Path>, a: nat, b: nat, env: Env)
    requires a != b
    ensures TempIconPath(d1, a, env, true).value.1 != TempIconPath(d2, b, env, true).value.1
  {
    var p := TempIconPath(d1, a, env, true).value.1;
    var q := TempIconPath(d2, b, env, true).value.1;
    if p == q {
      assert p[|p| - 1] == IconFileName(a);
      assert q[|q| - 1] == IconFileName(b);
      IconFileNameInjective(a, b);
    }
  }

  /** `set_visible` as written: showing sets `Passive` and hiding `Active`. */
  function StatusForVisibleAsWritten(visible: bool): IndicatorStatus
  {
    if visible then Passive else Active
  }

  /** `set_visible` corrected: showing sets `Active`, hiding `Passive`. */
  function StatusForVisible(visible: bool): (s: IndicatorStatus)
    ensures s == Active <==> visible
  {
    if visible then Active else Passive
  }

  /**
   * As written, `set_visible(true)` puts the indicator in the state `drop`
   * leaves it in, and `set_visible(false)` in the state `new` starts it in.
   */
  lemma SetVisibleAsWrittenInverted()
    ensures StatusForVisibleAsWritten(true) == Passive && StatusForVisibleAsWritten(false) == Active
    ensures StatusForVisibleAsWritten(true) != StatusForVisible(true)
  {
  }

  /** The GTK driver `TrayIcon` with the indicator's state it sets, and the icon files on disk. */
  class GtkTrayIcon {
    const id: nat
    var status: IndicatorStatus
    var themePath: Path
    var iconFull: Path
    var iconDesc: string
    var menu: Option<Menu>
    var labelText: string
    var tempDirPath: Option<Path>
    var path: Path
    /** The PNG files of this driver present on disk. */
    ghost var files: set<Path>

    constructor (id: nat, status: IndicatorStatus, themePath: Path, iconFull: Path, iconDesc: string, menu: Option<Menu>,
                 labelText: string, tempDirPath: Option<Path>, path: Path, ghost files: set<Path>)
      ensures this.id == id && this.status == status && this.themePath == themePath && this.iconFull == iconFull
      ensures this.iconDesc == iconDesc && this.menu == menu && this.labelText == labelText
      ensures this.tempDirPath == tempDirPath && this.path == path && this.files == files
    {
      this.id := id;
      this.status := status;
      this.themePath := themePath;
      this.iconFull := iconFull;
      this.iconDesc := iconDesc;
      this.menu := menu;
      this.labelText := labelText;
      this.tempDirPath := tempDirPath;
      this.path := path;
      this.files := files;
    }

    /**
     * `TrayIcon::new`: an active indicator pointing at the icon file (written
     * when there is an icon), with the menu and title from the attributes;
     * fails only when the icon directory cannot be created.
     */
    static method New(id: nat, attrs: TrayIconAttributes, env: Env, dirCreated: bool) returns (r: Result<GtkTrayIcon, Error>)
      ensures r.Ok? <==> dirCreated
      ensures r.Err? ==> r.error == OsError
      ensures r.Ok? ==> var t := r.value; var paths := TempIconPath(attrs.tempDirPath, id, env, true).value;
        && fresh(t) && t.id == id && t.status == Active
        && t.themePath == paths.0 && t.iconFull == paths.1 && t.path == paths.1 && t.iconDesc == "icon"
        && t.menu == attrs.menu && t.labelText == attrs.title.GetOr("") && t.tempDirPath == attrs.tempDirPath
        && t.files == (if attrs.icon.Some? then {paths.1} else {})
    {
      match TempIconPath(attrs.tempDirPath, id, env, dirCreated) {
        case Err(e) =>
          r := Err(e);
        case Ok((parentPath, iconPath)) =>
          ghost var written: set<Path> := if attrs.icon.Some? then {iconPath} else {};
          var labelText := if attrs.title.Some? then attrs.title.value else "";
          var t := new GtkTrayIcon(id, Active, parentPath, iconPath, "icon", attrs.menu, labelText, attrs.tempDirPath, iconPath, written);
          r := Ok(t);
      }
    }

    /**
     * `set_icon`: removes the current file first; if the directory cannot be
     * created it stops there with an error; otherwise it writes the new icon
     * (if any) and points the indicator and `path` at it.
     */
    method SetIcon(icon: Option<Icon>, env: Env, dirCreated: bool) returns (r: Result<(), Error>)
      modifies this
      ensures r.Ok? <==> dirCreated
      ensures r.Err? ==> r.error == OsError
      ensures r.Err? ==>
        && files == old(files) - {old(path)} && path == old(path) && iconFull == old(iconFull)
        && themePath == old(themePath) && iconDesc == old(iconDesc)
      ensures r.Ok? ==> var paths := TempIconPath(tempDirPath, id, env, true).value;
        && path == paths.1 && iconFull == paths.1 && themePath == paths.0 && iconDesc == "tray icon"
        && files == (old(files) - {old(path)}) + (if icon.Some? then {paths.1} else {})
      ensures status == old(status) && menu == old(menu) && labelText == old(labelText) && tempDirPath == old(tempDirPath)
    {
      files := files - {path};
      match TempIconPath(tempDirPath, id, env, dirCreated) {
        case Err(e) =>
          return Err(e);
        case Ok((parentPath, iconPath)) =>
          if icon.Some? {
            files := files + {iconPath};
          }
          themePath := parentPath;
          iconFull := iconPath;
          iconDesc := "tray icon";
          path := iconPath;
      }
      r := Ok(());
    }

    /** `set_menu`: a menu replaces the current one; `None` leaves it, since a menu cannot be removed. */
    method SetMenu(m: Option<Menu>)
      modifies this
      ensures menu == if m.Some? then m else old(menu)
      ensures status == old(status) && labelText == old(labelText) && path == old(path) && files == old(files)
      ensures themePath == old(themePath) && iconFull == old(iconFull) && iconDesc == old(iconDesc) && tempDirPath == old(tempDirPath)
    {
      if m.Some? {
        menu := m;
      }
    }

    /** `set_tooltip`: AppIndicator has no tooltip; it succeeds and changes nothing. */
    method SetTooltip(tooltip: Option<string>) returns (r: Result<(), Error>)
      ensures r == Ok(())
    {
      r := Ok(());
    }

    /** `set_title`: the labelText becomes the title, or empty for `None`. */
    method SetTitle(title: Option<string>)
      modifies this
      ensures labelText == title.GetOr("")
      ensures status == old(status) && menu == old(menu) && path == old(path) && files == old(files)
      ensures themePath == old(themePath) && iconFull == old(iconFull) && iconDesc == old(iconDesc) && tempDirPath == old(tempDirPath)
    {
      labelText := if title.Some? then title.value else "";
    }

    /** `set_visible`, corrected: `Active` to show, `Passive` to hide; always succeeds. */
    method SetVisible(visible: bool) returns (r: Result<(), Error>)
      modifies this
      ensures r == Ok(()) && status == StatusForVisible(visible)
      ensures menu == old(menu) && labelText == old(labelText) && path == old(path) && files == old(files)
      ensures themePath == old(themePath) && iconFull == old(iconFull) && iconDesc == old(iconDesc) && tempDirPath == old(tempDirPath)
    {
      status := StatusForVisible(visible);
      r := Ok(());
    }

    /** `set_temp_dir_path`: only the directory used by later `set_icon` calls changes. */
    method SetTempDirPath(dir: Option<Path>)
      modifies this
      ensures tempDirPath == dir
      ensures status == old(status) && menu == old(menu) && labelText == old(labelText) && path == old(path) && files == old(files)
      ensures iconFull == old(iconFull) && themePath == old(themePath) && iconDesc == old(iconDesc)
    {
      tempDirPath := dir;
    }

    /** `Drop`: the indicator goes passive and the icon file is removed. */
    method Drop()
      modifies this
      ensures status == Passive && files == old(files) - {path}
      ensures path == old(path) && themePath == old(themePath) && iconFull == old(iconFull) && iconDesc == old(iconDesc)
      ensures menu == old(menu) && labelText == old(labelText) && tempDirPath == old(tempDirPath)
    {
      status := Passive;
      files := files - {path};
    }
  }

  /** Setting an icon twice in the same directory reuses one file, and only the latest icon's file remains. */
  method SetIconTwice(t: GtkTrayIcon, i1: Icon, i2: Icon, env: Env)
    modifies t
    ensures t.path == TempIconPath(t.tempDirPath, t.id, env, true).value.1
    ensures t.files == (old(t.files) - {old(t.path)}) + {t.path}
  {
    var _ := t.SetIcon(Some(i1), env, true);
    var _ := t.SetIcon(Some(i2), env, true);
  }
}
