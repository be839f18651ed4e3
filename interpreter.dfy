/**
 * The design-file interpreter: for each display type it picks the TOML
 * design file named in the settings (or the default one), loads it, and
 * answers the window settings, toolbar settings and design list from it,
 * with built-in window settings when the file has none.  One instance is
 * kept and replaced whenever a different display type is asked for.
 */
module DesignInterpreter {
  import opened Wrappers
  import opened AppSettings

  datatype DisplayType =
    | Login | Menu | Sale | Service | Config | Parameter | Report
    | Function | Customer | Void | Refund | Stock | Closure

  /** The key each display type is looked up under: its name in lower case. */
  function KeyOf(d: DisplayType): (k: string)
    ensures k != "" && k != "default"
  {
    match d
    case Login => "login"
    case Menu => "menu"
    case Sale => "sale"
    case Service => "service"
    case Config => "config"
    case Parameter => "parameter"
    case Report => "report"
    case Function => "function"
    case Customer => "customer"
    case Void => "void"
    case Refund => "refund"
    case Stock => "stock"
    case Closure => "closure"
  }

  /** Distinct display types are looked up under distinct keys. */
  lemma KeysDistinct(d1: DisplayType, d2: DisplayType)
    requires d1 != d2
    ensures KeyOf(d1) != KeyOf(d2)
  {
  }

  const DesignFolder := "design_files/"
  const DefaultFile := "design_files/default.toml"

  /** `__set_toml_file_name`: "design_files/" and the file named under the
      display type's key in the main display's design files, when that
      entry is a table holding the key; the default file otherwise (also
      when reading the entry raised). */
  function TomlFileName(d: DisplayType, mainDisplayData: Result<Option<Toml>, string>): (r: string)
    ensures (mainDisplayData.Success? && mainDisplayData.value.Some? && mainDisplayData.value.value.TTable?
             && KeyOf(d) in mainDisplayData.value.value.entries) ==>
      r == DesignFolder + PyStr(mainDisplayData.value.value.entries[KeyOf(d)])
    ensures !(mainDisplayData.Success? && mainDisplayData.value.Some? && mainDisplayData.value.value.TTable?
              && KeyOf(d) in mainDisplayData.value.value.entries) ==>
      r == DefaultFile
  {
    match mainDisplayData
    case Failure(_) => DefaultFile
    case Success(None) => DefaultFile
    case Success(Some(v)) =>
      if v.TTable? && KeyOf(d) in v.entries then DesignFolder + PyStr(v.entries[KeyOf(d)]) else DefaultFile
  }

  /** What reading a file gives: a decoded table, or a decoding error. */
  datatype FileState = Decoded(data: map<string, Toml>) | Undecodable

  /** Loading in `__init__`: the chosen file if it exists (an undecodable
      one leaves no data); else the default file; else no data.  An
      undecodable default file raises. */
  function LoadDesign(fileName: string, files: map<string, FileState>): (r: Result<map<string, Toml>, string>)
    ensures fileName in files ==>
      r == Success(if files[fileName].Decoded? then files[fileName].data else map[])
    ensures fileName !in files && DefaultFile in files ==>
      r == (if files[DefaultFile].Decoded? then Success(files[DefaultFile].data) else Failure("TOMLDecodeError"))
    ensures fileName !in files && DefaultFile !in files ==> r == Success(map[])
  {
    if fileName in files then
      Success(if files[fileName].Decoded? then files[fileName].data else map[])
    else if DefaultFile in files then
      if files[DefaultFile].Decoded? then Success(files[DefaultFile].data) else Failure("TOMLDecodeError")
    else Success(map[])
  }

  /** The built-in window settings. */
  const DefaultWindow := TTable(map[
    "name" := TStr("SaleFlex"),
    "functionality" := TStr("NONE"),
    "login_required" := TBool(false),
    "toolbar" := TBool(false),
    "statusbar" := TBool(false),
    "background_color" := TInt(0xFF_FFFF),
    "foreground_color" := TInt(0),
    "width" := TInt(1280),
    "height" := TInt(640)])

  /** `settings`: the file's settings section when truthy, else the
      built-in ones. */
  function WindowSettings(data: map<string, Toml>): (r: Toml)
    ensures IsTruthy(TopGet(data, "settings")) ==> r == data["settings"]
    ensures !IsTruthy(TopGet(data, "settings")) ==> r == DefaultWindow
    ensures Truthy(r)
  {
    if IsTruthy(TopGet(data, "settings")) then data["settings"] else DefaultWindow
  }

  class Interpreter {
    var displayType: DisplayType
    var tomlFileName: string
    var designFileData: map<string, Toml>

    /** The state `__init__` leaves for display type `d`. */
    ghost predicate InitializedFor(d: DisplayType, mainDisplayData: Result<Option<Toml>, string>,
                                   files: map<string, FileState>)
      reads this
    {
      && displayType == d
      && tomlFileName == TomlFileName(d, mainDisplayData)
      && LoadDesign(tomlFileName, files).Success?
      && designFileData == LoadDesign(tomlFileName, files).value
    }

    constructor (d: DisplayType)
      ensures displayType == d && tomlFileName == DefaultFile && designFileData == map[]
    {
      displayType := d;
      tomlFileName := DefaultFile;
      designFileData := map[];
    }

    /** `__init__`: picks the file and loads it; fails where loading raises. */
    method Init(d: DisplayType, mainDisplayData: Result<Option<Toml>, string>, files: map<string, FileState>)
      returns (ok: bool)
      modifies this
      ensures ok <==> LoadDesign(TomlFileName(d, mainDisplayData), files).Success?
      ensures ok ==> InitializedFor(d, mainDisplayData, files)
    {
      displayType := d;
      tomlFileName := TomlFileName(d, mainDisplayData);
      designFileData := map[];
      var loaded := LoadDesign(tomlFileName, files);
      if loaded.Failure? {
        return false;
      }
      designFileData := loaded.value;
      ok := true;
    }

    /** `settings`: the loaded file's settings section when it is truthy;
        otherwise, and so whenever no file was loaded, the built-in window. */
    function Settings(): (r: Toml)
      reads this
      ensures "settings" in designFileData && Truthy(designFileData["settings"]) ==> r == designFileData["settings"]
      ensures !("settings" in designFileData && Truthy(designFileData["settings"])) ==> r == DefaultWindow
      ensures designFileData == map[] ==> r == DefaultWindow
      ensures Truthy(r)
    {
      WindowSettings(designFileData)
    }

    /** `toolbar_settings` and `design`: the sections, or none. */
    function Section(design: bool): (r: Option<Toml>)
      reads this
      ensures var key := if design then "design" else "toolbar_settings";
        (key in designFileData <==> r.Some?) && (r.Some? ==> r.value == designFileData[key])
    {
      TopGet(designFileData, if design then "design" else "toolbar_settings")
    }
  }

  /** The class-level instance and the display type it was made for. */
  class Registry {
    var instance: Interpreter?
    var displayType: Option<DisplayType>

    constructor ()
      ensures instance == null && displayType.None?
    {
      instance := null;
      displayType := None;
    }

    /** `Interpreter(display_type)`: the kept instance when it was made for
        the same display type, a new one otherwise; `__init__` then runs
        on it in either case. */
    method Construct(d: DisplayType, mainDisplayData: Result<Option<Toml>, string>, files: map<string, FileState>)
      returns (it: Interpreter, ok: bool)
      modifies this, instance
      ensures old(instance) != null && old(displayType) == Some(d) ==> it == old(instance)
      ensures old(instance) == null || old(displayType) != Some(d) ==> fresh(it)
      ensures instance == it && displayType == Some(d)
      ensures ok <==> LoadDesign(TomlFileName(d, mainDisplayData), files).Success?
      ensures ok ==> it.InitializedFor(d, mainDisplayData, files)
    {
      if instance == null || displayType != Some(d) {
        instance := new Interpreter(d);
        displayType := Some(d);
      }
      it := instance;
      ok := it.Init(d, mainDisplayData, files);
    }
  }

  /** The same display type twice gives one object; another display type
      then gives a new one. */
  method SameThenOther(d: DisplayType, e: DisplayType, mdd: Result<Option<Toml>, string>, files: map<string, FileState>)
    returns (a: Interpreter, b: Interpreter, c: Interpreter)
    requires d != e
    ensures a == b && c != b
  {
    var registry := new Registry();
    var ok;
    a, ok := registry.Construct(d, mdd, files);
    b, ok := registry.Construct(d, mdd, files);
    c, ok := registry.Construct(e, mdd, files);
  }

  /** With no design file for the display type and no default file, the
      window gets the built-in settings. */
  lemma NoFilesBuiltIn(d: DisplayType, mdd: Result<Option<Toml>, string>)
    ensures LoadDesign(TomlFileName(d, mdd), map[]) == Success(map[])
    ensures WindowSettings(map[]) == DefaultWindow
  {
  }

  /** A display type listed in the settings reads its own file. */
  lemma ListedFileRead(d: DisplayType, entries: map<string, Toml>, name: string, data: map<string, Toml>)
    requires KeyOf(d) in entries && entries[KeyOf(d)] == TStr(name)
    ensures var f := TomlFileName(d, Success(Some(TTable(entries))));
      f == DesignFolder + name &&
      LoadDesign(f, map[DesignFolder + name := Decoded(data)]) == Success(data)
  {
  }
}
