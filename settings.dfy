/**
 * The application settings read from `settings.toml`: one shared object,
 * and the lookups the rest of the program makes through it (database
 * engine and name, display sizes, design files, version and icon), each
 * with the fallback it uses when the file does not say.
 */
module AppSettings {
  import opened Wrappers
  import Text

  /** A TOML value.  Floats and dates are not part of this model. */
  datatype Toml =
    | TStr(s: string)
    | TInt(i: int)
    | TBool(b: bool)
    | TArray(items: seq<Toml>)
    | TTable(entries: map<string, Toml>)

  /** Python truthiness of a TOML value. */
  predicate Truthy(v: Toml)
  {
    match v
    case TStr(s) => s != ""
    case TInt(i) => i != 0
    case TBool(b) => b
    case TArray(items) => |items| > 0
    case TTable(entries) => |entries| > 0
  }

  /** Truthiness of what `dict.get` returned; `None` is falsy. */
  predicate IsTruthy(v: Option<Toml>)
  {
    v.Some? && Truthy(v.value)
  }

  /** Python's `str()` of a scalar; containers print as a placeholder. */
  function PyStr(v: Toml): (r: string)
    ensures v.TStr? ==> r == v.s
    ensures v.TInt? ==> r == Text.IntToString(v.i)
    ensures v.TBool? ==> r == (if v.b then "True" else "False")
  {
    match v
    case TStr(s) => s
    case TInt(i) => Text.IntToString(i)
    case TBool(b) => if b then "True" else "False"
    case TArray(_) => "[...]"
    case TTable(_) => "{...}"
  }

  /** `section.get(key)` behind an `isinstance(section, dict)` test, as
      `app_version` and `app_icon` make it: a section that is not a table
      is passed over and gives none. */
  function Get(section: Option<Toml>, key: string): (r: Option<Toml>)
    ensures section.Some? && section.value.TTable? && key in section.value.entries ==>
      r == Some(section.value.entries[key])
    ensures !(section.Some? && section.value.TTable? && key in section.value.entries) ==> r.None?
  {
    if section.Some? && section.value.TTable? && key in section.value.entries then
      Some(section.value.entries[key])
    else None
  }

  /** `section.get(key)` with no type test, as the database and display
      getters make it: on a table, the entry or none; on a string, number,
      boolean or array Python has no `get` and raises AttributeError. */
  function SectionGet(section: Toml, key: string): (r: Result<Option<Toml>, string>)
    ensures section.TTable? ==> r.Success? && r.value == Get(Some(section), key)
    ensures !section.TTable? <==> r == Failure("AttributeError")
  {
    match section
    case TTable(entries) => Success(if key in entries then Some(entries[key]) else None)
    case _ => Failure("AttributeError")
  }

  /** `data.get(key)` on the whole file. */
  function TopGet(data: map<string, Toml>, key: string): (r: Option<Toml>)
    ensures key in data ==> r == Some(data[key])
    ensures key !in data ==> r.None?
  {
    if key in data then Some(data[key]) else None
  }

  /** `os.path.join(a, b)`: an absolute `b` replaces `a`. */
  function PathJoin(a: string, b: string): (r: string)
    ensures |b| > 0 && b[0] == '/' ==> r == b
    ensures !(|b| > 0 && b[0] == '/') ==> r == a + (if a == "" || a[|a| - 1] == '/' then "" else "/") + b
  {
    if |b| > 0 && b[0] == '/' then b
    else if a == "" || a[|a| - 1] == '/' then a + b
    else a + "/" + b
  }

  class Settings {
    var settingData: map<string, Toml>
    var app: Option<Toml>
    var database: Option<Toml>
    var mainDisplay: Option<Toml>
    var customerDisplay: Option<Toml>
    var designFilesList: Option<Toml>

    /** The sections are those of the file last loaded. */
    ghost predicate Loaded(file: map<string, Toml>)
      reads this
    {
      && settingData == file
      && app == TopGet(file, "app")
      && database == TopGet(file, "database")
      && mainDisplay == TopGet(file, "main_display")
      && customerDisplay == TopGet(file, "customer_display")
      && designFilesList == TopGet(file, "design_files")
    }

    constructor (file: map<string, Toml>)
      ensures Loaded(file)
    {
      settingData := file;
      app := TopGet(file, "app");
      database := TopGet(file, "database");
      mainDisplay := TopGet(file, "main_display");
      customerDisplay := TopGet(file, "customer_display");
      designFilesList := TopGet(file, "design_files");
    }

    /** `__init__`, which runs again on every construction. */
    method Init(file: map<string, Toml>)
      modifies this
      ensures Loaded(file)
    {
      settingData := file;
      app := TopGet(file, "app");
      database := TopGet(file, "database");
      mainDisplay := TopGet(file, "main_display");
      customerDisplay := TopGet(file, "customer_display");
      designFilesList := TopGet(file, "design_files");
    }

    /** `db_engine`: none without a truthy database section, else the
        section's `engine`; a section that is not a table raises. */
    function DbEngine(): (r: Result<Option<Toml>, string>)
      reads this
      ensures !IsTruthy(database) ==> r == Success(None)
      ensures IsTruthy(database) && database.value.TTable? ==>
        r == Success(if "engine" in database.value.entries then Some(database.value.entries["engine"]) else None)
      ensures IsTruthy(database) && !database.value.TTable? ==> r == Failure("AttributeError")
    {
      if IsTruthy(database) then SectionGet(database.value, "engine") else Success(None)
    }

    /** `db_name`: none without a truthy database section, else the
        section's `database_name`; a section that is not a table raises. */
    function DbName(): (r: Result<Option<Toml>, string>)
      reads this
      ensures !IsTruthy(database) ==> r == Success(None)
      ensures IsTruthy(database) && database.value.TTable? ==>
        r == Success(if "database_name" in database.value.entries then Some(database.value.entries["database_name"]) else None)
      ensures IsTruthy(database) && !database.value.TTable? ==> r == Failure("AttributeError")
    {
      if IsTruthy(database) then SectionGet(database.value, "database_name") else Success(None)
    }

    /** `md_width`, `md_height`, `cd_width` and `cd_height`: the section's
        value when the section is truthy, else 1280 wide and 640 high; a
        truthy section that is not a table raises. */
    function DisplaySize(customer: bool, height: bool): (r: Result<Option<Toml>, string>)
      reads this
      ensures var section := if customer then customerDisplay else mainDisplay;
        var key := if height then "height" else "width";
        && (!IsTruthy(section) ==> r == Success(Some(TInt(if height then 640 else 1280))))
        && (IsTruthy(section) && section.value.TTable? ==>
             r == Success(if key in section.value.entries then Some(section.value.entries[key]) else None))
        && (IsTruthy(section) && !section.value.TTable? ==> r == Failure("AttributeError"))
    {
      var section := if customer then customerDisplay else mainDisplay;
      if IsTruthy(section) then SectionGet(section.value, if height then "height" else "width")
      else Success(Some(TInt(if height then 640 else 1280)))
    }

    /** `main_display_data` and `customer_display_data`: the entry of the
        design-files section when truthy, else none; indexing a missing
        section or key raises. */
    function DisplayData(customer: bool): (r: Result<Option<Toml>, string>)
      reads this
      ensures var key := if customer then "customer_display" else "main_display";
        && (designFilesList.None? || !designFilesList.value.TTable? ==> r == Failure("TypeError"))
        && (designFilesList.Some? && designFilesList.value.TTable? ==>
             if key !in designFilesList.value.entries then r == Failure("KeyError")
             else if Truthy(designFilesList.value.entries[key]) then r == Success(Some(designFilesList.value.entries[key]))
             else r == Success(None))
    {
      var key := if customer then "customer_display" else "main_display";
      if designFilesList.None? || !designFilesList.value.TTable? then Failure("TypeError")
      else if key !in designFilesList.value.entries then Failure("KeyError")
      else if Truthy(designFilesList.value.entries[key]) then Success(Some(designFilesList.value.entries[key]))
      else Success(None)
    }

    /** `app_version`: app.version, then application.version, then the
        top-level version or app_version, the first truthy one as text;
        "" when none is. */
    function AppVersion(): (r: string)
      reads this
      ensures IsTruthy(Get(app, "version")) ==> r == PyStr(Get(app, "version").value)
      ensures !IsTruthy(Get(app, "version")) && IsTruthy(Get(TopGet(settingData, "application"), "version")) ==>
        r == PyStr(Get(TopGet(settingData, "application"), "version").value)
      ensures !IsTruthy(Get(app, "version")) && !IsTruthy(Get(TopGet(settingData, "application"), "version")) ==>
        r == (if IsTruthy(TopGet(settingData, "version")) then PyStr(settingData["version"])
              else if IsTruthy(TopGet(settingData, "app_version")) then PyStr(settingData["app_version"])
              else "")
    {
      var v1 := Get(app, "version");
      var v2 := Get(TopGet(settingData, "application"), "version");
      var top := if IsTruthy(TopGet(settingData, "version")) then TopGet(settingData, "version")
                 else TopGet(settingData, "app_version");
      if IsTruthy(v1) then PyStr(v1.value)
      else if IsTruthy(v2) then PyStr(v2.value)
      else if IsTruthy(top) then PyStr(top.value)
      else ""
    }

    /** `app_icon`: app.icon joined to the project folder; without one,
        the bundled icon; "" when the icon is not text. */
    function AppIcon(projectPath: string): (r: string)
      reads this
      ensures var icon := Get(app, "icon");
        && (IsTruthy(icon) && icon.value.TStr? ==> r == PathJoin(projectPath, icon.value.s))
        && (IsTruthy(icon) && !icon.value.TStr? ==> r == "")
        && (!IsTruthy(icon) ==> r == DefaultIcon(projectPath))
    {
      var icon := Get(app, "icon");
      if IsTruthy(icon) then
        if icon.value.TStr? then PathJoin(projectPath, icon.value.s) else ""
      else DefaultIcon(projectPath)
    }
  }

  /** A database or display section written as plain text, a number or
      an array is truthy, so the getters reach `.get` on it and raise. */
  lemma ScalarSectionRaises(s: Settings, v: Toml, customer: bool, height: bool)
    requires !v.TTable? && Truthy(v)
    requires s.database == Some(v) && s.mainDisplay == Some(v) && s.customerDisplay == Some(v)
    ensures s.DbEngine() == s.DbName() == Failure("AttributeError")
    ensures s.DisplaySize(customer, height) == Failure("AttributeError")
  {
  }

  /** The bundled icon, `design_files/images/saleflex.ico` under the
      project folder: one slash is put after the folder unless it is empty
      or already ends in one. */
  function DefaultIcon(projectPath: string): (r: string)
    ensures r == projectPath + (if projectPath == "" || projectPath[|projectPath| - 1] == '/' then "" else "/") +
                 "design_files/images/saleflex.ico"
  {
    var prefix := projectPath + (if projectPath == "" || projectPath[|projectPath| - 1] == '/' then "" else "/");
    assert PathJoin(projectPath, "design_files") == prefix + "design_files";
    IconBelow(prefix);
    PathJoin(PathJoin(PathJoin(projectPath, "design_files"), "images"), "saleflex.ico")
  }

  /** Below a `design_files` folder the icon's path takes one slash per name. */
  lemma IconBelow(prefix: string)
    ensures PathJoin(PathJoin(prefix + "design_files", "images"), "saleflex.ico") ==
      prefix + "design_files/images/saleflex.ico"
  {
    var folder := prefix + "design_files";
    assert folder[|folder| - 1] == 's';
    JoinRelative(folder, "images");
    JoinRelative(folder + "/" + "images", "saleflex.ico");
    assert folder + "/" + "images" + "/" + "saleflex.ico" == prefix + "design_files/images/saleflex.ico";
  }

  /** Joining a relative name to a folder not ending in a slash puts one
      slash between them, and the result ends as the name does. */
  lemma JoinRelative(a: string, name: string)
    requires a != "" && a[|a| - 1] != '/'
    requires name != "" && name[0] != '/' && name[|name| - 1] != '/'
    ensures PathJoin(a, name) == a + "/" + name
    ensures PathJoin(a, name) != "" && PathJoin(a, name)[|PathJoin(a, name)| - 1] != '/'
  {
    var r := a + "/" + name;
    assert r[|r| - 1] == name[|name| - 1];
  }

  /** An absolute icon path is used as it is, whatever the project folder. */
  lemma AbsoluteIconKept(s: Settings, p: string, q: string)
    requires IsTruthy(Get(s.app, "icon")) && Get(s.app, "icon").value.TStr?
    requires Get(s.app, "icon").value.s[0] == '/'
    ensures s.AppIcon(p) == s.AppIcon(q) == Get(s.app, "icon").value.s
  {
  }

  /** A version under [app] wins over every other place a version can be. */
  lemma AppVersionFirst(s: Settings, v: string)
    requires s.app == Some(TTable(map["version" := TStr(v)])) && v != ""
    ensures s.AppVersion() == v
  {
  }

  /** The class-level slot that holds the one instance. */
  class Registry {
    var instance: Settings?

    constructor ()
      ensures instance == null
    {
      instance := null;
    }

    /** `Settings()`: the first construction makes the instance; every
        construction returns it and loads the file into it again. */
    method Construct(file: map<string, Toml>) returns (s: Settings)
      modifies this, instance
      ensures old(instance) != null ==> s == old(instance)
      ensures old(instance) == null ==> fresh(s)
      ensures instance == s && s.Loaded(file)
    {
      if instance == null {
        instance := new Settings(file);
      } else {
        instance.Init(file);
      }
      s := instance;
    }
  }

  /** Two constructions give the same object, holding the second file. */
  method ConstructTwice(file1: map<string, Toml>, file2: map<string, Toml>) returns (a: Settings, b: Settings)
    ensures a == b && b.Loaded(file2)
  {
    var registry := new Registry();
    a := registry.Construct(file1);
    b := registry.Construct(file2);
  }
}
