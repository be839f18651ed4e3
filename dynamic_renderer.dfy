/**
 * The form renderer: turns a stored form and its controls into the window
 * settings and the control designs a window is drawn from.  Colours are
 * read from hexadecimal text, defaults fill every missing column, controls
 * on a toolbar or status bar are left to those bars, buttons that open a
 * form get a `NAVIGATE_TO_FORM:<id>:<mode>` function, and the startup form
 * is the one with the smallest id text.
 */
module DynamicRenderer {
  import opened Wrappers
  import Text
  import Tables

  // ------------------------------------------------------------ colours

  /** A colour column as stored: NULL, text, or an integer. */
  datatype ColorValue = NoColor | ColorText(text: string) | ColorInt(value: int)

  /** Python's falsiness of a colour column: NULL, "" or 0. */
  predicate IsFalsy(c: ColorValue)
  {
    c.NoColor? || c == ColorText("") || c == ColorInt(0)
  }

  /** `parse_color`: a falsy column gives the default; "#…" is read in
      base 16 after the "#", any other text in base 16 (which admits a
      "0x" prefix); an integer is taken as it is; unreadable text gives
      the default. */
  function ParseColor(c: ColorValue, default: int): (r: int)
    ensures IsFalsy(c) ==> r == default
    ensures c.ColorInt? && c.value != 0 ==> r == c.value
    ensures c.ColorText? && c.text != "" ==>
      var digits := if c.text[0] == '#' then c.text[1..] else c.text;
      r == Text.ParseHex(digits).GetOr(default)
  {
    match c
    case NoColor => default
    case ColorInt(v) => if v == 0 then default else v
    case ColorText(s) =>
      if s == "" then default
      else if s[0] == '#' then Text.ParseHex(s[1..]).GetOr(default)
      else Text.ParseHex(s).GetOr(default)
  }

  /** The lower-case hexadecimal digit for `d`. */
  function HexChar(d: nat): (c: char)
    requires d < 16
    ensures Text.IsHexDigit(c) && Text.HexDigitValue(c) == d
  {
    if d < 10 then Text.DigitChar(d) else ('a' as int + d - 10) as char
  }

  /** The digits of `n` in base 16, as `format(n, "x")` writes them. */
  function NatToHex(n: nat): (s: string)
    ensures Text.IsHexDigits(s)
  {
    if n < 16 then [HexChar(n)] else NatToHex(n / 16) + [HexChar(n % 16)]
  }

  lemma {:induction false} NatToHexValue(n: nat)
    ensures Text.HexValue(NatToHex(n)) == n
  {
    if n >= 16 {
      var s := NatToHex(n);
      assert s[..|s| - 1] == NatToHex(n / 16);
      NatToHexValue(n / 16);
    }
  }

  /** Hexadecimal digits hold no white space, sign or prefix, so
      `int(s, 16)` reads them whole. */
  lemma ParseHexDigits(d: string)
    requires Text.IsHexDigits(d)
    ensures Text.ParseHex(d) == Some(Text.HexValue(d) as int)
  {
    assert Text.IsHexDigit(d[0]) && Text.IsHexDigit(d[|d| - 1]);
    Text.StripUnchanged(d);
    assert |d| >= 2 ==> Text.IsHexDigit(d[1]);
    assert Text.DropHexPrefix(d) == d;
  }

  /** A "0x" prefix is dropped before the digits are read. */
  lemma ParseHexPrefixed(d: string)
    requires Text.IsHexDigits(d)
    ensures Text.ParseHex("0x" + d) == Some(Text.HexValue(d) as int)
  {
    var z := "0x" + d;
    assert Text.IsHexDigit(z[|z| - 1]);
    Text.StripUnchanged(z);
    assert z[2..] == d;
    assert Text.DropHexPrefix(z) == d;
  }

  /** "#d", "0xd" and plain "d" name the same colour. */
  lemma ParseColorForms(d: string, default: int)
    requires Text.IsHexDigits(d) && Text.HexValue(d) != 0
    ensures ParseColor(ColorText("#" + d), default) == Text.HexValue(d)
    ensures ParseColor(ColorText("0x" + d), default) == Text.HexValue(d)
    ensures ParseColor(ColorText(d), default) == Text.HexValue(d)
  {
    ParseHexDigits(d);
    ParseHexPrefixed(d);
    assert ("#" + d)[1..] == d;
    assert d[0] != '#' by { assert Text.IsHexDigit(d[0]); }
  }

  /** A colour written as "#" and its hexadecimal digits reads back as itself. */
  lemma ColorRoundTrip(n: nat, default: int)
    ensures ParseColor(ColorText("#" + NatToHex(n)), default) == n
  {
    var d := NatToHex(n);
    NatToHexValue(n);
    ParseHexDigits(d);
    assert ("#" + d)[1..] == d;
  }

  /** Text that is not a hexadecimal number gives the default. */
  lemma MalformedColorIsDefault(s: string, default: int)
    requires s != "" && s[0] != '#' && Text.ParseHex(s).None?
    ensures ParseColor(ColorText(s), default) == default
  {
  }

  // ------------------------------------------------------------ forms

  /** A `Form` row.  NULL text columns hold ""; NULL numbers are `None`. */
  datatype Form = Form(
    id: string,
    name: string,
    caption: string,
    functionName: string,
    needLogin: bool,
    showInTaskbar: bool,
    showStatusBar: bool,
    backColor: ColorValue,
    foreColor: ColorValue,
    width: Option<int>,
    height: Option<int>,
    useVirtualKeyboard: bool,
    isStartup: bool,
    isDeleted: bool)

  /** The settings a window is drawn with. */
  datatype WindowSettings = WindowSettings(
    name: string,
    functionality: string,
    loginRequired: bool,
    toolbar: bool,
    statusbar: bool,
    backgroundColor: int,
    foregroundColor: int,
    width: int,
    height: int)

  const White := 0xFF_FFFF
  const Black := 0x00_0000

  /** `_get_default_settings`. */
  const DefaultSettings := WindowSettings("SaleFlex", "NONE", false, false, false, White, Black, 1024, 768)

  /** Python's `text or default`. */
  function OrText(s: string, default: string): (r: string)
    ensures s != "" ==> r == s
    ensures s == "" ==> r == default
  {
    if s != "" then s else default
  }

  /** Python's `number or default`: NULL and 0 fall back. */
  function OrInt(x: Option<int>, default: int): (r: int)
    ensures x.Some? && x.value != 0 ==> r == x.value
    ensures x.None? || x.value == 0 ==> r == default
  {
    if x.Some? && x.value != 0 then x.value else default
  }

  /** `settings`: the defaults without a form; with one, its columns, each
      falling back to the default when it is empty. */
  function Settings(form: Option<Form>): (r: WindowSettings)
    ensures form.None? ==> r == DefaultSettings
    ensures form.Some? ==>
      var f := form.value;
      && r.name == OrText(f.caption, OrText(f.name, "SaleFlex"))
      && r.functionality == OrText(f.functionName, "NONE")
      && r.loginRequired == f.needLogin && r.toolbar == f.showInTaskbar && r.statusbar == f.showStatusBar
      && r.backgroundColor == ParseColor(f.backColor, White)
      && r.foregroundColor == ParseColor(f.foreColor, Black)
      && r.width == OrInt(f.width, 1024) && r.height == OrInt(f.height, 768)
  {
    match form
    case None => DefaultSettings
    case Some(f) =>
      WindowSettings(OrText(f.caption, OrText(f.name, "SaleFlex")), OrText(f.functionName, "NONE"),
                     f.needLogin, f.showInTaskbar, f.showStatusBar,
                     ParseColor(f.backColor, White), ParseColor(f.foreColor, Black),
                     OrInt(f.width, 1024), OrInt(f.height, 768))
  }

  /** A window always has a name and a non-zero size. */
  lemma SettingsAlwaysNamed(form: Option<Form>)
    ensures Settings(form).name != ""
    ensures Settings(form).width != 0 && Settings(form).height != 0
    ensures form.Some? && form.value.caption == "" && form.value.name == "" ==> Settings(form).name == "SaleFlex"
  {
  }

  /** The renderer's form: by id when one is given (deleted or not),
      else the first live form with that name. */
  function LoadForm(formId: string, formName: string, forms: seq<Form>): (r: Option<Form>)
    ensures formId != "" ==>
      match Tables.FindFirst(forms, (f: Form) => f.id == formId)
      case None => r.None?
      case Some(k) => r == Some(forms[k])
    ensures formId == "" && formName == "" ==> r.None?
    ensures formId == "" && formName != "" ==>
      (r.None? <==> forall k :: 0 <= k < |forms| ==> forms[k].name != formName || forms[k].isDeleted)
    ensures formId == "" && r.Some? ==> r.value in forms && r.value.name == formName && !r.value.isDeleted
  {
    if formId != "" then
      match Tables.FindFirst(forms, (f: Form) => f.id == formId)
      case None => None
      case Some(k) => Some(forms[k])
    else if formName != "" then
      match Tables.FindFirst(forms, (f: Form) => f.name == formName && !f.isDeleted)
      case None => None
      case Some(k) => Some(forms[k])
    else None
  }

  /** The controls drawn on a form: its live, visible controls, in order. */
  function LoadControls(form: Option<Form>, all: seq<FormControl>): (r: seq<FormControl>)
    ensures form.None? ==> r == []
    ensures form.Some? ==> forall c :: c in r <==> c in all && c.formId == form.value.id && !c.isDeleted && c.isVisible
  {
    if form.None? then []
    else Tables.Select(all, (c: FormControl) => c.formId == form.value.id && !c.isDeleted && c.isVisible)
  }

  // ------------------------------------------------------------ controls

  /** A `FormControl` row.  NULL text columns hold ""; NULL numbers are `None`. */
  datatype FormControl = FormControl(
    id: string,
    formId: string,
    parentId: Option<string>,
    typeName: string,
    name: string,
    caption1: string,
    locationX: Option<int>,
    locationY: Option<int>,
    width: Option<int>,
    height: Option<int>,
    backColor: ColorValue,
    foreColor: ColorValue,
    inputType: string,
    textAlignment: string,
    fontSize: Option<int>,
    targetFormId: Option<string>,
    transitionMode: string,
    function1: string,
    function2: string,
    listValues: string,
    image: string,
    isVisible: bool,
    isDeleted: bool)

  /** The properties only some control types carry. */
  datatype Extra =
    | NoExtra
    | TextboxExtra(fieldName: string, placeHolder: string, inputType: string, alignment: string,
                   fontSize: int, useKeyboard: bool)
    | ButtonExtra(functionName: string)
    | ComboboxExtra(items: seq<string>, fontSize: int, comboFunction: Option<string>,
                    function1: Option<string>, function2: Option<string>, typeName: string)
    | NumpadExtra(functionName: string)
    | ListExtra(listFunction: Option<string>)

  /** One entry of the design list. */
  datatype ControlDesign = ControlDesign(
    typeName: string,
    name: string,
    caption: string,
    x: int,
    y: int,
    width: int,
    height: int,
    backgroundColor: int,
    foregroundColor: int,
    extra: Extra)

  const NavigatePrefix := "NAVIGATE_TO_FORM"
  const DefaultTransition := "REPLACE"

  /** The function of a button that opens form `target`. */
  function NavigateFunction(target: string, mode: string): (r: string)
    ensures r == Text.Join([NavigatePrefix, target, OrText(mode, DefaultTransition)], ':')
  {
    var parts := [NavigatePrefix, target, OrText(mode, DefaultTransition)];
    assert Text.Join(parts[2..], ':') == parts[2];
    assert Text.Join(parts[1..], ':') == target + ":" + parts[2] by {
      assert parts[1..][1..] == parts[2..];
    }
    NavigatePrefix + ":" + target + ":" + OrText(mode, DefaultTransition)
  }

  /** Python's `text or None`. */
  function TextOrNone(s: string): (r: Option<string>)
    ensures r.None? <==> s == ""
    ensures r.Some? ==> r.value == s
  {
    if s == "" then None else Some(s)
  }

  /** `_convert_control_to_design`. */
  function ConvertControl(c: FormControl, form: Option<Form>): (r: ControlDesign)
    ensures r.typeName == Text.Lower(c.typeName) && r.name == c.name && r.caption == c.caption1
    ensures r.x == OrInt(c.locationX, 0) && r.y == OrInt(c.locationY, 0)
    ensures r.width == OrInt(c.width, 0) && r.height == OrInt(c.height, 0)
    ensures r.backgroundColor == ParseColor(c.backColor, White)
    ensures r.foregroundColor == ParseColor(c.foreColor, Black)
    ensures r.typeName == "button" && c.targetFormId.Some? ==>
      r.extra == ButtonExtra(NavigateFunction(c.targetFormId.value, c.transitionMode))
    ensures r.typeName == "button" && c.targetFormId.None? ==> r.extra == ButtonExtra(OrText(c.function1, "NONE"))
    ensures r.typeName == "textbox" ==>
      r.extra == TextboxExtra(c.name, c.caption1,
                              if c.inputType != "" then Text.Lower(c.inputType) else "alphanumeric",
                              if c.textAlignment != "" then Text.Lower(c.textAlignment) else "left",
                              OrInt(c.fontSize, 12), form.Some? && form.value.useVirtualKeyboard)
    ensures r.typeName == "combobox" ==>
      r.extra == ComboboxExtra(if c.listValues != "" then Text.Split(c.listValues, ',') else [],
                               OrInt(c.fontSize, 12), TextOrNone(c.function1), TextOrNone(c.function1),
                               TextOrNone(c.function2), c.typeName)
    ensures r.typeName == "numpad" ==> r.extra == NumpadExtra(OrText(c.function1, "NONE"))
    ensures r.typeName == "payment_list" || r.typeName == "sale_list" ==> r.extra == ListExtra(TextOrNone(c.function1))
    ensures r.typeName !in ["textbox", "button", "combobox", "numpad", "payment_list", "sale_list"] ==> r.extra == NoExtra
  {
    var t := Text.Lower(c.typeName);
    var extra :=
      if t == "textbox" then
        TextboxExtra(c.name, c.caption1,
                     if c.inputType != "" then Text.Lower(c.inputType) else "alphanumeric",
                     if c.textAlignment != "" then Text.Lower(c.textAlignment) else "left",
                     OrInt(c.fontSize, 12), form.Some? && form.value.useVirtualKeyboard)
      else if t == "button" then
        if c.targetFormId.Some? then ButtonExtra(NavigateFunction(c.targetFormId.value, c.transitionMode))
        else ButtonExtra(OrText(c.function1, "NONE"))
      else if t == "combobox" then
        ComboboxExtra(if c.listValues != "" then Text.Split(c.listValues, ',') else [],
                      OrInt(c.fontSize, 12), TextOrNone(c.function1), TextOrNone(c.function1),
                      TextOrNone(c.function2), c.typeName)
      else if t == "numpad" then NumpadExtra(OrText(c.function1, "NONE"))
      else if t == "payment_list" || t == "sale_list" then ListExtra(TextOrNone(c.function1))
      else NoExtra;
    ControlDesign(t, c.name, c.caption1, OrInt(c.locationX, 0), OrInt(c.locationY, 0),
                  OrInt(c.width, 0), OrInt(c.height, 0),
                  ParseColor(c.backColor, White), ParseColor(c.foreColor, Black), extra)
  }

  /** A combobox's items joined with "," give back its stored list. */
  lemma ComboboxItemsRejoin(c: FormControl, form: Option<Form>)
    requires Text.Lower(c.typeName) == "combobox"
    ensures Text.Join(ConvertControl(c, form).extra.items, ',') == c.listValues
  {
    if c.listValues != "" {
      Text.JoinSplit(c.listValues, ',');
    }
  }

  /** A textbox's input type and alignment come out in lower case. */
  lemma TextboxSettingsLowered(c: FormControl, form: Option<Form>)
    requires Text.Lower(c.typeName) == "textbox"
    ensures var e := ConvertControl(c, form).extra;
      Text.Lower(e.inputType) == e.inputType && Text.Lower(e.alignment) == e.alignment
  {
    Text.LowerIdempotent(c.inputType);
    Text.LowerIdempotent(c.textAlignment);
  }

  // ------------------------------------------------------------ design list

  /** A toolbar or status-bar control, whatever the case of its type. */
  predicate IsBar(typeName: string)
  {
    Text.Lower(typeName) == "toolbar" || Text.Lower(typeName) == "statusbar"
  }

  /** `_find_control_by_id`: the first control with that id. */
  function FindControlById(cs: seq<FormControl>, id: string): (r: Option<nat>)
    ensures r.Some? ==> r.value < |cs| && cs[r.value].id == id
    ensures r.None? ==> forall k :: 0 <= k < |cs| ==> cs[k].id != id
  {
    Tables.FindFirst(cs, (x: FormControl) => x.id == id)
  }

  /** A control the design list shows: not a bar, and not on a bar. */
  predicate Shown(all: seq<FormControl>, c: FormControl)
  {
    && !IsBar(c.typeName)
    && !(c.parentId.Some? &&
         match FindControlById(all, c.parentId.value)
         case None => false
         case Some(k) => IsBar(all[k].typeName))
  }

  /** The designs of the shown controls among `rest`, in order. */
  function DesignRows(all: seq<FormControl>, rest: seq<FormControl>, form: Option<Form>): seq<ControlDesign>
  {
    if |rest| == 0 then []
    else
      var last := rest[|rest| - 1];
      DesignRows(all, rest[..|rest| - 1], form) + (if Shown(all, last) then [ConvertControl(last, form)] else [])
  }

  /** No entry of the design list is a toolbar or a status bar, and the
      list is never longer than the controls. */
  lemma {:induction false} DesignOmitsBars(all: seq<FormControl>, rest: seq<FormControl>, form: Option<Form>)
    ensures |DesignRows(all, rest, form)| <= |rest|
    ensures forall d :: d in DesignRows(all, rest, form) ==> d.typeName != "toolbar" && d.typeName != "statusbar"
  {
    if |rest| > 0 {
      DesignOmitsBars(all, rest[..|rest| - 1], form);
    }
  }

  /** With no bars on the form, every control is shown. */
  lemma ShownWithoutBars(all: seq<FormControl>, c: FormControl)
    requires forall k :: 0 <= k < |all| ==> !IsBar(all[k].typeName)
    requires !IsBar(c.typeName)
    ensures Shown(all, c)
  {
  }

  /** With no bars on the form, every control is designed, in order. */
  lemma {:induction false} DesignWithoutBars(all: seq<FormControl>, rest: seq<FormControl>, form: Option<Form>)
    requires forall k :: 0 <= k < |all| ==> !IsBar(all[k].typeName)
    requires forall k :: 0 <= k < |rest| ==> !IsBar(rest[k].typeName)
    ensures |DesignRows(all, rest, form)| == |rest|
    ensures forall k :: 0 <= k < |rest| ==> DesignRows(all, rest, form)[k] == ConvertControl(rest[k], form)
  {
    if |rest| > 0 {
      var prefix := rest[..|rest| - 1];
      var last := rest[|rest| - 1];
      DesignWithoutBars(all, prefix, form);
      ShownWithoutBars(all, last);
      var prev := DesignRows(all, prefix, form);
      assert DesignRows(all, rest, form) == prev + [ConvertControl(last, form)];
      forall k | 0 <= k < |rest|
        ensures DesignRows(all, rest, form)[k] == ConvertControl(rest[k], form)
      {
        if k < |rest| - 1 {
          assert rest[k] == prefix[k];
        }
      }
    }
  }

  /** A renderer holds the form it was built for and that form's
      drawable controls. */
  class FormRenderer {
    const form: Option<Form>
    const controls: seq<FormControl>

    /** Loads the form by id or name, and its live, visible controls. */
    constructor (formId: string, formName: string, forms: seq<Form>, allControls: seq<FormControl>)
      ensures form == LoadForm(formId, formName, forms)
      ensures controls == LoadControls(form, allControls)
    {
      form := LoadForm(formId, formName, forms);
      controls := LoadControls(LoadForm(formId, formName, forms), allControls);
    }

    /** `design`: no form, no designs; otherwise the shown controls
        converted, in order. */
    method Design() returns (list: seq<ControlDesign>)
      ensures form.None? ==> list == []
      ensures form.Some? ==> list == DesignRows(controls, controls, form)
    {
      if form.None? {
        return [];
      }
      list := [];
      var i := 0;
      while i < |controls|
        invariant 0 <= i <= |controls|
        invariant list == DesignRows(controls, controls[..i], form)
      {
        var c := controls[i];
        assert controls[..i + 1][..i] == controls[..i];
        if Shown(controls, c) {
          list := list + [ConvertControl(c, form)];
        }
        i := i + 1;
      }
      assert controls[..i] == controls;
    }
  }

  // ------------------------------------------------------------ toolbar

  datatype BackButton = BackButton(caption: string, image: string)

  /** The toolbar settings: the back button, if the toolbar has one. */
  datatype ToolbarConfig = ToolbarConfig(back: Option<BackButton>)

  /** A child of the toolbar whose name mentions "back". */
  predicate IsBackButton(c: FormControl, toolbarId: string)
  {
    c.parentId == Some(toolbarId) && Text.Contains(Text.Lower(c.name), "back")
  }

  /** The back button of the toolbar: the last of its back children wins. */
  function BackOf(cs: seq<FormControl>, toolbarId: string): Option<BackButton>
  {
    if |cs| == 0 then None
    else if IsBackButton(cs[|cs| - 1], toolbarId) then
      Some(BackButton(OrText(cs[|cs| - 1].caption1, "Back"), cs[|cs| - 1].image))
    else BackOf(cs[..|cs| - 1], toolbarId)
  }

  /** There is a back button exactly when the toolbar has a back child; it
      is made from the last such child, and its caption is never empty. */
  lemma {:induction false} BackOfSpec(cs: seq<FormControl>, toolbarId: string)
    ensures var r := BackOf(cs, toolbarId);
      && (r.None? <==> forall k :: 0 <= k < |cs| ==> !IsBackButton(cs[k], toolbarId))
      && (r.Some? ==>
            exists k :: (0 <= k < |cs| && IsBackButton(cs[k], toolbarId) &&
                         r.value == BackButton(OrText(cs[k].caption1, "Back"), cs[k].image) &&
                         forall j :: k < j < |cs| ==> !IsBackButton(cs[j], toolbarId)))
      && (r.Some? ==> r.value.caption != "")
  {
    if |cs| == 0 {
    } else if IsBackButton(cs[|cs| - 1], toolbarId) {
      var k := |cs| - 1;
      assert IsBackButton(cs[k], toolbarId);
    } else {
      var init := cs[..|cs| - 1];
      BackOfSpec(init, toolbarId);
      assert forall k :: 0 <= k < |init| ==> init[k] == cs[k];
      var r := BackOf(cs, toolbarId);
      assert r == BackOf(init, toolbarId);
      if r.Some? {
        var k :| 0 <= k < |init| && IsBackButton(init[k], toolbarId) &&
                 r.value == BackButton(OrText(init[k].caption1, "Back"), init[k].image) &&
                 forall j :: k < j < |init| ==> !IsBackButton(init[j], toolbarId);
        assert IsBackButton(cs[k], toolbarId) && forall j :: k < j < |cs| ==> !IsBackButton(cs[j], toolbarId);
      }
    }
  }

  /** A control of toolbar type. */
  predicate IsToolbar(c: FormControl)
  {
    Text.Lower(c.typeName) == "toolbar"
  }

  /** `toolbar_settings`: only a form marked `show_in_taskbar` with a toolbar
      control has toolbar settings. */
  function ToolbarSettings(form: Option<Form>, cs: seq<FormControl>): (r: Option<ToolbarConfig>)
    ensures r.Some? <==> form.Some? && form.value.showInTaskbar && exists k :: 0 <= k < |cs| && IsToolbar(cs[k])
    ensures r.Some? ==>
      var k := Tables.FindFirst(cs, IsToolbar).value;
      r.value.back == BackOf(cs, cs[k].id)
  {
    if form.None? || !form.value.showInTaskbar then None
    else match Tables.FindFirst(cs, IsToolbar)
      case None => None
      case Some(k) => Some(ToolbarConfig(BackOf(cs, cs[k].id)))
  }

  // ------------------------------------------------------------ startup form

  /** Python's `<` on strings: code point by code point, a proper prefix first. */
  predicate StrLess(a: string, b: string)
    decreases |a|
  {
    |b| > 0 && (|a| == 0 || a[0] < b[0] || (a[0] == b[0] && StrLess(a[1..], b[1..])))
  }

  lemma {:induction false} StrLessTransitive(a: string, b: string, c: string)
    requires StrLess(a, b) && StrLess(b, c)
    ensures StrLess(a, c)
    decreases |a|
  {
    if |a| > 0 && a[0] == b[0] && b[0] == c[0] {
      StrLessTransitive(a[1..], b[1..], c[1..]);
    }
  }

  lemma {:induction false} StrLessIrreflexive(a: string)
    ensures !StrLess(a, a)
    decreases |a|
  {
    if |a| > 0 {
      StrLessIrreflexive(a[1..]);
    }
  }

  /** The first form whose id text is smallest: what sorting by `str(id)`
      (a stable sort) puts first. */
  function FirstById(fs: seq<Form>): (m: Form)
    requires |fs| > 0
    ensures m in fs
    ensures forall k :: 0 <= k < |fs| ==> !StrLess(fs[k].id, m.id)
  {
    if |fs| == 1 then
      StrLessIrreflexive(fs[0].id);
      fs[0]
    else
      var prefix := fs[..|fs| - 1];
      var best := FirstById(prefix);
      var last := fs[|fs| - 1];
      assert forall k :: 0 <= k < |fs| - 1 ==> fs[k] == prefix[k];
      if StrLess(last.id, best.id) then
        assert forall k :: 0 <= k < |fs| - 1 ==> !StrLess(fs[k].id, last.id) by {
          forall k | 0 <= k < |fs| - 1
            ensures !StrLess(fs[k].id, last.id)
          {
            if StrLess(fs[k].id, last.id) {
              StrLessTransitive(fs[k].id, last.id, best.id);
            }
          }
        }
        StrLessIrreflexive(last.id);
        last
      else
        best
  }

  predicate IsLiveStartup(f: Form)
  {
    f.isStartup && !f.isDeleted
  }

  predicate IsLiveLogin(f: Form)
  {
    f.name == "LOGIN" && !f.isDeleted
  }

  /** `get_startup_form`: the live startup form with the smallest id text;
      else the first live LOGIN form; else none. */
  function GetStartupForm(forms: seq<Form>): (r: Option<Form>)
    ensures (exists k :: 0 <= k < |forms| && IsLiveStartup(forms[k])) ==>
      r.Some? && IsLiveStartup(r.value) && r.value in forms &&
      forall k :: 0 <= k < |forms| && IsLiveStartup(forms[k]) ==> !StrLess(forms[k].id, r.value.id)
    ensures (forall k :: 0 <= k < |forms| ==> !IsLiveStartup(forms[k])) ==>
      match Tables.FindFirst(forms, IsLiveLogin)
      case None => r.None?
      case Some(k) => r == Some(forms[k])
  {
    var startups := Tables.Select(forms, IsLiveStartup);
    if |startups| > 0 then
      var m := FirstById(startups);
      assert forall k :: 0 <= k < |forms| && IsLiveStartup(forms[k]) ==> forms[k] in startups;
      Some(m)
    else
      assert forall k :: 0 <= k < |forms| && IsLiveStartup(forms[k]) ==> forms[k] in startups;
      match Tables.FindFirst(forms, IsLiveLogin)
      case None => None
      case Some(k) => Some(forms[k])
  }
}
