/**
 * The general event handlers: login and logout, back navigation, and the
 * field conversion applied when a settings panel is saved.
 */
module GeneralEvent {
  import opened Wrappers
  import opened Text
  import opened Documents
  import opened Catalog
  import opened CurrentStatus
  import DocumentManager

  // ---------------------------------------------------------------- panel names

  /** Python's ''.join(parts). */
  function Concat(parts: seq<string>): string
  {
    if |parts| == 0 then "" else parts[0] + Concat(parts[1..])
  }

  function CapitalizeAll(parts: seq<string>): (r: seq<string>)
    ensures |r| == |parts|
  {
    seq(|parts|, i requires 0 <= i < |parts| => Capitalize(parts[i]))
  }

  /** `_panel_name_to_model_class`: "POS_SETTINGS" becomes "PosSettings".
      The class name has no underscore and keeps every other character. */
  function PanelNameToModelClass(panelName: string): (r: string)
    ensures '_' !in r
    ensures |r| == |panelName| - CountChar(panelName, '_')
  {
    CapitalizedPartsShape(panelName);
    Concat(CapitalizeAll(Split(Lower(panelName), '_')))
  }

  function CountChar(s: string, c: char): nat
  {
    if |s| == 0 then 0 else (if s[0] == c then 1 else 0) + CountChar(s[1..], c)
  }

  function TotalLength(parts: seq<string>): nat
  {
    if |parts| == 0 then 0 else |parts[0]| + TotalLength(parts[1..])
  }

  lemma {:induction false} ConcatLength(parts: seq<string>)
    ensures |Concat(parts)| == TotalLength(parts)
  {
    if |parts| > 0 {
      ConcatLength(parts[1..]);
    }
  }

  lemma {:induction false} ConcatFree(parts: seq<string>, c: char)
    requires forall k :: 0 <= k < |parts| ==> c !in parts[k]
    ensures c !in Concat(parts)
  {
    if |parts| > 0 {
      ConcatFree(parts[1..], c);
    }
  }

  lemma {:induction false} CapitalizeAllLength(parts: seq<string>)
    ensures TotalLength(CapitalizeAll(parts)) == TotalLength(parts)
  {
    if |parts| > 0 {
      assert CapitalizeAll(parts)[1..] == CapitalizeAll(parts[1..]);
      CapitalizeAllLength(parts[1..]);
    }
  }

  /** split(c) yields one piece more than there are separators, holding every other character. */
  lemma {:induction false} SplitCounts(s: string, c: char)
    ensures |Split(s, c)| == CountChar(s, c) + 1
    ensures TotalLength(Split(s, c)) + CountChar(s, c) == |s|
  {
    if |s| > 0 {
      SplitCounts(s[1..], c);
      var rest := Split(s[1..], c);
      if s[0] != c {
        assert TotalLength(rest) == |rest[0]| + TotalLength(rest[1..]);
      }
    }
  }

  lemma {:induction false} LowerKeepsUnderscores(s: string)
    ensures CountChar(Lower(s), '_') == CountChar(s, '_')
  {
    if |s| > 0 {
      assert Lower(s)[1..] == Lower(s[1..]);
      LowerKeepsUnderscores(s[1..]);
    }
  }

  /** The class name has no underscore, and every other character of the panel name survives. */
  lemma CapitalizedPartsShape(panelName: string)
    ensures var r := Concat(CapitalizeAll(Split(Lower(panelName), '_')));
      '_' !in r && |r| == |panelName| - CountChar(panelName, '_')
  {
    var parts := Split(Lower(panelName), '_');
    SplitPiecesFree(Lower(panelName), '_');
    forall k | 0 <= k < |parts|
      ensures '_' !in CapitalizeAll(parts)[k]
    {
      var p := parts[k];
      assert '_' !in p;
      if |p| > 0 {
        assert Capitalize(p) == [UpperChar(p[0])] + Lower(p[1..]);
      }
    }
    ConcatFree(CapitalizeAll(parts), '_');
    ConcatLength(CapitalizeAll(parts));
    CapitalizeAllLength(parts);
    SplitCounts(Lower(panelName), '_');
    LowerKeepsUnderscores(panelName);
  }

  // ---------------------------------------------------------------- login

  /** What the login form offers: the CASHIER_NAME_LIST selection when that
      combobox exists, and the "user_name" and "PASSWORD" textboxes ("" when absent). */
  datatype LoginForm = LoginForm(combo: Option<string>, userName: string, password: string)

  datatype LoginOutcome = Rejected | AsAdmin | AsCashier(cashier: Cashier)

  predicate Matches(c: Cashier, userName: string, password: string)
  {
    c.userName == userName && c.password == password && !c.isDeleted
  }

  /** The first cached cashier with these credentials. */
  function FirstMatch(cs: seq<Cashier>, userName: string, password: string): (r: Option<Cashier>)
    ensures r.Some? ==> r.value in cs && Matches(r.value, userName, password)
    ensures r.None? <==> forall c :: c in cs ==> !Matches(c, userName, password)
  {
    if |cs| == 0 then None
    else if Matches(cs[0], userName, password) then Some(cs[0])
    else FirstMatch(cs[1..], userName, password)
  }

  /** The first cached, live cashier named "admin". */
  function FirstAdmin(cs: seq<Cashier>): (r: Option<Cashier>)
    ensures r.Some? ==> r.value in cs && r.value.userName == "admin" && !r.value.isDeleted
    ensures r.None? ==> forall c :: c in cs ==> c.userName != "admin" || c.isDeleted
  {
    if |cs| == 0 then None
    else if cs[0].userName == "admin" && !cs[0].isDeleted then Some(cs[0])
    else FirstAdmin(cs[1..])
  }

  /** The user name in a combobox entry "username (name lastname)". */
  function ComboUserName(selected: string): string
  {
    if Contains(selected, " (") then Strip(BeforeFirst(selected, " (")) else Strip(selected)
  }

  lemma {:induction false} ContainsAfter(a: string, sub: string, rest: string)
    ensures Contains(a + sub + rest, sub)
  {
    if |a| > 0 {
      assert (a + sub + rest)[1..] == a[1..] + sub + rest;
      ContainsAfter(a[1..], sub, rest);
    }
  }

  lemma {:induction false} BeforeParenthesis(u: string, rest: string)
    requires '(' !in u
    ensures BeforeFirst(u + " (" + rest, " (") == u
  {
    var s := u + " (" + rest;
    if |u| > 0 {
      if |u| > 1 {
        assert s[1] == u[1];
      } else {
        assert s[1] == ' ';
      }
      assert !(" (" <= s);
      assert s[1..] == u[1..] + " (" + rest;
      BeforeParenthesis(u[1..], rest);
    }
  }

  /** An entry displayed as "username (full name)" logs in as the stripped user name. */
  lemma ComboUserNameOfEntry(u: string, fullName: string)
    requires '(' !in u
    ensures ComboUserName(u + " (" + fullName + ")") == Strip(u)
  {
    ContainsAfter(u, " (", fullName + ")");
    assert u + " (" + fullName + ")" == u + " (" + (fullName + ")");
    BeforeParenthesis(u, fullName + ")");
  }

  /** The decision `_login_event` takes from the form and the cached
      cashiers.  Admin rights always need the password "admin", and a
      cashier is only ever logged in as a live cached cashier whose
      password was typed. */
  function LoginDecision(form: LoginForm, cs: seq<Cashier>): (r: LoginOutcome)
    ensures r == AsAdmin ==> form.password == "admin"
    ensures r.AsCashier? ==> r.cashier in cs && !r.cashier.isDeleted && r.cashier.password == form.password
  {
    if form.combo.Some? && form.combo.value != "" then
      var selected := form.combo.value;
      if Upper(selected) == "SUPERVISOR" then
        if form.password == "admin" then AsAdmin else Rejected
      else
        var userName := ComboUserName(selected);
        if userName == "" then Rejected
        else match FirstMatch(cs, userName, form.password)
          case Some(c) => AsCashier(c)
          case None => Rejected
    else if form.userName == "" then Rejected
    else if Lower(form.userName) == "admin" && form.password == "admin" then AsAdmin
    else match FirstMatch(cs, Lower(form.userName), form.password)
      case Some(c) => AsCashier(c)
      case None => Rejected
  }

  predicate ComboMode(form: LoginForm)
  {
    form.combo.Some? && form.combo.value != ""
  }

  /** Typed credentials log in exactly when a live cashier has the lower-cased
      name and the exact password (the default admin credentials aside). */
  lemma TextboxLogin(form: LoginForm, cs: seq<Cashier>)
    requires !ComboMode(form) && form.userName != ""
    requires !(Lower(form.userName) == "admin" && form.password == "admin")
    ensures LoginDecision(form, cs).AsCashier? <==> exists c :: c in cs && Matches(c, Lower(form.userName), form.password)
    ensures LoginDecision(form, cs).AsCashier? ==>
      var c := LoginDecision(form, cs).cashier; c in cs && Matches(c, Lower(form.userName), form.password)
    ensures !LoginDecision(form, cs).AsCashier? ==> LoginDecision(form, cs) == Rejected
  {
  }

  /** A selected entry logs in exactly when a live cashier has its user name and the password. */
  lemma ComboLogin(form: LoginForm, cs: seq<Cashier>)
    requires ComboMode(form) && Upper(form.combo.value) != "SUPERVISOR"
    ensures var u := ComboUserName(form.combo.value);
      LoginDecision(form, cs).AsCashier? <==> u != "" && exists c :: c in cs && Matches(c, u, form.password)
    ensures !LoginDecision(form, cs).AsCashier? ==> LoginDecision(form, cs) == Rejected
  {
  }

  /** SUPERVISOR is accepted with the password "admin" and nothing else. */
  lemma SupervisorNeedsAdminPassword(form: LoginForm, cs: seq<Cashier>)
    requires ComboMode(form) && Upper(form.combo.value) == "SUPERVISOR"
    ensures LoginDecision(form, cs) == (if form.password == "admin" then AsAdmin else Rejected)
  {
  }

  /** Without any user name nobody logs in. */
  lemma EmptyUserNameRejected(form: LoginForm, cs: seq<Cashier>)
    requires !ComboMode(form) && form.userName == ""
    ensures LoginDecision(form, cs) == Rejected
  {
  }

  /** The account created when no admin is cached. */
  function NewAdmin(id: Id): Cashier
  {
    Cashier(id, "admin", "admin", false)
  }

  /** Which login form a logout goes to: LOGIN_EXT for a form that needs
      authorisation, LOGIN for one that needs a login, otherwise none. */
  datatype FormNeeds = FormNeeds(needAuth: bool, needLogin: bool)

  function LogoutTarget(currentFormId: Option<int>, current: Option<FormNeeds>, startupFormId: Option<int>,
                        startForm: FormName): (f: FormName)
    ensures currentFormId.Some? && current.Some? && current.value.needAuth ==> f == LoginExt
    ensures currentFormId.Some? && current.Some? && !current.value.needAuth && current.value.needLogin ==> f == Login
    ensures !(currentFormId.Some? && current.Some? && (current.value.needAuth || current.value.needLogin)) ==>
      f == (if startupFormId.Some? then startForm else Login)
  {
    if currentFormId.Some? && current.Some? && current.value.needAuth then LoginExt
    else if currentFormId.Some? && current.Some? && current.value.needLogin then Login
    else if startupFormId.Some? then startForm
    else Login
  }

  /** The application state the general events act on. */
  class Session {
    const status: Status
    const docs: DocumentManager.Manager
    var cashiers: seq<Cashier>
    var cashierData: Option<Cashier>

    constructor (s: Status, m: DocumentManager.Manager, cs: seq<Cashier>)
      ensures status == s && docs == m && cashiers == cs && cashierData == None
    {
      status, docs, cashiers, cashierData := s, m, cs, None;
    }

    /** The document step of a login: an open document is kept; otherwise
        the newest incomplete document is resumed and, when there is none,
        an empty one is created (which needs POS settings and a store). */
    method ResumeOrCreateDocument(today: Date, now: int, uuid: UuidSource)
      modifies docs`document, docs`customers, uuid
      ensures old(docs.document) != null ==>
        docs.document == old(docs.document) && docs.customers == old(docs.customers) && uuid.count == old(uuid.count)
      ensures var k := DocumentManager.LatestIncomplete(docs.temp.heads);
        old(docs.document) == null && k.Some? ==>
        && fresh(docs.document)
        && DocumentManager.LoadedFrom(docs.document, docs.temp, docs.temp.heads[k.value].id, false)
        && docs.customers == old(docs.customers) && uuid.count == old(uuid.count)
      ensures old(docs.document) == null && DocumentManager.LatestIncomplete(docs.temp.heads).None? ==>
        && (docs.document != null <==> docs.posSettings.Some? && |docs.storeIds| > 0)
        && (docs.document != null ==> fresh(docs.document) && DocumentManager.IsEmptyDocument(docs.document))
    {
      if docs.document != null {
        return;
      }
      var resumed := docs.LoadIncompleteDocument();
      if !resumed {
        var created := docs.CreateEmptyDocument(status.documentType, today, now, uuid);
      }
    }

    /** `_navigate_after_login`: a fresh history, then the start form
        (the startup form's name, SALE when it has none); on SALE the
        document step of `ResumeOrCreateDocument` runs. */
    method NavigateAfterLogin(startForm: FormName, today: Date, now: int, uuid: UuidSource)
      modifies status`history, status`previousForm, status`currentForm
      modifies docs`document, docs`customers, uuid
      ensures status.history == Pushed([], old(status.currentForm))
      ensures status.currentForm == startForm && status.previousForm == old(status.currentForm)
      ensures status.Valid()
      ensures startForm != FormName.Sale || old(docs.document) != null ==>
        docs.document == old(docs.document) && docs.customers == old(docs.customers) && uuid.count == old(uuid.count)
      ensures startForm == FormName.Sale && old(docs.document) == null ==>
        (docs.document != null <==>
           DocumentManager.LatestIncomplete(docs.temp.heads).Some? || (docs.posSettings.Some? && |docs.storeIds| > 0))
    {
      status.ClearFormHistory();
      status.SetCurrentForm(startForm);
      if startForm == FormName.Sale {
        ResumeOrCreateDocument(today, now, uuid);
      }
    }

    /** `_login_event`: nothing happens when already logged in; a rejected
        login changes nothing; an accepted one sets the cashier and the
        login flag and navigates. The admin account is created and cached
        when none is cached. A cashier found in the cache also gets the
        document step before navigating; the admin paths get it only
        through the navigation. */
    method LoginEvent(form: LoginForm, newAdminId: Id, startForm: FormName, today: Date, now: int, uuid: UuidSource)
      returns (ok: bool)
      modifies status`loginSucceed, status`history, status`previousForm, status`currentForm
      modifies this`cashiers, this`cashierData, docs`document, docs`customers, uuid
      ensures old(status.loginSucceed) ==>
        ok && cashiers == old(cashiers) && cashierData == old(cashierData) && status.history == old(status.history) &&
        status.currentForm == old(status.currentForm) && status.previousForm == old(status.previousForm) &&
        docs.document == old(docs.document)
      ensures !old(status.loginSucceed) ==>
        var outcome := LoginDecision(form, old(cashiers));
        && (ok <==> outcome != Rejected)
        && (!ok ==> (cashiers == old(cashiers) && cashierData == old(cashierData) && !status.loginSucceed &&
                     status.history == old(status.history) && status.currentForm == old(status.currentForm) &&
                     docs.document == old(docs.document)))
        && (ok ==> (status.loginSucceed && status.currentForm == startForm &&
                    status.history == Pushed([], old(status.currentForm))))
        && (outcome.AsCashier? ==> cashierData == Some(outcome.cashier) && cashiers == old(cashiers))
        && (outcome.AsAdmin? && FirstAdmin(old(cashiers)).Some? ==>
             cashierData == FirstAdmin(old(cashiers)) && cashiers == old(cashiers))
        && (outcome.AsAdmin? && FirstAdmin(old(cashiers)).None? ==>
             cashierData == Some(NewAdmin(newAdminId)) && cashiers == old(cashiers) + [NewAdmin(newAdminId)])
      ensures !old(status.loginSucceed) && old(docs.document) == null &&
              (LoginDecision(form, old(cashiers)).AsCashier? ||
               (LoginDecision(form, old(cashiers)).AsAdmin? && startForm == FormName.Sale)) ==>
        (docs.document != null <==>
           DocumentManager.LatestIncomplete(docs.temp.heads).Some? || (docs.posSettings.Some? && |docs.storeIds| > 0))
      ensures !old(status.loginSucceed) && LoginDecision(form, old(cashiers)).AsAdmin? && startForm != FormName.Sale ==>
        docs.document == old(docs.document)
    {
      if status.loginSucceed {
        return true;
      }
      var outcome := LoginDecision(form, cashiers);
      match outcome {
        case Rejected =>
          return false;
        case AsAdmin =>
          var admin := FirstAdmin(cashiers);
          if admin.Some? {
            cashierData := admin;
          } else {
            cashiers := cashiers + [NewAdmin(newAdminId)];
            cashierData := Some(NewAdmin(newAdminId));
          }
        case AsCashier(c) =>
          cashierData := Some(c);
          ResumeOrCreateDocument(today, now, uuid);
      }
      status.loginSucceed := true;
      NavigateAfterLogin(startForm, today, now, uuid);
      ok := true;
    }

    /** `_logout_event` as written: the history is cleared before the
        login form is set, so the setter records the form that was left. */
    method LogoutEvent(current: Option<FormNeeds>, startForm: FormName)
      modifies status`loginSucceed, status`history, status`previousForm, status`currentForm
      modifies this`cashierData, docs`document
      ensures !status.loginSucceed && cashierData == None && docs.document == null
      ensures status.currentForm ==
        LogoutTarget(old(status.currentFormId), current, old(status.startupFormId), startForm)
      ensures status.history == Pushed([], old(status.currentForm))
    {
      var target := LogoutTarget(status.currentFormId, current, status.startupFormId, startForm);
      status.loginSucceed := false;
      cashierData := None;
      docs.document := null;
      status.ClearFormHistory();
      status.SetCurrentForm(target);
    }

    /** Logout with the history emptied after the login form is set. */
    method LogoutClearingHistory(current: Option<FormNeeds>, startForm: FormName)
      modifies status`loginSucceed, status`history, status`previousForm, status`currentForm
      modifies this`cashierData, docs`document
      ensures !status.loginSucceed && cashierData == None && docs.document == null
      ensures status.currentForm ==
        LogoutTarget(old(status.currentFormId), current, old(status.startupFormId), startForm)
      ensures status.history == []
    {
      var target := LogoutTarget(status.currentFormId, current, status.startupFormId, startForm);
      status.loginSucceed := false;
      cashierData := None;
      docs.document := null;
      status.SetCurrentForm(target);
      status.ClearFormHistory();
    }

    /** `_back_event`: logged out users go through `_logout_event` as
        written, so the history keeps the form they left; otherwise
        exactly one history entry is popped and, when that form exists
        (`formIds`), it becomes current without being recorded again. */
    method BackEvent(current: Option<FormNeeds>, startForm: FormName, formIds: map<FormName, int>) returns (ok: bool)
      modifies status`loginSucceed, status`history, status`previousForm, status`currentForm, status`currentFormId
      modifies this`cashierData, docs`document
      ensures !old(status.loginSucceed) ==>
        && !ok && !status.loginSucceed && cashierData == None && docs.document == null
        && status.currentForm == LogoutTarget(old(status.currentFormId), current, old(status.startupFormId), startForm)
        && status.history == Pushed([], old(status.currentForm))
      ensures old(status.loginSucceed) && old(status.history) == [] ==>
        !ok && status.history == [] && status.currentForm == old(status.currentForm) &&
        status.loginSucceed && cashierData == old(cashierData) && docs.document == old(docs.document)
      ensures old(status.loginSucceed) && old(status.history) != [] ==>
        var n := |old(status.history)|;
        var top := old(status.history)[n - 1];
        && status.history == old(status.history)[..n - 1]
        && status.loginSucceed && cashierData == old(cashierData) && docs.document == old(docs.document)
        && (ok <==> top in formIds)
        && (ok ==> status.currentForm == top && status.previousForm == old(status.currentForm) &&
                    status.currentFormId == Some(formIds[top]))
        && (!ok ==> status.currentForm == old(status.currentForm) && status.currentFormId == old(status.currentFormId))
      ensures old(status.Valid()) ==> status.Valid()
    {
      if !status.loginSucceed {
        LogoutEvent(current, startForm);
        return false;
      }
      var previous := status.PopFormHistory();
      if previous.None? {
        return false;
      }
      if previous.value !in formIds {
        return false;
      }
      status.SetCurrentFormWithoutHistory(previous.value);
      status.currentFormId := Some(formIds[previous.value]);
      ok := true;
    }
  }

  /** Logging out from SALE as written leaves SALE in the history it meant to clear. */
  lemma LogoutKeepsLeftForm()
    ensures Pushed([], FormName.Sale) == [FormName.Sale]
  {
  }

  // ---------------------------------------------------------------- saving panels

  /** A model attribute as Python holds it. */
  datatype FieldValue = NoValue | IntValue(i: int) | BoolValue(b: bool) | TextValue(s: string)

  /** The number a value stands for in Python arithmetic: bool is a subclass of int. */
  function AsNumber(v: FieldValue): Option<int>
  {
    match v
    case IntValue(i) => Some(i)
    case BoolValue(b) => Some(if b then 1 else 0)
    case _ => None
  }

  /** Python's `==` between two attribute values (True == 1, False == 0). */
  predicate PyEquals(a: FieldValue, b: FieldValue)
  {
    if AsNumber(a).Some? && AsNumber(b).Some? then AsNumber(a) == AsNumber(b) else a == b
  }

  /** The value a textbox gives an attribute holding `previous`; None when the field is skipped. */
  function ConvertField(previous: FieldValue, text: string): (r: Option<FieldValue>)
    ensures Strip(text) == "" ==> r == Some(NoValue)
    ensures r.None? ==> AsNumber(previous).Some? && ParseInt(text).None?
  {
    if Strip(text) == "" then Some(NoValue)
    else if previous.IntValue? || previous.BoolValue? then
      match ParseInt(text)
      case Some(n) => Some(IntValue(n))
      case None => None
    else Some(TextValue(Strip(text)))
  }

  /** Conversion with the boolean test ahead of the integer one. */
  function ConvertFieldBoolFirst(previous: FieldValue, text: string): (r: Option<FieldValue>)
    ensures previous.BoolValue? && Strip(text) != "" ==> r.Some? && r.value.BoolValue?
    ensures Strip(text) == "" ==> r == Some(NoValue)
  {
    if Strip(text) == "" then Some(NoValue)
    else if previous.BoolValue? then
      Some(BoolValue(Lower(text) == "true" || Lower(text) == "1" || Lower(text) == "yes" || Lower(text) == "on"))
    else ConvertField(previous, text)
  }

  /** As written, typing "true" into a boolean field is skipped; with the boolean test first it sets the field. */
  lemma BoolFieldIgnoresTrue()
    ensures ConvertField(BoolValue(false), "true") == None
    ensures ConvertFieldBoolFirst(BoolValue(false), "true") == Some(BoolValue(true))
  {
    StripUnchanged("true");
    assert !IsDigits("true") by {
      assert !IsDigit("true"[0]);
    }
    assert Lower("true") == "true";
  }

  /** The conversion the save handler applies: `ConvertField` as written,
      or `ConvertFieldBoolFirst` when `boolFirst` is set. */
  function Convert(boolFirst: bool, previous: FieldValue, text: string): Option<FieldValue>
  {
    if boolFirst then ConvertFieldBoolFirst(previous, text) else ConvertField(previous, text)
  }

  /** A field text that changes an attribute: set when it converts to a different value. */
  datatype Update = Update(fields: map<string, FieldValue>, updated: seq<string>)

  /** One textbox value applied to the attributes. */
  function ApplyValue(u: Update, name: string, text: string, boolFirst: bool): Update
  {
    if name in u.fields then
      match Convert(boolFirst, u.fields[name], text)
      case Some(v) => if PyEquals(u.fields[name], v) then u else Update(u.fields[name := v], u.updated + [name])
      case None => u
    else u
  }

  /** The textbox values applied in order to the attributes of a model. */
  function ApplyValues(fields: map<string, FieldValue>, values: seq<(string, string)>, boolFirst: bool): Update
  {
    if |values| == 0 then Update(fields, [])
    else
      var last := values[|values| - 1];
      ApplyValue(ApplyValues(fields, values[..|values| - 1], boolFirst), last.0, last.1, boolFirst)
  }

  /** Only attributes the model has and the panel names are touched, and the model keeps its attributes. */
  lemma {:induction false} ApplyValuesFrame(fields: map<string, FieldValue>, values: seq<(string, string)>,
                                            boolFirst: bool)
    ensures ApplyValues(fields, values, boolFirst).fields.Keys == fields.Keys
    ensures forall k :: k in fields && (forall j :: 0 <= j < |values| ==> values[j].0 != k) ==>
      ApplyValues(fields, values, boolFirst).fields[k] == fields[k]
  {
    if |values| > 0 {
      ApplyValuesFrame(fields, values[..|values| - 1], boolFirst);
    }
  }

  /** Every attribute whose value changed is listed as updated, and every listed one is in the model. */
  lemma {:induction false} ApplyValuesRecorded(fields: map<string, FieldValue>, values: seq<(string, string)>,
                                               boolFirst: bool)
    ensures var u := ApplyValues(fields, values, boolFirst);
      forall k :: k in fields && k in u.fields && u.fields[k] != fields[k] ==> k in u.updated
    ensures forall k :: k in ApplyValues(fields, values, boolFirst).updated ==> k in fields
  {
    ApplyValuesFrame(fields, values, boolFirst);
    if |values| > 0 {
      ApplyValuesRecorded(fields, values[..|values| - 1], boolFirst);
      ApplyValuesFrame(fields, values[..|values| - 1], boolFirst);
    }
  }

  /** As written, typing "true" into a false boolean attribute leaves it
      false and nothing is listed, so nothing is saved. */
  lemma BoolFieldSkipped(name: string)
    ensures ApplyValues(map[name := BoolValue(false)], [(name, "true")], false) ==
      Update(map[name := BoolValue(false)], [])
  {
    var values := [(name, "true")];
    assert values[..0] == [];
    BoolFieldIgnoresTrue();
  }

  /** With the boolean test first, typing "true" into a false boolean
      attribute sets it and lists it as updated. */
  lemma BoolFieldSaved(name: string)
    ensures ApplyValues(map[name := BoolValue(false)], [(name, "true")], true) ==
      Update(map[name := BoolValue(true)], [name])
  {
    var values := [(name, "true")];
    assert values[..0] == [];
    BoolFieldIgnoresTrue();
  }

  /** With nothing updated the model is exactly as it was. */
  lemma NothingUpdatedNothingChanged(fields: map<string, FieldValue>, values: seq<(string, string)>, boolFirst: bool)
    requires ApplyValues(fields, values, boolFirst).updated == []
    ensures ApplyValues(fields, values, boolFirst).fields == fields
  {
    ApplyValuesRecorded(fields, values, boolFirst);
    ApplyValuesFrame(fields, values, boolFirst);
  }

  /** A model instance whose attributes the save handler assigns. */
  class ModelRecord {
    var fields: map<string, FieldValue>

    constructor (f: map<string, FieldValue>)
      ensures fields == f
    {
      fields := f;
    }
  }

  /** The field loop of `_save_changes_event` for one panel: converted values
      are assigned when they differ, and the model is saved only when at
      least one attribute changed.  With `boolFirst` false the values are
      converted as written (`ConvertField`); with it set, boolean
      attributes take the boolean conversion. */
  method SavePanelValues(model: ModelRecord, values: seq<(string, string)>, boolFirst: bool)
    returns (updated: seq<string>, saved: bool)
    modifies model`fields
    ensures Update(model.fields, updated) == ApplyValues(old(model.fields), values, boolFirst)
    ensures saved <==> updated != []
  {
    updated := [];
    var i := 0;
    while i < |values|
      invariant 0 <= i <= |values|
      invariant Update(model.fields, updated) == ApplyValues(old(model.fields), values[..i], boolFirst)
    {
      var name := values[i].0;
      var text := values[i].1;
      assert values[..i + 1][..i] == values[..i];
      if name in model.fields {
        var previous := model.fields[name];
        var converted := if boolFirst then ConvertFieldBoolFirst(previous, text) else ConvertField(previous, text);
        if converted.Some? && !PyEquals(previous, converted.value) {
          model.fields := model.fields[name := converted.value];
          updated := updated + [name];
        }
      }
      i := i + 1;
    }
    assert values[..|values|] == values;
    saved := updated != [];
  }
}
