/**
 * The application state shared by every event handler: the login flag,
 * the current and previous form, the bounded back-navigation history and
 * the document type being processed.
 */
module CurrentStatus {
  import opened Wrappers
  import Documents

  /** The forms of the system; CONFIG and CLOSURE are aliases of SETTING and END_OF_DAY. */
  datatype FormName =
    | NoForm | Sale | Login | LoginExt | LoginService | Service | Setting | CashierConfig
    | Parameter | Report | Function | Customer | Void | Refund | Stock | EndOfDay | Table
    | Order | Check | Employee | Reservation | Warehouse | Menu | CashierPerformanceTarget

  datatype DocumentResult =
    | NoResult | Succeed | CanceledByCashier | CanceledByApplication
    | CanceledByApplicationAfterPowerOn | CanceledByApplicationBecauseOfHanging | Suspended

  /** The history keeps at most this many forms. */
  const HistoryLimit: nat := 30

  /** Forms shown because of need_login/need_auth rather than by navigation. */
  predicate Excluded(f: FormName)
  {
    f == NoForm || f == Login || f == LoginExt
  }

  /** A history the setter can have built: bounded, no excluded form, no form twice in a row. */
  predicate ValidHistory(h: seq<FormName>)
  {
    && |h| <= HistoryLimit
    && (forall i :: 0 <= i < |h| ==> !Excluded(h[i]))
    && (forall i :: 0 <= i < |h| - 1 ==> h[i] != h[i + 1])
  }

  /** The history after the current_form_type setter leaves the form `leaving`. */
  function Pushed(history: seq<FormName>, leaving: FormName): seq<FormName>
  {
    if Excluded(leaving) || (|history| > 0 && history[|history| - 1] == leaving) then history
    else if |history| + 1 > HistoryLimit then (history + [leaving])[1..]
    else history + [leaving]
  }

  /** Leaving a form keeps the history valid. */
  lemma PushedKeepsValid(history: seq<FormName>, leaving: FormName)
    requires ValidHistory(history)
    ensures ValidHistory(Pushed(history, leaving))
  {
    if !Excluded(leaving) && !(|history| > 0 && history[|history| - 1] == leaving) {
      var h := history + [leaving];
      assert forall i :: 0 <= i < |h| - 1 ==> h[i] != h[i + 1] by {
        forall i | 0 <= i < |h| - 1 ensures h[i] != h[i + 1] {
          if i < |history| - 1 {
            assert h[i] == history[i] && h[i + 1] == history[i + 1];
          }
        }
      }
    }
  }

  /** An ordinary form that is left becomes the top of the history; the oldest entry
      goes only when the history is already full. */
  lemma PushedTop(history: seq<FormName>, leaving: FormName)
    requires ValidHistory(history) && !Excluded(leaving)
    ensures var h := Pushed(history, leaving); |h| > 0 && h[|h| - 1] == leaving
    ensures |history| > 0 && history[|history| - 1] == leaving ==> Pushed(history, leaving) == history
    ensures (|history| == 0 || history[|history| - 1] != leaving) && |history| < HistoryLimit ==>
      Pushed(history, leaving) == history + [leaving]
    ensures (|history| == 0 || history[|history| - 1] != leaving) && |history| == HistoryLimit ==>
      Pushed(history, leaving) == history[1..] + [leaving]
  {
  }

  /** LOGIN, LOGIN_EXT and NONE are never recorded. */
  lemma PushedSkipsExcluded(history: seq<FormName>, leaving: FormName)
    requires Excluded(leaving)
    ensures Pushed(history, leaving) == history
  {
  }

  class Status {
    var loginSucceed: bool
    var previousForm: FormName
    var currentForm: FormName
    var currentFormId: Option<int>
    var startupFormId: Option<int>
    var history: seq<FormName>
    var documentType: Documents.DocumentType
    var documentResult: DocumentResult
    var currentCurrency: Option<string>

    ghost predicate Valid()
      reads this
    {
      ValidHistory(history)
    }

    /** A fresh start: logged out on LOGIN, nothing before it, no history. */
    constructor ()
      ensures Valid()
      ensures !loginSucceed && currentForm == Login && previousForm == NoForm && history == []
      ensures currentFormId == None && startupFormId == None
      ensures documentType == Documents.FiscalReceipt && documentResult == NoResult
      ensures currentCurrency == None
    {
      loginSucceed := false;
      previousForm := NoForm;
      currentForm := Login;
      currentFormId := None;
      startupFormId := None;
      history := [];
      documentType := Documents.FiscalReceipt;
      documentResult := NoResult;
      currentCurrency := None;
    }

    /** `load_startup_form`: the startup form found by the renderer, if any, becomes
        both the startup and the current form id; a failed lookup clears both. */
    method LoadStartupForm(startup: Option<int>, failed: bool)
      modifies this`startupFormId, this`currentFormId
      ensures failed ==> startupFormId == None && currentFormId == None
      ensures !failed && startup.Some? ==> startupFormId == startup && currentFormId == startup
      ensures !failed && startup.None? ==>
        startupFormId == old(startupFormId) && currentFormId == old(currentFormId)
    {
      if failed {
        startupFormId, currentFormId := None, None;
      } else if startup.Some? {
        startupFormId, currentFormId := startup, startup;
      }
    }

    /** The current_form_type setter: the form being left is recorded, and the
        new form becomes current with the old one as previous. */
    method SetCurrentForm(value: FormName)
      modifies this`history, this`previousForm, this`currentForm
      ensures history == Pushed(old(history), old(currentForm))
      ensures previousForm == old(currentForm) && currentForm == value
      ensures old(Valid()) ==> Valid()
    {
      if !Excluded(currentForm) {
        if history == [] || history[|history| - 1] != currentForm {
          history := history + [currentForm];
          if |history| > HistoryLimit {
            history := history[1..];
          }
        }
      }
      if old(Valid()) {
        PushedKeepsValid(old(history), old(currentForm));
      }
      previousForm := currentForm;
      currentForm := value;
    }

    /** Back navigation's direct write of the private fields: the form is made
        current and the history is left alone. */
    method SetCurrentFormWithoutHistory(value: FormName)
      modifies this`previousForm, this`currentForm
      ensures previousForm == old(currentForm) && currentForm == value
    {
      previousForm := currentForm;
      currentForm := value;
    }

    method ClearFormHistory()
      modifies this`history
      ensures history == [] && Valid()
    {
      history := [];
    }

    /** `pop_form_history`: the most recent entry, removed; None when empty. */
    method PopFormHistory() returns (f: Option<FormName>)
      modifies this`history
      ensures old(history) == [] ==> f == None && history == []
      ensures old(history) != [] ==>
        f == Some(old(history)[|old(history)| - 1]) && history == old(history)[..|old(history)| - 1]
      ensures old(Valid()) ==> Valid()
    {
      if history == [] {
        return None;
      }
      f := Some(history[|history| - 1]);
      history := history[..|history| - 1];
    }
  }

}
