/**
 * The on-screen numeric keypad: a text buffer edited one key at a time.
 * Digits and other keys are appended, Clear empties the buffer, Backspace
 * drops its last character, and Enter hands the whole buffer to the
 * callback and the signal without changing it.  Every other key is also
 * forwarded, on its own, to the callback and the signal.
 */
module NumPadControl {
  import opened Wrappers
  import Text

  const ClearKey := "Clear"
  const BackspaceKey := "Backspace"
  const EnterKey := "Enter"

  /** The buffer after one key press. */
  function Pressed(text: string, key: string): (r: string)
    ensures key == ClearKey ==> r == ""
    ensures key == BackspaceKey ==> (if text == "" then r == "" else r == text[..|text| - 1])
    ensures key == EnterKey ==> r == text
    ensures key != ClearKey && key != BackspaceKey && key != EnterKey ==> r == text + key
  {
    if key == ClearKey then ""
    else if key == BackspaceKey then (if text == "" then "" else text[..|text| - 1])
    else if key == EnterKey then text
    else text + key
  }

  /** The buffer after a run of key presses, in order. */
  function Typed(text: string, keys: seq<string>): string
    decreases |keys|
  {
    if |keys| == 0 then text else Typed(Pressed(text, keys[0]), keys[1..])
  }

  /** A key that is not one of the three actions. */
  predicate IsPlainKey(key: string)
  {
    key != ClearKey && key != BackspaceKey && key != EnterKey
  }

  /** Typing plain keys appends them all, in order; an Enter in between
      would change nothing. */
  lemma {:induction false} TypingAppends(text: string, keys: seq<string>)
    requires forall k :: 0 <= k < |keys| ==> IsPlainKey(keys[k])
    ensures Typed(text, keys) == text + Concat(keys)
    decreases |keys|
  {
    if |keys| > 0 {
      TypingAppends(text + keys[0], keys[1..]);
      assert text + keys[0] + Concat(keys[1..]) == text + (keys[0] + Concat(keys[1..]));
    }
  }

  /** The keys of a run, joined. */
  function Concat(keys: seq<string>): string
  {
    if |keys| == 0 then "" else keys[0] + Concat(keys[1..])
  }

  /** Backspace takes back a one-character key. */
  lemma BackspaceUndoesKey(text: string, key: string)
    requires |key| == 1 && IsPlainKey(key)
    ensures Pressed(Pressed(text, key), BackspaceKey) == text
  {
    assert (text + key)[..|text + key| - 1] == text;
  }

  /** Clear forgets everything typed before it. */
  lemma {:induction false} ClearForgets(a: string, b: string, keys: seq<string>)
    ensures Typed(a, [ClearKey] + keys) == Typed(b, [ClearKey] + keys)
  {
    assert ([ClearKey] + keys)[1..] == keys;
  }

  /** What the callback and the signal receive for one key press: the
      whole buffer for Enter, the key itself for every other key. */
  function Forwarded(text: string, key: string): (r: string)
    ensures key == EnterKey ==> r == text
    ensures key != EnterKey ==> r == key
  {
    if key == EnterKey then text else key
  }

  /** The physical keys the keypad reacts to. */
  datatype KeyCode = ReturnKey | KeypadEnter | BackspaceCode | EscapeCode | OtherCode

  /** `eventFilter`/`keyPressEvent`: a key whose text is digits is typed as
      itself; Return and Enter press Enter, Backspace presses Backspace and
      Escape presses Clear; any other key is not handled. */
  function KeyToButton(keyText: string, code: KeyCode): (r: Option<string>)
    ensures Text.IsDigits(keyText) ==> r == Some(keyText)
    ensures !Text.IsDigits(keyText) ==>
      r == (match code
            case ReturnKey => Some(EnterKey)
            case KeypadEnter => Some(EnterKey)
            case BackspaceCode => Some(BackspaceKey)
            case EscapeCode => Some(ClearKey)
            case OtherCode => None)
  {
    if Text.IsDigits(keyText) then Some(keyText)
    else match code
      case ReturnKey => Some(EnterKey)
      case KeypadEnter => Some(EnterKey)
      case BackspaceCode => Some(BackspaceKey)
      case EscapeCode => Some(ClearKey)
      case OtherCode => None
  }

  /** A digit key always lands in the buffer, whatever its key code. */
  lemma DigitKeyTyped(text: string, d: char, code: KeyCode)
    requires Text.IsDigit(d)
    ensures KeyToButton([d], code) == Some([d])
    ensures Pressed(text, KeyToButton([d], code).value) == text + [d]
  {
  }

  class NumPad {
    var currentText: string
    var hasCallback: bool
    /** What the callback function has been called with, oldest first. */
    var callbackLog: seq<string>
    /** What `numpad_signal` has emitted, oldest first. */
    var signalLog: seq<string>

    constructor ()
      ensures currentText == "" && !hasCallback && callbackLog == [] && signalLog == []
    {
      currentText := "";
      hasCallback := false;
      callbackLog := [];
      signalLog := [];
    }

    /** `set_event`. */
    method SetEvent()
      modifies this`hasCallback
      ensures hasCallback
    {
      hasCallback := true;
    }

    /** `_on_button_clicked`. */
    method OnButtonClicked(key: string)
      modifies this`currentText, this`callbackLog, this`signalLog
      ensures currentText == Pressed(old(currentText), key)
      ensures signalLog == old(signalLog) + [Forwarded(old(currentText), key)]
      ensures callbackLog == old(callbackLog) + (if hasCallback then [Forwarded(old(currentText), key)] else [])
    {
      if key == ClearKey {
        currentText := "";
      } else if key == BackspaceKey {
        if currentText != "" {
          currentText := currentText[..|currentText| - 1];
        }
      } else if key == EnterKey {
        if hasCallback {
          callbackLog := callbackLog + [currentText];
        }
        signalLog := signalLog + [currentText];
      } else {
        currentText := currentText + key;
      }
      if hasCallback && key != EnterKey {
        callbackLog := callbackLog + [key];
      }
      if key != EnterKey {
        signalLog := signalLog + [key];
      }
    }

    method GetText() returns (t: string)
      ensures t == currentText
    {
      t := currentText;
    }

    method SetText(t: string)
      modifies this`currentText
      ensures currentText == t
    {
      currentText := t;
    }
  }

  /** `get_text()` after `set_text(t)` gives back `t`. */
  method SetThenGet(pad: NumPad, t: string) returns (r: string)
    modifies pad`currentText
    ensures r == t
  {
    pad.SetText(t);
    r := pad.GetText();
  }
}
