/**
 * The modal dialog that draws a stored form: how it turns a colour number
 * into red, green and blue, how a button's function binds the click
 * (including the decoding of `NAVIGATE_TO_FORM:<id>:<mode>`), and how the
 * values typed into the dialog's text boxes are collected.
 */
module DynamicDialog {
  import opened Wrappers
  import Text
  import DynamicRenderer

  // ------------------------------------------------------------ colours

  const MaxRgb := 0xFF_FFFF

  /** A colour as three 8-bit channels. */
  datatype Rgb = Rgb(r: int, g: int, b: int)

  predicate IsChannel(v: int)
  {
    0 <= v < 256
  }

  predicate ValidRgb(c: Rgb)
  {
    IsChannel(c.r) && IsChannel(c.g) && IsChannel(c.b)
  }

  /** `max(0, min(0xFFFFFF, v))`. */
  function Clamp(v: int): (r: int)
    ensures 0 <= r <= MaxRgb
    ensures 0 <= v <= MaxRgb ==> r == v
    ensures v < 0 ==> r == 0
    ensures v > MaxRgb ==> r == MaxRgb
  {
    if v < 0 then 0 else if v > MaxRgb then MaxRgb else v
  }

  /** `(v >> 16) & 0xFF`, `(v >> 8) & 0xFF` and `v & 0xFF`: for a positive
      divisor Dafny's division is the floor, as Python's shift is. */
  function Channels(v: int): (c: Rgb)
    ensures ValidRgb(c)
  {
    Rgb((v / 65536) % 256, (v / 256) % 256, v % 256)
  }

  /** `(r << 16) | (g << 8) | b`: for channels below 256 the bits do not
      overlap, so the OR is a sum. */
  function Pack(c: Rgb): int
  {
    c.r * 65536 + c.g * 256 + c.b
  }

  /** Splitting an in-range colour and packing the channels gives it back. */
  lemma PackChannels(v: int)
    requires 0 <= v <= MaxRgb
    ensures Pack(Channels(v)) == v
  {
    var q := v / 256;
    assert v == q * 256 + v % 256;
    assert q == (q / 256) * 256 + q % 256;
    assert q / 256 == v / 65536 by {
      assert v / 65536 * 65536 <= v < (v / 65536 + 1) * 65536;
    }
    assert v / 65536 < 256;
  }

  /** Packing three channels and splitting the result gives them back. */
  lemma ChannelsPack(c: Rgb)
    requires ValidRgb(c)
    ensures 0 <= Pack(c) <= MaxRgb
    ensures Channels(Pack(c)) == c
  {
    var v := Pack(c);
    assert v / 256 == c.r * 256 + c.g;
    assert v / 65536 == c.r;
  }

  /** `_int_to_qcolor`: `value` is what `int()` makes of the input, `None`
      when it raises; the number is clamped before it is split. */
  function IntToColor(value: Option<int>, default: Rgb): (c: Rgb)
    ensures value.None? ==> c == default
    ensures value.Some? ==> ValidRgb(c) && Pack(c) == Clamp(value.value)
  {
    match value
    case None => default
    case Some(v) =>
      PackChannels(Clamp(v));
      Channels(Clamp(v))
  }

  // ------------------------------------------------------------ button binding

  const NavigateMarker := "NAVIGATE_TO_FORM:"

  /** What a click on a button is bound to. */
  datatype Binding =
    | Unbound
    | PassButton          // sale and payment events receive the button
    | NavigateTo(target: string, mode: string)
    | AcceptDialog        // CLOSE_FORM
    | CallHandler

  const SaleEvents := ["SALE_PLU_CODE", "SALE_PLU_BARCODE", "SALE_DEPARTMENT"]
  const PaymentEvents := ["CASH_PAYMENT", "CREDIT_PAYMENT", "CHECK_PAYMENT", "EXCHANGE_PAYMENT",
                          "PREPAID_PAYMENT", "CHARGE_SALE_PAYMENT", "OTHER_PAYMENT", "CHANGE_PAYMENT"]

  /** The target and mode of a `NAVIGATE_TO_FORM:` function: the second and
      third pieces of the function split on ':', when there are three. */
  function NavigateTarget(f: string): (r: Option<(string, string)>)
    ensures r.Some? <==> NavigateMarker <= f && |Text.Split(f, ':')| >= 3
    ensures r.Some? ==> r.value == (Text.Split(f, ':')[1], Text.Split(f, ':')[2])
  {
    var parts := Text.Split(f, ':');
    if NavigateMarker <= f && |parts| >= 3 then Some((parts[1], parts[2])) else None
  }

  /** The button function a renderer writes for a target form decodes back
      to that form and mode when neither holds a ':'. */
  lemma NavigateRoundTrip(target: string, mode: string)
    requires ':' !in target && ':' !in mode
    ensures NavigateTarget(DynamicRenderer.NavigateFunction(target, mode)) ==
            Some((target, DynamicRenderer.OrText(mode, DynamicRenderer.DefaultTransition)))
  {
    var m := DynamicRenderer.OrText(mode, DynamicRenderer.DefaultTransition);
    var parts := [DynamicRenderer.NavigatePrefix, target, m];
    Text.SplitJoin(parts, ':');
    var f := DynamicRenderer.NavigateFunction(target, mode);
    assert f == NavigateMarker + target + ":" + m;
  }

  /** The function of a navigation button is never plain: it binds the
      navigation whenever a handler exists. */
  lemma NavigationButtonBinds(target: string, mode: string)
    requires ':' !in target && ':' !in mode
    ensures ButtonBinding(DynamicRenderer.NavigateFunction(target, mode), true) ==
            NavigateTo(target, DynamicRenderer.OrText(mode, DynamicRenderer.DefaultTransition))
  {
    NavigateRoundTrip(target, mode);
    var f := DynamicRenderer.NavigateFunction(target, mode);
    assert f[..|NavigateMarker|] == NavigateMarker;
    assert f !in SaleEvents && f !in PaymentEvents;
  }

  /** The click binding `_create_button` makes; `hasHandler` says whether
      the event distributor knows the function. */
  function ButtonBinding(f: string, hasHandler: bool): (b: Binding)
    ensures !hasHandler ==> b == Unbound
    ensures hasHandler && (f in SaleEvents || f in PaymentEvents) ==> b == PassButton
    ensures hasHandler && f !in SaleEvents && f !in PaymentEvents && NavigateMarker <= f ==>
      match NavigateTarget(f)
      case None => b == Unbound
      case Some(tm) => b == NavigateTo(tm.0, tm.1)
    ensures hasHandler && f !in SaleEvents && f !in PaymentEvents && !(NavigateMarker <= f) ==>
      b == (if f == "CLOSE_FORM" then AcceptDialog else CallHandler)
  {
    if !hasHandler then Unbound
    else if f in SaleEvents || f in PaymentEvents then PassButton
    else if NavigateMarker <= f then
      match NavigateTarget(f)
      case None => Unbound
      case Some(tm) => NavigateTo(tm.0, tm.1)
    else if f == "CLOSE_FORM" then AcceptDialog
    else CallHandler
  }

  // ------------------------------------------------------------ text box values

  /** A text box: its `name`, its object name (`__name__`) and its text. */
  datatype TextBox = TextBox(name: string, objectName: string, text: string)

  /** A panel: the text boxes of its content widget, if it has one. */
  datatype Panel = Panel(content: Option<seq<TextBox>>)

  /** The key a panel's text box is reported under, before lowering:
      `name or __name__`. */
  function PanelKey(t: TextBox): string
  {
    DynamicRenderer.OrText(t.name, t.objectName)
  }

  /** The values of a panel's boxes: each box with a key writes its text
      under the lowered key, later boxes overwriting earlier ones. */
  function PanelValues(boxes: seq<TextBox>): map<string, string>
  {
    if |boxes| == 0 then map[]
    else
      var m := PanelValues(boxes[..|boxes| - 1]);
      var t := boxes[|boxes| - 1];
      if PanelKey(t) != "" then m[Text.Lower(PanelKey(t)) := t.text] else m
  }

  /** A box that reports under key `k`. */
  predicate ReportsAs(t: TextBox, k: string)
  {
    PanelKey(t) != "" && Text.Lower(PanelKey(t)) == k
  }

  /** The keys are exactly the lowered keys of the boxes that have one, and
      each holds the text of the last box reporting under it. */
  lemma PanelValuesSpec(boxes: seq<TextBox>, k: string)
    ensures k in PanelValues(boxes) <==> exists i :: 0 <= i < |boxes| && ReportsAs(boxes[i], k)
    ensures k in PanelValues(boxes) ==>
      exists i :: 0 <= i < |boxes| && ReportsAs(boxes[i], k) && PanelValues(boxes)[k] == boxes[i].text &&
        forall j :: i < j < |boxes| ==> !ReportsAs(boxes[j], k)
  {
    PanelValuesKeys(boxes, k);
    if k in PanelValues(boxes) {
      var i := PanelValuesLast(boxes, k);
    }
  }

  /** A key is present exactly when some box reports under it. */
  lemma {:induction false} PanelValuesKeys(boxes: seq<TextBox>, k: string)
    ensures k in PanelValues(boxes) <==> exists i :: 0 <= i < |boxes| && ReportsAs(boxes[i], k)
  {
    if |boxes| > 0 {
      var prefix := boxes[..|boxes| - 1];
      var last := |boxes| - 1;
      PanelValuesKeys(prefix, k);
      if !ReportsAs(boxes[last], k) {
        PanelValuesOther(boxes, k);
        if k in PanelValues(prefix) {
          var i :| 0 <= i < |prefix| && ReportsAs(prefix[i], k);
          assert boxes[i] == prefix[i];
        } else {
          forall i | 0 <= i < |boxes|
            ensures !ReportsAs(boxes[i], k)
          {
            if i < last {
              assert boxes[i] == prefix[i];
            }
          }
        }
      }
    }
  }

  /** The entry of a present key is the text of the last box reporting
      under it. */
  lemma {:induction false} PanelValuesLast(boxes: seq<TextBox>, k: string) returns (i: int)
    requires k in PanelValues(boxes)
    ensures 0 <= i < |boxes| && ReportsAs(boxes[i], k) && PanelValues(boxes)[k] == boxes[i].text
    ensures forall j :: i < j < |boxes| ==> !ReportsAs(boxes[j], k)
  {
    var prefix := boxes[..|boxes| - 1];
    var last := |boxes| - 1;
    if ReportsAs(boxes[last], k) {
      i := last;
    } else {
      PanelValuesOther(boxes, k);
      i := PanelValuesLast(prefix, k);
      assert boxes[i] == prefix[i];
      forall j | i < j < |boxes|
        ensures !ReportsAs(boxes[j], k)
      {
        if j < last {
          assert boxes[j] == prefix[j];
        }
      }
    }
  }

  /** A last box that does not report under `k` leaves `k`'s entry as the
      other boxes made it. */
  lemma PanelValuesOther(boxes: seq<TextBox>, k: string)
    requires |boxes| > 0 && !ReportsAs(boxes[|boxes| - 1], k)
    ensures k in PanelValues(boxes) <==> k in PanelValues(boxes[..|boxes| - 1])
    ensures k in PanelValues(boxes) ==> PanelValues(boxes)[k] == PanelValues(boxes[..|boxes| - 1])[k]
  {
  }

  /** The values of the dialog's own boxes, keyed by object name; later
      boxes overwrite earlier ones. */
  function TextboxValues(boxes: seq<TextBox>): map<string, string>
  {
    if |boxes| == 0 then map[]
    else
      var t := boxes[|boxes| - 1];
      TextboxValues(boxes[..|boxes| - 1])[t.objectName := t.text]
  }

  /** Every box's object name is a key, and no other key appears. */
  lemma {:induction false} TextboxValuesKeys(boxes: seq<TextBox>)
    ensures forall i :: 0 <= i < |boxes| ==> boxes[i].objectName in TextboxValues(boxes)
    ensures forall k :: k in TextboxValues(boxes) ==> exists i :: 0 <= i < |boxes| && boxes[i].objectName == k
  {
    if |boxes| > 0 {
      var prefix := boxes[..|boxes| - 1];
      TextboxValuesKeys(prefix);
      assert forall i :: 0 <= i < |prefix| ==> prefix[i] == boxes[i];
    }
  }

  /** The dialog's text boxes and its panels by name. */
  class Dialog {
    var boxes: seq<TextBox>
    var panels: map<string, Panel>

    constructor ()
      ensures boxes == [] && panels == map[]
    {
      boxes := [];
      panels := map[];
    }

    /** `_create_panel`: a named panel is registered under its name. */
    method CreatePanel(name: string, p: Panel)
      modifies this`panels
      ensures panels == old(panels)[name := p]
    {
      panels := panels[name := p];
    }

    /** `get_textbox_values`. */
    method GetTextboxValues() returns (values: map<string, string>)
      ensures values == TextboxValues(boxes)
    {
      values := map[];
      var i := 0;
      while i < |boxes|
        invariant 0 <= i <= |boxes|
        invariant values == TextboxValues(boxes[..i])
      {
        assert boxes[..i + 1][..i] == boxes[..i];
        values := values[boxes[i].objectName := boxes[i].text];
        i := i + 1;
      }
      assert boxes[..i] == boxes;
    }

    /** `get_panel_textbox_values`: nothing for an unknown panel or one
        without content; otherwise the panel's values. */
    method GetPanelTextboxValues(panelName: string) returns (values: map<string, string>)
      ensures panelName !in panels || panels[panelName].content.None? ==> values == map[]
      ensures panelName in panels && panels[panelName].content.Some? ==>
        values == PanelValues(panels[panelName].content.value)
    {
      values := map[];
      if panelName !in panels || panels[panelName].content.None? {
        return;
      }
      var children := panels[panelName].content.value;
      var i := 0;
      while i < |children|
        invariant 0 <= i <= |children|
        invariant values == PanelValues(children[..i])
      {
        assert children[..i + 1][..i] == children[..i];
        var key := PanelKey(children[i]);
        if key != "" {
          values := values[Text.Lower(key) := children[i].text];
        }
        i := i + 1;
      }
      assert children[..i] == children;
    }
  }
}
