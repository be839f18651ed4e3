/**
 * The payment list shown on the payment screen: the payments taken so
 * far, numbered from 1 in the order they were added, and the selected
 * row.  The selection always names a row when there are rows, and is 0
 * when there are none.
 */
module PaymentListControl {
  import opened Wrappers
  import DynamicDialog

  /** One stored payment (`PaymentListData`). */
  datatype PaymentListData = PaymentListData(
    rowNumber: int,
    paymentType: string,
    amount: real,
    paymentId: int,
    currency: string,
    rate: real)

  /** The amounts of the records converted at their rates, summed. */
  function Total(records: seq<PaymentListData>): real
  {
    if |records| == 0 then 0.0 else records[0].amount * records[0].rate + Total(records[1..])
  }

  /** Adding a record adds its converted amount to the total. */
  lemma {:induction false} TotalAppend(records: seq<PaymentListData>, d: PaymentListData)
    ensures Total(records + [d]) == Total(records) + d.amount * d.rate
  {
    if |records| > 0 {
      assert (records + [d])[1..] == records[1..] + [d];
      TotalAppend(records[1..], d);
    }
  }

  /** Rows are numbered 1, 2, … in order. */
  predicate Numbered(records: seq<PaymentListData>)
  {
    forall k :: 0 <= k < |records| ==> records[k].rowNumber == k + 1
  }

  /** The amount and rate `add_payment` stores: the two values when both
      convert to numbers, and 0.0 and 1.0 when either does not. */
  function Converted(amount: Option<real>, rate: Option<real>): (r: (real, real))
    ensures amount.Some? && rate.Some? ==> r == (amount.value, rate.value)
    ensures amount.None? || rate.None? ==> r == (0.0, 1.0)
  {
    if amount.Some? && rate.Some? then (amount.value, rate.value) else (0.0, 1.0)
  }

  /** `min(0xFF, channel + 0x40)`. */
  function Lighten(v: int): (r: int)
    requires 0 <= v < 256
    ensures 0 <= r < 256 && r >= v
    ensures r == if v + 64 < 255 then v + 64 else 255
  {
    if v + 64 < 255 then v + 64 else 255
  }

  /** The background of the selected row: each channel of `bg` made
      lighter by 0x40, at most 0xFF. */
  function SelectedBackground(bg: int): (r: int)
    ensures 0 <= r <= DynamicDialog.MaxRgb
    ensures var c := DynamicDialog.Channels(bg); var s := DynamicDialog.Channels(r);
      s == DynamicDialog.Rgb(Lighten(c.r), Lighten(c.g), Lighten(c.b))
  {
    var c := DynamicDialog.Channels(bg);
    var s := DynamicDialog.Rgb(Lighten(c.r), Lighten(c.g), Lighten(c.b));
    DynamicDialog.ChannelsPack(s);
    DynamicDialog.Pack(s)
  }

  /** A white background stays white when selected. */
  lemma WhiteStaysWhite()
    ensures SelectedBackground(0xFF_FFFF) == 0xFF_FFFF
  {
    DynamicDialog.PackChannels(0xFF_FFFF);
  }

  class PaymentList {
    var records: seq<PaymentListData>
    var selectedIndex: int

    /** The row numbering and the bounds of the selection. */
    ghost predicate Valid()
      reads this
    {
      && Numbered(records)
      && 0 <= selectedIndex
      && (|records| == 0 ==> selectedIndex == 0)
      && (|records| > 0 ==> selectedIndex < |records|)
    }

    constructor ()
      ensures records == [] && selectedIndex == 0
      ensures Valid()
    {
      records := [];
      selectedIndex := 0;
    }

    /** `add_payment`: appends one record numbered after the last and
        selects it; returns the amount converted at the rate. */
    method AddPayment(paymentType: string, amount: Option<real>, currency: string, rate: Option<real>, paymentId: int)
      returns (total: real)
      requires Valid()
      modifies this`records, this`selectedIndex
      ensures Valid()
      ensures var (a, r) := Converted(amount, rate);
        && records == old(records) + [PaymentListData(|old(records)| + 1, paymentType, a, paymentId, currency, r)]
        && total == a * r
      ensures selectedIndex == |old(records)|
      ensures Total(records) == Total(old(records)) + total
    {
      var row := |records|;
      var a, r;
      if amount.Some? && rate.Some? {
        a, r := amount.value, rate.value;
      } else {
        a, r := 0.0, 1.0;
      }
      total := a * r;
      var d := PaymentListData(row + 1, paymentType, a, paymentId, currency, r);
      TotalAppend(records, d);
      records := records + [d];
      selectedIndex := row;
    }

    /** `clear_payments`: pops every record, then resets the selection. */
    method ClearPayments() returns (ok: bool)
      requires Valid()
      modifies this`records, this`selectedIndex
      ensures Valid()
      ensures records == [] && selectedIndex == 0 && ok
    {
      while |records| > 0
        invariant Numbered(records)
        decreases |records|
      {
        records := records[..|records| - 1];
      }
      selectedIndex := 0;
      ok := true;
    }

    /** `get_total_amount`. */
    method GetTotalAmount() returns (total: real)
      ensures total == Total(records)
    {
      total := 0.0;
      var i := 0;
      while i < |records|
        invariant 0 <= i <= |records|
        invariant total == Total(records[..i])
      {
        TotalAppend(records[..i], records[i]);
        assert records[..i + 1] == records[..i] + [records[i]];
        total := total + records[i].amount * records[i].rate;
        i := i + 1;
      }
      assert records[..i] == records;
    }

    /** `get_payment_data`: the record at `index`, or none out of range. */
    method GetPaymentData(index: int) returns (r: Option<PaymentListData>)
      ensures 0 <= index < |records| ==> r == Some(records[index])
      ensures !(0 <= index < |records|) ==> r.None?
    {
      if 0 <= index < |records| {
        r := Some(records[index]);
      } else {
        r := None;
      }
    }

    /** `get_payment_count`. */
    method GetPaymentCount() returns (n: int)
      ensures n == |records|
    {
      n := |records|;
    }

    /** `navigate_up`: one row up, unless at the top. */
    method NavigateUp()
      requires Valid()
      modifies this`selectedIndex
      ensures Valid()
      ensures selectedIndex == if |records| > 0 && old(selectedIndex) > 0 then old(selectedIndex) - 1 else old(selectedIndex)
    {
      if |records| > 0 && selectedIndex > 0 {
        selectedIndex := selectedIndex - 1;
      }
    }

    /** `navigate_down`: one row down, unless at the bottom. */
    method NavigateDown()
      requires Valid()
      modifies this`selectedIndex
      ensures Valid()
      ensures selectedIndex ==
        if |records| > 0 && old(selectedIndex) < |records| - 1 then old(selectedIndex) + 1 else old(selectedIndex)
    {
      if |records| > 0 && selectedIndex < |records| - 1 {
        selectedIndex := selectedIndex + 1;
      }
    }

    /** The `selected_index` setter: a value outside the rows is ignored. */
    method SetSelectedIndex(value: int)
      requires Valid()
      modifies this`selectedIndex
      ensures Valid()
      ensures selectedIndex == if 0 <= value < |records| then value else old(selectedIndex)
    {
      if 0 <= value < |records| {
        selectedIndex := value;
      }
    }

    /** `on_item_clicked`: with an event function, the clicked row becomes
        the selection (and is passed on). */
    method OnItemClicked(row: int, hasEventFunc: bool) returns (passed: Option<int>)
      requires Valid() && 0 <= row < |records|
      modifies this`selectedIndex
      ensures Valid()
      ensures hasEventFunc ==> selectedIndex == row && passed == Some(row)
      ensures !hasEventFunc ==> selectedIndex == old(selectedIndex) && passed.None?
    {
      passed := None;
      if hasEventFunc {
        selectedIndex := row;
        passed := Some(row);
      }
    }
  }
}
