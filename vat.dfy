/**
 * Currency-aware VAT (pos/service/vat_service.py): the number of decimal places
 * of a currency, rounding to those places with the first dropped digit
 * deciding (five and above rounds up), and the VAT share of a VAT-inclusive price.
 * Decimal values are exact `real`s.
 */
module Vat {
  import opened Wrappers
  import Text

  /** A Currency row as the lookup sees it. */
  datatype Currency = Currency(sign: string, decimalPlaces: Option<int>, isDeleted: bool)

  /** The places used when nothing better is known. */
  const DefaultDecimalPlaces: int := 2

  /** Position of the first currency with `sign` that is not deleted. */
  function FindCurrency(cs: seq<Currency>, sign: string): (r: Option<nat>)
    ensures r.Some? ==> r.value < |cs| && cs[r.value].sign == sign && !cs[r.value].isDeleted
    ensures r.Some? ==> forall j :: 0 <= j < r.value ==> !(cs[j].sign == sign && !cs[j].isDeleted)
    ensures r.None? ==> forall j :: 0 <= j < |cs| ==> !(cs[j].sign == sign && !cs[j].isDeleted)
  {
    if |cs| == 0 then None
    else if cs[0].sign == sign && !cs[0].isDeleted then Some(0)
    else
      match FindCurrency(cs[1..], sign)
      case None => None
      case Some(i) => Some(i + 1)
  }

  /** The decimal places a found currency supplies, if it has any. */
  function PlacesOf(cs: seq<Currency>, sign: string): Option<int>
  {
    match FindCurrency(cs, sign)
    case None => None
    case Some(i) => cs[i].decimalPlaces
  }

  /**
   * get_currency_decimal_places: 2 for a missing or empty sign; otherwise the
   * places of the first active currency with that sign in the cached list, then
   * in the database rows; 2 when neither supplies a value.  The result is
   * always the default or the places of some live currency with the sign.
   */
  function CurrencyDecimalPlaces(sign: Option<string>, cached: seq<Currency>, db: seq<Currency>): (r: int)
    ensures sign.None? || sign == Some("") ==> r == DefaultDecimalPlaces
    ensures r == DefaultDecimalPlaces || (sign.Some? && (Listed(cached, sign.value, r) || Listed(db, sign.value, r)))
    ensures sign.Some? && sign.value != "" && FindCurrency(cached, sign.value).Some? &&
            cached[FindCurrency(cached, sign.value).value].decimalPlaces.Some? ==>
      r == cached[FindCurrency(cached, sign.value).value].decimalPlaces.value
    ensures sign.Some? && FindCurrency(cached, sign.value).None? && FindCurrency(db, sign.value).None? ==>
      r == DefaultDecimalPlaces
  {
    if sign.None? || sign.value == "" then DefaultDecimalPlaces
    else if PlacesOf(cached, sign.value).Some? then
      var i := FindCurrency(cached, sign.value).value;
      assert cached[i].decimalPlaces == PlacesOf(cached, sign.value);
      PlacesOf(cached, sign.value).value
    else if PlacesOf(db, sign.value).Some? then
      var i := FindCurrency(db, sign.value).value;
      assert db[i].decimalPlaces == PlacesOf(db, sign.value);
      PlacesOf(db, sign.value).value
    else DefaultDecimalPlaces
  }

  /** Some active currency with `sign` in `cs` has exactly `d` decimal places. */
  ghost predicate Listed(cs: seq<Currency>, sign: string, d: int)
  {
    exists i :: 0 <= i < |cs| && cs[i].sign == sign && !cs[i].isDeleted && cs[i].decimalPlaces == Some(d)
  }

  // ------------------------------------------------------------------ rounding

  /** Decimal quantize(1, ROUND_DOWN): the integer part, toward zero. */
  function TruncateTowardZero(x: real): int
  {
    if x >= 0.0 then x.Floor else -((-x).Floor)
  }

  /** Decimal quantize(1, ROUND_HALF_UP): nearest integer, halves away from zero. */
  function QuantizeHalfUp(x: real): int
  {
    if x >= 0.0 then (x + 0.5).Floor else -((-x + 0.5).Floor)
  }

  /** The decimal places actually used: a negative count is taken as 0. */
  function EffectivePlaces(decimalPlaces: int): nat
  {
    if decimalPlaces < 0 then 0 else decimalPlaces
  }

  function Scale(decimalPlaces: int): (m: real)
    ensures m >= 1.0
  {
    Text.Pow10(EffectivePlaces(decimalPlaces)) as real
  }

  /**
   * The integer that round_by_currency keeps after shifting: the fractional part
   * left after truncating toward zero decides; at least 0.5 rounds half up,
   * anything less truncates.
   */
  function RoundUnits(shifted: real): int
  {
    var down := TruncateTowardZero(shifted);
    if shifted - down as real >= 0.5 then QuantizeHalfUp(shifted) else down
  }

  /** Rounding to a grid of 1/m: shift by m, round the units, shift back. */
  function RoundAt(value: real, m: real): real
    requires m >= 1.0
  {
    RoundUnits(value * m) as real / m
  }

  /** round_by_currency, with m = 10^dp: the result is a whole multiple of
      10^-dp. */
  function RoundByCurrency(value: real, decimalPlaces: int): (r: real)
    ensures OnGrid(r, decimalPlaces)
  {
    RoundAtOnGrid(value, Scale(decimalPlaces));
    RoundAt(value, Scale(decimalPlaces))
  }

  /** `x` is a whole number of units 1/m. */
  ghost predicate OnGridAt(x: real, m: real)
  {
    (x * m).Floor as real == x * m
  }

  /** `x` is a whole number of units of 10^-dp. */
  ghost predicate OnGrid(x: real, decimalPlaces: int)
  {
    OnGridAt(x, Scale(decimalPlaces))
  }

  // Scaling facts, kept apart so that each proof sees little nonlinear arithmetic.

  lemma DivThenMul(k: real, m: real)
    requires m >= 1.0
    ensures (k / m) * m == k
  {
  }

  lemma MulThenDiv(v: real, m: real)
    requires m >= 1.0
    ensures (v * m) / m == v
  {
  }

  lemma DivMonotone(x: real, y: real, m: real)
    requires m >= 1.0 && x <= y
    ensures x / m <= y / m
    ensures x < y ==> x / m < y / m
  {
  }

  lemma DivSum(v: real, m: real, h: real)
    requires m >= 1.0
    ensures (v * m + h) / m == v + h / m
    ensures (v * m - h) / m == v - h / m
  {
  }

  lemma MulMonotone(x: real, y: real, m: real)
    requires m >= 1.0 && x <= y
    ensures x * m <= y * m
    ensures x < y ==> x * m < y * m
  {
  }

  // Facts about the units, in linear arithmetic only.

  /** A whole number of units is kept as it is. */
  lemma UnitsOfWhole(k: int)
    ensures RoundUnits(k as real) == k
  {
    var s := k as real;
    assert s.Floor == k;
    if s < 0.0 {
      assert (-s).Floor == -k;
    }
  }

  /** On a non-negative shifted value the rule is floor(s + 1/2). */
  lemma UnitsHalfUp(s: real)
    requires s >= 0.0
    ensures RoundUnits(s) == (s + 0.5).Floor
  {
    var down := s.Floor;
    assert TruncateTowardZero(s) == down;
    if s - down as real < 0.5 {
      assert (s + 0.5).Floor == down;
    }
  }

  /** On a negative shifted value the rule is truncation toward zero. */
  lemma UnitsNegative(s: real)
    requires s < 0.0
    ensures RoundUnits(s) == TruncateTowardZero(s)
    ensures s <= TruncateTowardZero(s) as real <= 0.0
  {
    var t := TruncateTowardZero(s);
    assert t == -((-s).Floor);
  }

  // The same properties for an arbitrary grid 1/m.

  lemma RoundAtOnGrid(value: real, m: real)
    requires m >= 1.0
    ensures OnGridAt(RoundAt(value, m), m)
  {
    var k := RoundUnits(value * m);
    var r := RoundAt(value, m);
    assert r == k as real / m;
    DivThenMul(k as real, m);
    assert r * m == k as real;
    assert (k as real).Floor == k;
    assert (r * m).Floor == k;
    assert OnGridAt(r, m);
  }

  lemma RoundAtOfGridValue(value: real, m: real)
    requires m >= 1.0 && OnGridAt(value, m)
    ensures RoundAt(value, m) == value
  {
    var s := value * m;
    UnitsOfWhole(s.Floor);
    MulThenDiv(value, m);
  }

  lemma RoundAtHalfUp(value: real, m: real)
    requires m >= 1.0 && value >= 0.0
    ensures RoundAt(value, m) == (value * m + 0.5).Floor as real / m
  {
    MulMonotone(0.0, value, m);
    UnitsHalfUp(value * m);
  }

  lemma RoundAtErrorBound(value: real, m: real)
    requires m >= 1.0 && value >= 0.0
    ensures value - 0.5 / m < RoundAt(value, m) <= value + 0.5 / m
  {
    RoundAtHalfUp(value, m);
    var s := value * m;
    var k := (s + 0.5).Floor as real;
    assert s - 0.5 < k <= s + 0.5;
    ScaledBetween(value, k, m);
  }

  /** A whole number within half a unit of value·m lies, once divided by
      m, within half a unit of 1/m of value. */
  lemma ScaledBetween(value: real, k: real, m: real)
    requires m >= 1.0 && value * m - 0.5 < k <= value * m + 0.5
    ensures value - 0.5 / m < k / m <= value + 0.5 / m
  {
    DivMonotone(k, value * m + 0.5, m);
    DivMonotone(value * m - 0.5, k, m);
    DivSum(value, m, 0.5);
  }

  lemma RoundAtNegative(value: real, m: real)
    requires m >= 1.0 && value < 0.0
    ensures RoundAt(value, m) == TruncateTowardZero(value * m) as real / m
    ensures value <= RoundAt(value, m) <= 0.0
  {
    var s := value * m;
    MulMonotone(value, 0.0, m);
    assert s < 0.0;
    UnitsNegative(s);
    assert RoundAt(value, m) == RoundUnits(s) as real / m;
    var t := TruncateTowardZero(s);
    DivMonotone(s, t as real, m);
    DivMonotone(t as real, 0.0, m);
    MulThenDiv(value, m);
    assert 0.0 / m == 0.0;
  }

  lemma RoundAtNonNegative(value: real, m: real)
    requires m >= 1.0 && value >= 0.0
    ensures RoundAt(value, m) >= 0.0
  {
    var s := value * m;
    MulMonotone(0.0, value, m);
    UnitsHalfUp(s);
    DivMonotone(0.0, (s + 0.5).Floor as real, m);
    assert 0.0 / m == 0.0;
  }

  lemma RoundAtBelowGridPoint(value: real, p: real, m: real)
    requires m >= 1.0 && 0.0 <= value <= p && OnGridAt(p, m)
    ensures RoundAt(value, m) <= p
  {
    var s := value * m;
    var q := p * m;
    MulMonotone(value, p, m);
    MulMonotone(0.0, value, m);
    UnitsHalfUp(s);
    var k := (s + 0.5).Floor;
    assert k <= q.Floor;
    DivMonotone(k as real, q, m);
    MulThenDiv(p, m);
  }

  // Properties of round_by_currency.

  /** A negative number of places rounds like zero places. */
  lemma RoundNegativePlaces(value: real, decimalPlaces: int)
    requires decimalPlaces < 0
    ensures RoundByCurrency(value, decimalPlaces) == RoundByCurrency(value, 0)
    ensures OnGrid(RoundByCurrency(value, decimalPlaces), 0)
  {
  }

  /** A value already on the grid is returned unchanged. */
  lemma RoundOfGridValue(value: real, decimalPlaces: int)
    requires OnGrid(value, decimalPlaces)
    ensures RoundByCurrency(value, decimalPlaces) == value
  {
    RoundAtOfGridValue(value, Scale(decimalPlaces));
  }

  /** Rounding an already-rounded value returns it unchanged. */
  lemma RoundIdempotent(value: real, decimalPlaces: int)
    ensures RoundByCurrency(RoundByCurrency(value, decimalPlaces), decimalPlaces)
         == RoundByCurrency(value, decimalPlaces)
  {
    RoundOfGridValue(RoundByCurrency(value, decimalPlaces), decimalPlaces);
  }

  /**
   * For a non-negative value the rule is classic half-up rounding:
   * floor(value·10^dp + 1/2) / 10^dp.
   */
  lemma RoundHalfUpNonNegative(value: real, decimalPlaces: int)
    requires value >= 0.0
    ensures RoundByCurrency(value, decimalPlaces)
         == (value * Scale(decimalPlaces) + 0.5).Floor as real / Scale(decimalPlaces)
  {
    RoundAtHalfUp(value, Scale(decimalPlaces));
  }

  /**
   * For a non-negative value the result lies within half a unit of the last
   * kept place: value - u/2 < result <= value + u/2 with u = 10^-dp.
   */
  lemma RoundErrorBound(value: real, decimalPlaces: int)
    requires value >= 0.0
    ensures var r := RoundByCurrency(value, decimalPlaces); var m := Scale(decimalPlaces);
      value - 0.5 / m < r <= value + 0.5 / m
  {
    RoundAtErrorBound(value, Scale(decimalPlaces));
  }

  /** For a negative value the fractional part never reaches 0.5: the result is truncation toward zero. */
  lemma RoundNegativeTruncates(value: real, decimalPlaces: int)
    requires value < 0.0
    ensures RoundByCurrency(value, decimalPlaces)
         == TruncateTowardZero(value * Scale(decimalPlaces)) as real / Scale(decimalPlaces)
    ensures value <= RoundByCurrency(value, decimalPlaces) <= 0.0
  {
    RoundAtNegative(value, Scale(decimalPlaces));
  }

  /** Rounding a non-negative value never gives a negative result. */
  lemma RoundNonNegative(value: real, decimalPlaces: int)
    requires value >= 0.0
    ensures RoundByCurrency(value, decimalPlaces) >= 0.0
  {
    RoundAtNonNegative(value, Scale(decimalPlaces));
  }

  /** A value at most a grid point `p` never rounds above `p`. */
  lemma RoundMonotoneToGrid(value: real, p: real, decimalPlaces: int)
    requires 0.0 <= value <= p && OnGrid(p, decimalPlaces)
    ensures RoundByCurrency(value, decimalPlaces) <= p
  {
    RoundAtBelowGridPoint(value, p, Scale(decimalPlaces));
  }

  /** The examples given for two places, and a tie, which rounds up rather than to even. */
  lemma RoundExamples()
    ensures RoundByCurrency(1.12345, 2) == 1.12
    ensures RoundByCurrency(1.65231, 2) == 1.65
    ensures RoundByCurrency(1.34567, 2) == 1.35
    ensures RoundByCurrency(1.56789, 2) == 1.57
    ensures RoundByCurrency(0.125, 2) == 0.13
    ensures RoundByCurrency(-1.255, 2) == -1.25
  {
    assert Scale(2) == 100.0;
    UnitsHalfUp(112.345);
    assert (112.845).Floor == 112;
    UnitsHalfUp(165.231);
    assert (165.731).Floor == 165;
    UnitsHalfUp(134.567);
    assert (135.067).Floor == 135;
    UnitsHalfUp(156.789);
    assert (157.289).Floor == 157;
    UnitsHalfUp(12.5);
    assert (13.0).Floor == 13;
    UnitsNegative(-125.5);
    assert (125.5).Floor == 125;
  }

  // ------------------------------------------------------------------ VAT

  /** The exact VAT share of a VAT-inclusive price: price·rate/(100+rate). */
  function VatShare(price: real, rate: real): real
    requires rate > 0.0
  {
    price * (rate / (100.0 + rate))
  }

  /** calculate_vat: 0 for a non-positive rate, else the share rounded to the currency's places. */
  function CalculateVat(price: real, rate: real, sign: Option<string>, cached: seq<Currency>, db: seq<Currency>)
    : (r: real)
    ensures rate <= 0.0 ==> r == 0.0
    ensures OnGrid(r, CurrencyDecimalPlaces(sign, cached, db))
  {
    if rate <= 0.0 then 0.0
    else RoundByCurrency(VatShare(price, rate), CurrencyDecimalPlaces(sign, cached, db))
  }

  /** calculate_vat_with_decimal_places: the same with the places given directly. */
  function CalculateVatWithDecimalPlaces(price: real, rate: real, decimalPlaces: int): (r: real)
    ensures rate <= 0.0 ==> r == 0.0
    ensures OnGrid(r, decimalPlaces)
    ensures price >= 0.0 ==> r >= 0.0
  {
    if rate <= 0.0 then 0.0
    else
      assert price >= 0.0 ==> RoundByCurrency(VatShare(price, rate), decimalPlaces) >= 0.0 by {
        if price >= 0.0 {
          VatShareBounds(price, rate);
          RoundNonNegative(VatShare(price, rate), decimalPlaces);
        }
      }
      RoundByCurrency(VatShare(price, rate), decimalPlaces)
  }

  /** Both entry points agree when the explicit places are the currency's. */
  lemma CalculateVatAgrees(price: real, rate: real, sign: Option<string>, cached: seq<Currency>, db: seq<Currency>)
    ensures CalculateVatWithDecimalPlaces(price, rate, CurrencyDecimalPlaces(sign, cached, db))
         == CalculateVat(price, rate, sign, cached, db)
  {
  }

  /** The share of a non-negative price lies in [0, price) and shrinks the net part accordingly. */
  lemma VatShareBounds(price: real, rate: real)
    requires rate > 0.0 && price >= 0.0
    ensures 0.0 <= VatShare(price, rate) <= price
    ensures price > 0.0 ==> VatShare(price, rate) < price
  {
    var f := rate / (100.0 + rate);
    assert 0.0 < f < 1.0;
    assert price * f <= price * 1.0;
    if price > 0.0 {
      assert price * f < price * 1.0;
    }
  }

  /**
   * A non-positive rate gives no VAT; otherwise the VAT is on the currency's
   * grid, within half a unit of the exact share, non-negative for a
   * non-negative price, and never above a price that is itself on the grid.
   */
  lemma CalculateVatProperties(price: real, rate: real, sign: Option<string>, cached: seq<Currency>, db: seq<Currency>)
    ensures rate <= 0.0 ==> CalculateVat(price, rate, sign, cached, db) == 0.0
    ensures rate > 0.0 ==> OnGrid(CalculateVat(price, rate, sign, cached, db), CurrencyDecimalPlaces(sign, cached, db))
    ensures rate > 0.0 && price >= 0.0 ==>
      var v := CalculateVat(price, rate, sign, cached, db);
      var m := Scale(CurrencyDecimalPlaces(sign, cached, db));
      0.0 <= v && VatShare(price, rate) - 0.5 / m < v <= VatShare(price, rate) + 0.5 / m
    ensures rate > 0.0 && price >= 0.0 && OnGrid(price, CurrencyDecimalPlaces(sign, cached, db)) ==>
      CalculateVat(price, rate, sign, cached, db) <= price
  {
    if rate > 0.0 {
      var dp := CurrencyDecimalPlaces(sign, cached, db);
      var x := VatShare(price, rate);
      if price >= 0.0 {
        VatShareBounds(price, rate);
        RoundErrorBound(x, dp);
        RoundNonNegative(x, dp);
        if OnGrid(price, dp) {
          RoundMonotoneToGrid(x, price, dp);
        }
      }
    }
  }
}
