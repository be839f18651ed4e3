/**
 * The part of Python's string built-ins that the point-of-sale code relies on:
 * str.strip(), ASCII lower()/upper()/capitalize(), int(s), int(s, 16),
 * Decimal(s)/float(s) on plain decimal notation, str(n), zero-padded
 * formatting ("{n:06d}") and str.split() on a one-character separator.
 */
module Text {
  import opened Wrappers

  // ---------------------------------------------------------------- whitespace

  /** The ASCII characters for which Python's str.isspace() holds. */
  predicate IsSpace(c: char)
  {
    c == ' ' || ('\t' <= c <= '\r') || ('\U{1c}' <= c <= '\U{1f}')
  }

  /** The first index at or after `i` that holds no whitespace (|s| when there is none). */
  function SpaceRunEnd(s: string, i: nat): (k: nat)
    requires i <= |s|
    ensures i <= k <= |s|
    decreases |s| - i
  {
    if i < |s| && IsSpace(s[i]) then SpaceRunEnd(s, i + 1) else i
  }

  /** The end of `s[..j]` once its trailing whitespace is dropped. */
  function SpaceRunStart(s: string, j: nat): (k: nat)
    requires j <= |s|
    ensures k <= j
  {
    if j > 0 && IsSpace(s[j - 1]) then SpaceRunStart(s, j - 1) else j
  }

  lemma {:induction false} SpaceRunEndSpec(s: string, i: nat)
    requires i <= |s|
    ensures forall j :: i <= j < SpaceRunEnd(s, i) ==> IsSpace(s[j])
    ensures SpaceRunEnd(s, i) < |s| ==> !IsSpace(s[SpaceRunEnd(s, i)])
    decreases |s| - i
  {
    if i < |s| && IsSpace(s[i]) {
      SpaceRunEndSpec(s, i + 1);
    }
  }

  lemma {:induction false} SpaceRunStartSpec(s: string, j: nat)
    requires j <= |s|
    ensures forall i :: SpaceRunStart(s, j) <= i < j ==> IsSpace(s[i])
    ensures SpaceRunStart(s, j) > 0 ==> !IsSpace(s[SpaceRunStart(s, j) - 1])
  {
    if j > 0 && IsSpace(s[j - 1]) {
      SpaceRunStartSpec(s, j - 1);
    }
  }

  /** Python's str.lstrip(). */
  function TrimLeft(s: string): string
  {
    s[SpaceRunEnd(s, 0)..]
  }

  /** Python's str.rstrip(). */
  function TrimRight(s: string): string
  {
    s[..SpaceRunStart(s, |s|)]
  }

  /** Python's str.strip() without arguments. */
  function Strip(s: string): string
  {
    TrimRight(TrimLeft(s))
  }

  /** A string that starts and ends with a non-blank character is its own strip(). */
  lemma StripUnchanged(s: string)
    requires s == [] || (!IsSpace(s[0]) && !IsSpace(s[|s| - 1]))
    ensures Strip(s) == s
  {
  }

  /** strip() leaves a string that is empty or has non-blank ends. */
  lemma StripEnds(s: string)
    ensures var t := Strip(s); t == [] || (!IsSpace(t[0]) && !IsSpace(t[|t| - 1]))
  {
    SpaceRunEndSpec(s, 0);
    var l := TrimLeft(s);
    SpaceRunStartSpec(l, |l|);
    var t := TrimRight(l);
    if t != [] {
      assert t[0] == l[0] && t[|t| - 1] == l[|t| - 1];
    }
  }

  /** strip() is idempotent. */
  lemma StripIdempotent(s: string)
    ensures Strip(Strip(s)) == Strip(s)
  {
    StripEnds(s);
    StripUnchanged(Strip(s));
  }

  // ---------------------------------------------------------------- case

  function LowerChar(c: char): char
  {
    if 'A' <= c <= 'Z' then (c as int + 32) as char else c
  }

  function UpperChar(c: char): char
  {
    if 'a' <= c <= 'z' then (c as int - 32) as char else c
  }

  /** Python's str.lower() on ASCII letters. */
  function Lower(s: string): (r: string)
    ensures |r| == |s|
  {
    seq(|s|, i requires 0 <= i < |s| => LowerChar(s[i]))
  }

  /** Python's str.upper() on ASCII letters. */
  function Upper(s: string): (r: string)
    ensures |r| == |s|
  {
    seq(|s|, i requires 0 <= i < |s| => UpperChar(s[i]))
  }

  /** Python's str.capitalize(): first character upper-cased, the rest lower-cased. */
  function Capitalize(s: string): (r: string)
    ensures |r| == |s|
  {
    if |s| == 0 then "" else [UpperChar(s[0])] + Lower(s[1..])
  }

  /** Lower-casing twice is lower-casing once, and the case of the input does not matter. */
  lemma LowerIdempotent(s: string)
    ensures Lower(Lower(s)) == Lower(s)
    ensures Lower(Upper(s)) == Lower(s)
  {
    assert forall i :: 0 <= i < |s| ==> Lower(Lower(s))[i] == Lower(s)[i];
    assert forall i :: 0 <= i < |s| ==> Lower(Upper(s))[i] == Lower(s)[i];
  }

  lemma LowerAppend(a: string, b: string)
    ensures Lower(a + b) == Lower(a) + Lower(b)
  {
    assert forall i :: 0 <= i < |a + b| ==> Lower(a + b)[i] == (Lower(a) + Lower(b))[i];
  }

  // ---------------------------------------------------------------- decimal digits

  predicate IsDigit(c: char)
  {
    '0' <= c <= '9'
  }

  predicate AllDigits(s: string)
  {
    forall i :: 0 <= i < |s| ==> IsDigit(s[i])
  }

  /** A non-empty run of decimal digits. */
  predicate IsDigits(s: string)
  {
    |s| > 0 && AllDigits(s)
  }

  function DigitValue(c: char): nat
    requires IsDigit(c)
  {
    c as int - '0' as int
  }

  function DigitChar(d: nat): (c: char)
    requires d < 10
    ensures IsDigit(c) && DigitValue(c) == d
  {
    ('0' as int + d) as char
  }

  /** The number a run of decimal digits denotes. */
  function DigitsValue(s: string): nat
    requires AllDigits(s)
  {
    if |s| == 0 then 0 else DigitsValue(s[..|s| - 1]) * 10 + DigitValue(s[|s| - 1])
  }

  /** Python's str() of a non-negative integer. */
  function NatToString(n: nat): (r: string)
    ensures IsDigits(r)
  {
    if n < 10 then [DigitChar(n)] else NatToString(n / 10) + [DigitChar(n % 10)]
  }

  lemma {:induction false} NatToStringValue(n: nat)
    ensures DigitsValue(NatToString(n)) == n
  {
    if n >= 10 {
      var s := NatToString(n);
      assert s[..|s| - 1] == NatToString(n / 10);
      NatToStringValue(n / 10);
    }
  }

  /** Python's str() of an integer. */
  function IntToString(n: int): string
  {
    if n < 0 then "-" + NatToString(-n) else NatToString(n)
  }

  /**
   * Python's int(s) on a string: surrounding whitespace, an optional sign and
   * at least one decimal digit; anything else is a ValueError (None here).
   */
  function ParseInt(s: string): Option<int>
  {
    ParseSignedDigits(Strip(s))
  }

  /** An optional sign followed by at least one decimal digit, and nothing else. */
  function ParseSignedDigits(t: string): Option<int>
  {
    if |t| > 0 && (t[0] == '+' || t[0] == '-') then
      if IsDigits(t[1..]) then
        Some(if t[0] == '-' then -(DigitsValue(t[1..]) as int) else DigitsValue(t[1..]))
      else None
    else if IsDigits(t) then Some(DigitsValue(t))
    else None
  }

  /** '-' followed by digits has no surrounding whitespace to strip. */
  lemma StripNegativeDigits(d: string)
    requires IsDigits(d)
    ensures Strip("-" + d) == "-" + d
  {
    var s := "-" + d;
    assert s[|s| - 1] == d[|d| - 1];
    StripUnchanged(s);
  }

  lemma SignedNegativeDigits(d: string)
    requires IsDigits(d)
    ensures ParseSignedDigits("-" + d) == Some(-(DigitsValue(d) as int))
  {
    var s := "-" + d;
    assert s[0] == '-' && s[1..] == d;
  }

  /** int() of '-' followed by a run of digits. */
  lemma ParseIntNegative(d: string)
    requires IsDigits(d)
    ensures ParseInt("-" + d) == Some(-(DigitsValue(d) as int))
  {
    StripNegativeDigits(d);
    SignedNegativeDigits(d);
  }

  /** int() of a run of digits. */
  lemma ParseIntNonNegative(d: string)
    requires IsDigits(d)
    ensures ParseInt(d) == Some(DigitsValue(d) as int)
  {
    assert IsDigit(d[0]) && IsDigit(d[|d| - 1]);
    StripUnchanged(d);
  }

  /** int(str(n)) == n. */
  lemma IntToStringRoundTrip(n: int)
    ensures ParseInt(IntToString(n)) == Some(n)
  {
    var m: nat := if n < 0 then -n else n;
    var d := NatToString(m);
    NatToStringValue(m);
    if n < 0 {
      ParseIntNegative(d);
    } else {
      ParseIntNonNegative(d);
    }
  }

  function Repeat(c: char, k: nat): (r: string)
    ensures |r| == k && forall i :: 0 <= i < k ==> r[i] == c
  {
    if k == 0 then "" else Repeat(c, k - 1) + [c]
  }

  lemma {:induction false} LeadingZeros(k: nat, d: string)
    requires AllDigits(d)
    ensures AllDigits(Repeat('0', k) + d)
    ensures DigitsValue(Repeat('0', k) + d) == DigitsValue(d)
    decreases |d|, k
  {
    var s := Repeat('0', k) + d;
    if |d| == 0 {
      assert s == Repeat('0', k);
      if k > 0 {
        assert s[..|s| - 1] == Repeat('0', k - 1) + d;
        LeadingZeros(k - 1, d);
      }
    } else {
      assert s[..|s| - 1] == Repeat('0', k) + d[..|d| - 1];
      LeadingZeros(k, d[..|d| - 1]);
    }
  }

  /** Digits left-padded with zeros to at least `width` characters. */
  function ZeroFill(digits: string, width: int): string
  {
    Repeat('0', if width - |digits| > 0 then width - |digits| else 0) + digits
  }

  lemma ZeroFillValue(d: string, width: int)
    requires IsDigits(d)
    ensures IsDigits(ZeroFill(d, width)) && DigitsValue(ZeroFill(d, width)) == DigitsValue(d)
  {
    LeadingZeros(if width - |d| > 0 then width - |d| else 0, d);
  }

  /**
   * Python's format(n, "0<width>d"): the digits of |n| left-padded with zeros so
   * that sign and digits together take at least `width` characters.
   */
  function PadInt(n: int, width: nat): string
  {
    if n < 0 then "-" + ZeroFill(NatToString(-n), width - 1) else ZeroFill(NatToString(n), width)
  }

  /** Zero padding never changes the number: int(format(n, "06d")) == n. */
  lemma PadIntRoundTrip(n: int, width: nat)
    ensures ParseInt(PadInt(n, width)) == Some(n)
  {
    if n < 0 {
      var d := NatToString(-n);
      NatToStringValue(-n);
      ZeroFillValue(d, width - 1);
      var z := ZeroFill(d, width - 1);
      assert DigitsValue(z) == -n;
      ParseIntNegative(z);
      assert PadInt(n, width) == "-" + z;
    } else {
      var d := NatToString(n);
      NatToStringValue(n);
      ZeroFillValue(d, width);
      var z := ZeroFill(d, width);
      assert DigitsValue(z) == n;
      ParseIntNonNegative(z);
    }
  }

  /** A padded natural number is all digits, so it holds no '-'. */
  lemma PadIntDigits(n: nat, width: nat)
    ensures AllDigits(PadInt(n, width)) && '-' !in PadInt(n, width)
  {
    NatToStringValue(n);
    ZeroFillValue(NatToString(n), width);
  }

  /** The padded text is `width` long, or the plain str(n) when that is longer. */
  lemma PadIntLength(n: int, width: nat)
    ensures |PadInt(n, width)| == if width > |IntToString(n)| then width else |IntToString(n)|
  {
  }

  // ---------------------------------------------------------------- hexadecimal

  predicate IsHexDigit(c: char)
  {
    IsDigit(c) || ('a' <= c <= 'f') || ('A' <= c <= 'F')
  }

  predicate IsHexDigits(s: string)
  {
    |s| > 0 && forall i :: 0 <= i < |s| ==> IsHexDigit(s[i])
  }

  function HexDigitValue(c: char): (v: nat)
    requires IsHexDigit(c)
    ensures v < 16
  {
    if IsDigit(c) then DigitValue(c)
    else if 'a' <= c <= 'f' then c as int - 'a' as int + 10
    else c as int - 'A' as int + 10
  }

  function HexValue(s: string): nat
    requires forall i :: 0 <= i < |s| ==> IsHexDigit(s[i])
  {
    if |s| == 0 then 0 else HexValue(s[..|s| - 1]) * 16 + HexDigitValue(s[|s| - 1])
  }

  /** Drops one leading "0x" or "0X", as int(s, 16) allows. */
  function DropHexPrefix(u: string): string
  {
    if |u| >= 2 && u[0] == '0' && (u[1] == 'x' || u[1] == 'X') then u[2..] else u
  }

  /**
   * A hexadecimal integer: surrounding ASCII whitespace, an optional sign, an
   * optional 0x/0X prefix and at least one ASCII hexadecimal digit.  This is
   * the plain-ASCII part of what Python's int(s, 16) accepts: underscores
   * between digits, Unicode whitespace and non-ASCII digits are refused.
   */
  function ParseHex(s: string): Option<int>
  {
    var t := Strip(s);
    var signed := |t| > 0 && (t[0] == '+' || t[0] == '-');
    var digits := DropHexPrefix(if signed then t[1..] else t);
    if IsHexDigits(digits) then
      Some(if signed && t[0] == '-' then -(HexValue(digits) as int) else HexValue(digits))
    else None
  }

  // ---------------------------------------------------------------- decimal numbers

  /** Position of the first `c` in `s`, or |s| when there is none. */
  function IndexOfChar(s: string, c: char): (i: nat)
    ensures i <= |s|
    ensures forall j :: 0 <= j < i ==> s[j] != c
    ensures i < |s| ==> s[i] == c
  {
    if |s| == 0 then 0 else if s[0] == c then 0 else 1 + IndexOfChar(s[1..], c)
  }

  function Pow10(n: nat): (p: nat)
    ensures p >= 1
  {
    if n == 0 then 1 else 10 * Pow10(n - 1)
  }

  /** The value of the digits after a decimal point: "25" is 0.25. */
  function FracValue(frac: string): (v: real)
    requires AllDigits(frac)
    ensures 0.0 <= v
  {
    if |frac| == 0 then 0.0 else (DigitValue(frac[0]) as real + FracValue(frac[1..])) / 10.0
  }

  /**
   * Decimal(s) and float(s) on plain positional notation: whitespace, an
   * optional sign, digits with at most one '.', and at least one digit.
   */
  function ParseDecimal(s: string): Option<real>
  {
    ParseSignedDecimal(Strip(s))
  }

  function ParseSignedDecimal(t: string): Option<real>
  {
    var signed := |t| > 0 && (t[0] == '+' || t[0] == '-');
    var u := if signed then t[1..] else t;
    var i := IndexOfChar(u, '.');
    var whole := u[..i];
    var frac := if i < |u| then u[i + 1..] else "";
    if AllDigits(whole) && AllDigits(frac) && |whole| + |frac| > 0 then
      var v := DigitsValue(whole) as real + FracValue(frac);
      Some(if signed && t[0] == '-' then -v else v)
    else None
  }

  /** A run of digits contains no '.'. */
  lemma DigitsHaveNoPoint(d: string)
    requires IsDigits(d)
    ensures IndexOfChar(d, '.') == |d|
  {
    var i := IndexOfChar(d, '.');
    if i < |d| {
      assert !IsDigit(d[i]);
    }
  }

  /** Decimal() of '-' followed by a run of digits. */
  lemma ParseDecimalNegative(d: string)
    requires IsDigits(d)
    ensures ParseDecimal("-" + d) == Some(-(DigitsValue(d) as real))
  {
    StripNegativeDigits(d);
    SignedDecimalNegative(d);
  }

  lemma SignedDecimalNegative(d: string)
    requires IsDigits(d)
    ensures ParseSignedDecimal("-" + d) == Some(-(DigitsValue(d) as real))
  {
    var s := "-" + d;
    assert s[0] == '-' && s[1..] == d;
    DigitsHaveNoPoint(d);
    assert d[..|d|] == d;
  }

  /** Decimal() of a run of digits. */
  lemma ParseDecimalNonNegative(d: string)
    requires IsDigits(d)
    ensures ParseDecimal(d) == Some(DigitsValue(d) as real)
  {
    DigitsHaveNoPoint(d);
    assert d[..|d|] == d;
    assert IsDigit(d[0]) && IsDigit(d[|d| - 1]);
    StripUnchanged(d);
  }

  /** An integer written out in decimal parses back to itself as a decimal. */
  lemma ParseDecimalOfInt(n: int)
    ensures ParseDecimal(IntToString(n)) == Some(n as real)
  {
    var m: nat := if n < 0 then -n else n;
    var d := NatToString(m);
    NatToStringValue(m);
    if n < 0 {
      assert IntToString(n) == "-" + d;
      ParseDecimalNegative(d);
      assert -(DigitsValue(d) as real) == n as real;
    } else {
      assert IntToString(n) == d;
      ParseDecimalNonNegative(d);
    }
  }

  // ---------------------------------------------------------------- split and join

  /** Python's s.split(c) for a one-character separator `c`. */
  function Split(s: string, c: char): (r: seq<string>)
    ensures |r| >= 1
  {
    if |s| == 0 then [""]
    else
      var rest := Split(s[1..], c);
      if s[0] == c then [""] + rest else [[s[0]] + rest[0]] + rest[1..]
  }

  /** Python's c.join(parts). */
  function Join(parts: seq<string>, c: char): string
  {
    if |parts| == 0 then ""
    else if |parts| == 1 then parts[0]
    else parts[0] + [c] + Join(parts[1..], c)
  }

  /** No piece returned by split(c) contains c. */
  lemma {:induction false} SplitPiecesFree(s: string, c: char)
    ensures forall k :: 0 <= k < |Split(s, c)| ==> c !in Split(s, c)[k]
  {
    if |s| > 0 {
      SplitPiecesFree(s[1..], c);
    }
  }

  /** c.join(s.split(c)) == s. */
  lemma {:induction false} JoinSplit(s: string, c: char)
    ensures Join(Split(s, c), c) == s
  {
    if |s| > 0 {
      var rest := Split(s[1..], c);
      JoinSplit(s[1..], c);
      if s[0] != c && |rest| > 1 {
        assert Join(rest, c) == rest[0] + [c] + Join(rest[1..], c);
        assert ([[s[0]] + rest[0]] + rest[1..])[1..] == rest[1..];
      }
    }
  }

  lemma {:induction false} SplitAtFirst(a: string, b: string, c: char)
    requires c !in a
    ensures Split(a + [c] + b, c) == [a] + Split(b, c)
  {
    var s := a + [c] + b;
    if |a| == 0 {
      assert s[1..] == b;
    } else {
      assert s[1..] == a[1..] + [c] + b;
      SplitAtFirst(a[1..], b, c);
      assert [a[0]] + a[1..] == a;
    }
  }

  lemma {:induction false} SplitFree(a: string, c: char)
    requires c !in a
    ensures Split(a, c) == [a]
  {
    if |a| > 0 {
      SplitFree(a[1..], c);
      assert [a[0]] + a[1..] == a;
    }
  }

  /** Splitting a join of separator-free pieces gives the pieces back. */
  lemma {:induction false} SplitJoin(parts: seq<string>, c: char)
    requires |parts| >= 1
    requires forall k :: 0 <= k < |parts| ==> c !in parts[k]
    ensures Split(Join(parts, c), c) == parts
  {
    if |parts| == 1 {
      SplitFree(parts[0], c);
    } else {
      SplitJoin(parts[1..], c);
      SplitAtFirst(parts[0], Join(parts[1..], c), c);
      assert [parts[0]] + parts[1..] == parts;
    }
  }

  /** The text before the first occurrence of `sep` (all of `s` when absent): s.split(sep)[0]. */
  function BeforeFirst(s: string, sep: string): (r: string)
    requires |sep| > 0
    ensures r <= s
    ensures r == s || (r + sep <= s && forall j :: 0 <= j < |r| ==> !(sep <= s[j..]))
  {
    if |s| < |sep| then s
    else if sep <= s then ""
    else
      var rest := BeforeFirst(s[1..], sep);
      assert forall j :: 1 <= j <= |s| ==> s[j..] == s[1..][j - 1..];
      [s[0]] + rest
  }

  // ---------------------------------------------------------------- slices

  /** Python's s[k:]: the text after the first k characters ("" when s is shorter). */
  function DropFirst(s: string, k: nat): (r: string)
    ensures k <= |s| ==> s == s[..k] + r
    ensures k >= |s| ==> r == ""
  {
    if k <= |s| then s[k..] else ""
  }

  /** Python's `sub in s`. */
  predicate Contains(s: string, sub: string)
  {
    sub <= s || (|s| > 0 && Contains(s[1..], sub))
  }
}
