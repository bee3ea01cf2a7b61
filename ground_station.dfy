// The ground station: the team's work period (a one-field state machine over
// the next working date) and the export of TLE fields cut out of the two
// lines of a NORAD Two-Line Element set by fixed column slices.

module TleFormat {
  import opened Wrappers

  predicate IsDigit(c: char) {
    '0' <= c <= '9'
  }

  predicate AllDigits(s: string) {
    forall i :: 0 <= i < |s| ==> IsDigit(s[i])
  }

  function DigitValue(c: char): nat
    requires IsDigit(c)
  {
    c as int - '0' as int
  }

  /** The natural number written in decimal by `s`. */
  function DigitsValue(s: string): nat
    requires AllDigits(s)
  {
    if |s| == 0 then 0 else DigitsValue(s[..|s| - 1]) * 10 + DigitValue(s[|s| - 1])
  }

  function Pow10(n: nat): (r: nat)
    ensures r >= 1
  {
    if n == 0 then 1 else 10 * Pow10(n - 1)
  }

  /** x * 10^e for a signed exponent. */
  function ScaleByPow10(x: real, e: int): real {
    if e >= 0 then x * Pow10(e) as real else x / Pow10(-e) as real
  }

  /** Index of the first `c` in `s`, or |s| when there is none. */
  function IndexOf(s: string, c: char): (k: nat)
    ensures k <= |s|
    ensures k < |s| ==> s[k] == c
    ensures forall j :: 0 <= j < k ==> s[j] != c
  {
    if |s| == 0 then 0 else if s[0] == c then 0 else 1 + IndexOf(s[1..], c)
  }

  predicate IsExponentMarker(c: char) {
    c == 'e' || c == 'E'
  }

  /** Index of the first exponent marker of `s`, or |s| when there is none. */
  function ExponentMarkerIndex(s: string): (k: nat)
    ensures k <= |s|
    ensures k < |s| ==> IsExponentMarker(s[k])
    ensures forall j :: 0 <= j < k ==> !IsExponentMarker(s[j])
  {
    if |s| == 0 then 0 else if IsExponentMarker(s[0]) then 0 else 1 + ExponentMarkerIndex(s[1..])
  }

  /** String.trim: drops the leading and trailing characters up to ' '. */
  function TrimLeading(s: string): (t: string)
    ensures |t| <= |s| && t == s[|s| - |t|..]
    ensures |t| > 0 ==> t[0] > ' '
    ensures forall j :: 0 <= j < |s| - |t| ==> s[j] <= ' '
  {
    if |s| > 0 && s[0] <= ' ' then TrimLeading(s[1..]) else s
  }

  function TrimTrailing(s: string): (t: string)
    ensures |t| <= |s| && t == s[..|t|]
    ensures |t| > 0 ==> t[|t| - 1] > ' '
    ensures forall j :: |t| <= j < |s| ==> s[j] <= ' '
  {
    if |s| > 0 && s[|s| - 1] <= ' ' then TrimTrailing(s[..|s| - 1]) else s
  }

  function Trim(s: string): string {
    TrimTrailing(TrimLeading(s))
  }

  /** Digits, or digits, a point and digits, with at least one digit. */
  function ParseUnsignedDecimal(s: string): Option<real> {
    var p := IndexOf(s, '.');
    if p == |s| then
      if |s| > 0 && AllDigits(s) then Some(DigitsValue(s) as real) else None
    else
      var whole := s[..p];
      var fraction := s[p + 1..];
      if |whole| + |fraction| > 0 && AllDigits(whole) && AllDigits(fraction) then
        Some(DigitsValue(whole) as real + DigitsValue(fraction) as real / Pow10(|fraction|) as real)
      else
        None
  }

  function ParseSignedDecimal(s: string): Option<real> {
    if |s| > 0 && (s[0] == '-' || s[0] == '+') then
      match ParseUnsignedDecimal(s[1..])
      case None => None
      case Some(v) => Some(if s[0] == '-' then -v else v)
    else
      ParseUnsignedDecimal(s)
  }

  function ParseExponent(s: string): Option<int> {
    var signed := |s| > 0 && (s[0] == '-' || s[0] == '+');
    var digits := if signed then s[1..] else s;
    if |digits| > 0 && AllDigits(digits) then
      Some(if signed && s[0] == '-' then -(DigitsValue(digits) as int) else DigitsValue(digits))
    else
      None
  }

  /**
   * Double.valueOf on decimal text: blanks around, an optional sign, digits
   * with an optional point, then optionally an exponent marker and a signed
   * integer; anything else is a NumberFormatException (None).
   */
  function ValueOf(s: string): Option<real> {
    var t := Trim(s);
    var k := ExponentMarkerIndex(t);
    if k == |t| then
      ParseSignedDecimal(t)
    else
      match (ParseSignedDecimal(t[..k]), ParseExponent(t[k + 1..]))
      case (Some(m), Some(e)) => Some(ScaleByPow10(m, e))
      case _ => None
  }

  /**
   * An exponential field of a TLE (the second derivative of the mean motion,
   * columns 45-52 of line 1, and B*, columns 54-61): a sign or blank, five
   * digits read with an implied leading decimal point, the sign of the
   * exponent and one exponent digit.
   */
  predicate WellFormedExponentField(f: string) {
    |f| == 8 && (f[0] == ' ' || f[0] == '+' || f[0] == '-') && AllDigits(f[1..6])
    && (f[6] == '+' || f[6] == '-') && IsDigit(f[7])
  }

  /** The signed mantissa of a field: the five digits after an implied point. */
  function FieldMantissa(f: string): real
    requires WellFormedExponentField(f)
  {
    var m := DigitsValue(f[1..6]) as real / 100000.0;
    if f[0] == '-' then -m else m
  }

  /** The signed exponent of a field. */
  function FieldExponent(f: string): int
    requires WellFormedExponentField(f)
  {
    if f[6] == '-' then -(DigitValue(f[7]) as int) else DigitValue(f[7])
  }

  /** What the field means in the Two-Line Element format. */
  function FieldValue(f: string): real
    requires WellFormedExponentField(f)
  {
    ScaleByPow10(FieldMantissa(f), FieldExponent(f))
  }

  /** The text the ground station parses for such a field: the sign and the
    * five digits, "e", and the exponent digit (the exponent's sign and the
    * implied decimal point are not carried over). */
  function ExponentFieldAsWritten(f: string): string
    requires |f| == 8
  {
    f[..6] + "e" + [f[7]]
  }

  /** The text that carries the field's meaning: the sign, "0." before the
    * five digits, "e", the exponent's sign and digit. */
  function ExponentFieldCorrected(f: string): string
    requires |f| == 8
  {
    [f[0]] + "0." + f[1..6] + "e" + f[6..8]
  }

  /** The mantissa of the as-written text once trimmed: the five digits,
    * after the sign when there is one. */
  function AsWrittenMantissaText(f: string): string
    requires |f| == 8
  {
    if f[0] == ' ' then f[1..6] else f[..6]
  }

  /** The mantissa of the corrected text once trimmed. */
  function CorrectedMantissaText(f: string): string
    requires |f| == 8
  {
    if f[0] == ' ' then "0." + f[1..6] else [f[0]] + "0." + f[1..6]
  }

  lemma DigitsValueOfOne(c: char)
    requires IsDigit(c)
    ensures AllDigits([c]) && DigitsValue([c]) == DigitValue(c)
  {
    assert [c][..0] == [];
  }

  lemma TrimKeeps(s: string)
    requires |s| > 0 && s[0] > ' ' && s[|s| - 1] > ' '
    ensures Trim(s) == s
  {
  }

  lemma TrimDropsOneBlank(s: string)
    requires |s| > 1 && s[0] == ' ' && s[1] > ' ' && s[|s| - 1] > ' '
    ensures Trim(s) == s[1..]
  {
    assert TrimLeading(s) == TrimLeading(s[1..]) == s[1..];
  }

  lemma MarkerAfter(m: string, x: string)
    requires forall j :: 0 <= j < |m| ==> !IsExponentMarker(m[j])
    ensures ExponentMarkerIndex(m + "e" + x) == |m|
    ensures (m + "e" + x)[..|m|] == m && (m + "e" + x)[|m| + 1..] == x
  {
    var s := m + "e" + x;
    assert s[|m|] == 'e';
  }

  lemma UnsignedDigits(s: string)
    requires |s| > 0 && AllDigits(s)
    ensures ParseUnsignedDecimal(s) == Some(DigitsValue(s) as real)
  {
    assert forall j :: 0 <= j < |s| ==> s[j] != '.';
  }

  lemma UnsignedZeroPoint(d: string)
    requires |d| > 0 && AllDigits(d)
    ensures ParseUnsignedDecimal("0." + d) == Some(DigitsValue(d) as real / Pow10(|d|) as real)
  {
    var s := "0." + d;
    assert IndexOf(s, '.') == 1;
    assert s[..1] == "0" && s[2..] == d;
    DigitsValueOfOne('0');
  }

  /** The sign and digit of the exponent as written in the field. */
  lemma SignedExponent(f: string)
    requires WellFormedExponentField(f)
    ensures ParseExponent(f[6..8]) == Some(FieldExponent(f))
  {
    assert f[6..8][1..] == [f[7]];
    DigitsValueOfOne(f[7]);
  }

  /** Double.valueOf of a text whose trimmed form is a mantissa, "e" and an
    * exponent. */
  lemma ValueOfWithExponent(s: string, m: string, x: string, a: real, e: int)
    requires Trim(s) == m + "e" + x
    requires forall j :: 0 <= j < |m| ==> !IsExponentMarker(m[j])
    requires ParseSignedDecimal(m) == Some(a) && ParseExponent(x) == Some(e)
    ensures ValueOf(s) == Some(ScaleByPow10(a, e))
  {
    MarkerAfter(m, x);
  }

  lemma SignPrefix(c: char, t: string, v: real)
    requires c == '+' || c == '-'
    requires ParseUnsignedDecimal(t) == Some(v)
    ensures ParseSignedDecimal([c] + t) == Some(if c == '-' then -v else v)
  {
    assert ([c] + t)[1..] == t;
  }

  /** The sign or blank and the five digits of a field, with the blank
    * trimmed away. */
  lemma MantissaDigits(f: string)
    requires WellFormedExponentField(f)
    ensures var v := DigitsValue(f[1..6]) as real;
      ParseSignedDecimal(AsWrittenMantissaText(f)) == Some(if f[0] == '-' then -v else v)
  {
    var digits := f[1..6];
    UnsignedDigits(digits);
    if f[0] == ' ' {
      assert IsDigit(digits[0]);
    } else {
      assert f[..6] == [f[0]] + digits;
      SignPrefix(f[0], digits, DigitsValue(digits) as real);
    }
  }

  /** "0." and digits: the digits read as a fraction. */
  lemma ZeroPoint(d: string, v: real)
    requires |d| > 0 && AllDigits(d) && v == DigitsValue(d) as real / Pow10(|d|) as real
    ensures ParseSignedDecimal("0." + d) == Some(v)
  {
    UnsignedZeroPoint(d);
    assert ("0." + d)[0] == '0';
  }

  /** A sign, "0." and digits. */
  lemma SignedZeroPoint(c: char, d: string, v: real)
    requires (c == '+' || c == '-') && |d| > 0 && AllDigits(d) && v == DigitsValue(d) as real / Pow10(|d|) as real
    ensures ParseSignedDecimal([c] + "0." + d) == Some(if c == '-' then -v else v)
  {
    var t := "0." + d;
    UnsignedZeroPoint(d);
    SignPrefix(c, t, v);
    assert [c] + "0." + d == [c] + t;
  }

  lemma TrimAsWritten(f: string)
    requires WellFormedExponentField(f)
    ensures Trim(ExponentFieldAsWritten(f)) == AsWrittenMantissaText(f) + "e" + [f[7]]
  {
    var s := ExponentFieldAsWritten(f);
    var body := f[1..6] + "e" + [f[7]];
    assert f[..6] == [f[0]] + f[1..6];
    assert s == [f[0]] + body;
    assert body[0] == f[1] && IsDigit(f[1]) && body[|body| - 1] == f[7];
    if f[0] == ' ' {
      TrimDropsOneBlank(s);
      assert s[1..] == body;
    } else {
      TrimKeeps(s);
    }
  }

  lemma TrimCorrected(f: string)
    requires WellFormedExponentField(f)
    ensures Trim(ExponentFieldCorrected(f)) == CorrectedMantissaText(f) + "e" + f[6..8]
  {
    var s := ExponentFieldCorrected(f);
    var body := "0." + f[1..6] + "e" + f[6..8];
    assert s == [f[0]] + body;
    assert body[0] == '0' && body[|body| - 1] == f[7];
    if f[0] == ' ' {
      TrimDropsOneBlank(s);
      assert s[1..] == body;
    } else {
      TrimKeeps(s);
      assert [f[0]] + "0." + f[1..6] + "e" + f[6..8] == s;
    }
  }

  /** The as-written text reads the five digits as an integer and the
    * exponent digit as a positive exponent. */
  lemma AsWrittenExponentValue(f: string)
    requires WellFormedExponentField(f)
    ensures var m := DigitsValue(f[1..6]) as real;
      ValueOf(ExponentFieldAsWritten(f)) == Some(ScaleByPow10(if f[0] == '-' then -m else m, DigitValue(f[7])))
  {
    var m := DigitsValue(f[1..6]) as real;
    TrimAsWritten(f);
    MantissaDigits(f);
    AsWrittenMantissaHasNoMarker(f);
    ExponentDigit(f);
    ValueOfWithExponent(ExponentFieldAsWritten(f), AsWrittenMantissaText(f), [f[7]],
      if f[0] == '-' then -m else m, DigitValue(f[7]));
  }

  lemma AsWrittenMantissaHasNoMarker(f: string)
    requires WellFormedExponentField(f)
    ensures var mantissa := AsWrittenMantissaText(f);
      forall j :: 0 <= j < |mantissa| ==> !IsExponentMarker(mantissa[j])
  {
    var mantissa := AsWrittenMantissaText(f);
    if f[0] != ' ' {
      assert mantissa == [f[0]] + f[1..6];
    }
    NoMarkerIn(mantissa);
  }

  /** The exponent digit alone reads as a non-negative exponent. */
  lemma ExponentDigit(f: string)
    requires WellFormedExponentField(f)
    ensures ParseExponent([f[7]]) == Some(DigitValue(f[7]) as int)
  {
    DigitsValueOfOne(f[7]);
  }

  /** A text of digits, signs and points holds no exponent marker. */
  lemma NoMarkerIn(m: string)
    requires forall j :: 0 <= j < |m| ==> IsDigit(m[j]) || m[j] == '+' || m[j] == '-' || m[j] == ' ' || m[j] == '.'
    ensures forall j :: 0 <= j < |m| ==> !IsExponentMarker(m[j])
  {
  }

  /** The corrected text reads exactly the value the field stands for. */
  lemma CorrectedExponentValue(f: string)
    requires WellFormedExponentField(f)
    ensures ValueOf(ExponentFieldCorrected(f)) == Some(FieldValue(f))
  {
    TrimCorrected(f);
    CorrectedMantissa(f);
    CorrectedMantissaHasNoMarker(f);
    SignedExponent(f);
    ValueOfWithExponent(ExponentFieldCorrected(f), CorrectedMantissaText(f), f[6..8], FieldMantissa(f), FieldExponent(f));
  }

  /** The corrected mantissa reads as the five digits after the point. */
  lemma CorrectedMantissa(f: string)
    requires WellFormedExponentField(f)
    ensures ParseSignedDecimal(CorrectedMantissaText(f)) == Some(FieldMantissa(f))
  {
    var digits := f[1..6];
    var v := DigitsValue(digits) as real / 100000.0;
    assert |digits| == 5 && Pow10(5) == 100000;
    if f[0] == ' ' {
      ZeroPoint(digits, v);
    } else {
      SignedZeroPoint(f[0], digits, v);
    }
  }

  lemma CorrectedMantissaHasNoMarker(f: string)
    requires WellFormedExponentField(f)
    ensures var mantissa := CorrectedMantissaText(f);
      forall j :: 0 <= j < |mantissa| ==> !IsExponentMarker(mantissa[j])
  {
    var mantissa := CorrectedMantissaText(f);
    NoMarkerIn(mantissa);
  }

  /** B* = -0.11606e-4 in a TLE field reads as -116060000 as written. */
  lemma AsWrittenExponentCounterexample()
    ensures WellFormedExponentField("-11606-4")
    ensures FieldValue("-11606-4") == -0.000011606
    ensures ValueOf(ExponentFieldAsWritten("-11606-4")) == Some(-116060000.0)
  {
    CounterexampleColumns("-11606-4");
    CounterexampleValues("-11606-4");
  }

  /** What a field with the columns of -11606-4 means, and what its as-written text reads as. */
  lemma CounterexampleValues(f: string)
    requires WellFormedExponentField(f) && f[0] == '-' && f[6] == '-'
    requires DigitsValue(f[1..6]) == 11606 && DigitValue(f[7]) == 4
    ensures FieldValue(f) == -0.000011606
    ensures ValueOf(ExponentFieldAsWritten(f)) == Some(-116060000.0)
  {
    CounterexampleFieldValue(f);
    CounterexampleAsWrittenValue(f);
  }

  lemma CounterexampleFieldValue(f: string)
    requires WellFormedExponentField(f) && f[0] == '-' && f[6] == '-'
    requires DigitsValue(f[1..6]) == 11606 && DigitValue(f[7]) == 4
    ensures FieldValue(f) == -0.000011606
  {
    assert Pow10(4) == 10000;
    assert FieldValue(f) == ScaleByPow10(-(11606.0 / 100000.0), -4);
  }

  lemma CounterexampleAsWrittenValue(f: string)
    requires WellFormedExponentField(f) && f[0] == '-'
    requires DigitsValue(f[1..6]) == 11606 && DigitValue(f[7]) == 4
    ensures ValueOf(ExponentFieldAsWritten(f)) == Some(-116060000.0)
  {
    AsWrittenExponentValue(f);
    assert Pow10(4) == 10000;
    assert ScaleByPow10(-(11606 as real), 4) == -116060000.0;
  }

  /** The columns of the field -11606-4. */
  lemma CounterexampleColumns(f: string)
    requires f == "-11606-4"
    ensures WellFormedExponentField(f)
    ensures DigitsValue(f[1..6]) == 11606
    ensures f[0] == '-' && f[6] == '-' && f[7] == '4' && DigitValue(f[7]) == 4
  {
    var digits := f[1..6];
    assert |digits| == 5 && digits[0] == '1' && digits[1] == '1' && digits[2] == '6' && digits[3] == '0' && digits[4] == '6';
    assert digits == "11606";
    assert DigitsValue("11606") == 11606 by {
      assert "11606"[..4] == "1160" && "1160"[..3] == "116" && "116"[..2] == "11" && "11"[..1] == "1" && "1"[..0] == "";
    }
  }
}

module GroundStationModel {
  import opened TleFormat

  /** Default periodicity of the team's work: three hours, in seconds. */
  const DefaultPeriodicityOfWork: int := 60 * 60 * 3

  /** The texts exported to memcached, one per TLE parameter. */
  datatype TleFields = TleFields(
    epoch: string, meanMotionFirstDerivative: string, meanMotionSecondDerivative: string,
    bStar: string, inclination: string, raan: string, eccentricity1e7: string,
    argPerigee: string, meanAnomaly: string, meanMotion: string)

  /** The columns `first` to `last` of a TLE line, numbered from 1 as in the
    * Two-Line Element format. */
  function Columns(line: string, first: nat, last: nat): (r: string)
    requires 1 <= first <= last + 1 && last <= |line|
    ensures |r| == last - first + 1
    ensures forall i :: 0 <= i < |r| ==> r[i] == line[first - 1 + i]
  {
    line[first - 1..last]
  }

  /** The fixed column slices the ground station cuts from the two lines;
    * the exponential fields keep their sign and mantissa digits and their
    * exponent digit around an "e". */
  function ExtractFields(line1: string, line2: string): TleFields
    requires |line1| >= 61 && |line2| >= 63
  {
    TleFields(
      line1[18..32], line1[33..43],
      line1[44..50] + "e" + [line1[51]], line1[53..59] + "e" + [line1[60]],
      line2[8..16], line2[17..25], line2[26..33], line2[34..42], line2[43..51], line2[52..63])
  }

  /**
   * The slices are the format's fields: the epoch (line 1, columns 19-32),
   * the first derivative of the mean motion (34-43), the two exponential
   * fields (45-52 and 54-61) as written; and from line 2 the inclination
   * (9-16), the right ascension of the node (18-25), the eccentricity with
   * its implied point (27-33), the argument of perigee (35-42), the mean
   * anomaly (44-51) and the mean motion (53-63).
   */
  lemma SlicesAreTleColumns(line1: string, line2: string)
    requires |line1| >= 61 && |line2| >= 63
    ensures var f := ExtractFields(line1, line2);
      f.epoch == Columns(line1, 19, 32) && f.meanMotionFirstDerivative == Columns(line1, 34, 43)
      && f.meanMotionSecondDerivative == ExponentFieldAsWritten(Columns(line1, 45, 52))
      && f.bStar == ExponentFieldAsWritten(Columns(line1, 54, 61))
      && f.inclination == Columns(line2, 9, 16) && f.raan == Columns(line2, 18, 25)
      && f.eccentricity1e7 == Columns(line2, 27, 33) && f.argPerigee == Columns(line2, 35, 42)
      && f.meanAnomaly == Columns(line2, 44, 51) && f.meanMotion == Columns(line2, 53, 63)
  {
    assert Columns(line1, 45, 52)[..6] == line1[44..50];
    assert Columns(line1, 54, 61)[..6] == line1[53..59];
  }

  /** Outcomes of calling isTeamWorking at each date in turn from the next
    * working date `next`, and the next working date afterwards. */
  function Calls(next: real, period: int, dates: seq<real>): (r: (seq<bool>, real))
    ensures |r.0| == |dates|
    decreases |dates|
  {
    if |dates| == 0 then ([], next)
    else
      var working := dates[0] >= next;
      var rest := Calls(if working then next + period as real else next, period, dates[1..]);
      ([working] + rest.0, rest.1)
  }

  function CountTrue(bs: seq<bool>): nat {
    if |bs| == 0 then 0 else (if bs[0] then 1 else 0) + CountTrue(bs[1..])
  }

  /** After any calls the next working date has moved by one period per true. */
  lemma {:induction false} NextAdvancesOncePerTrue(next: real, period: int, dates: seq<real>)
    ensures Calls(next, period, dates).1 == next + (CountTrue(Calls(next, period, dates).0) * period) as real
    decreases |dates|
  {
    if |dates| > 0 {
      var working := dates[0] >= next;
      var next' := if working then next + period as real else next;
      NextAdvancesOncePerTrue(next', period, dates[1..]);
      var r := Calls(next, period, dates);
      var rest := Calls(next', period, dates[1..]);
      assert r.0[1..] == rest.0 && r.1 == rest.1;
      var w := if working then 1 else 0;
      var c := CountTrue(rest.0);
      assert CountTrue(r.0) == w + c;
      assert next' == next + (w * period) as real;
      assert (w + c) * period == w * period + c * period;
    }
  }

  /** Called k times at one date, the team works on the i-th call exactly when
    * that date has reached the next working date moved by i periods: a date
    * far ahead keeps answering true until the working date catches up. */
  lemma {:induction false} CallsAtOneDate(next: real, period: int, d: real, k: nat)
    requires period >= 0
    ensures forall i :: 0 <= i < k ==> Calls(next, period, seq(k, _ => d)).0[i] == (next + (i * period) as real <= d)
    decreases k
  {
    if k > 0 {
      var dates := seq(k, _ => d);
      assert dates[1..] == seq(k - 1, _ => d);
      var next' := if d >= next then next + period as real else next;
      CallsAtOneDate(next', period, d, k - 1);
      var r := Calls(next, period, dates);
      forall i | 0 <= i < k
        ensures r.0[i] == (next + (i * period) as real <= d)
      {
        if i > 0 {
          assert r.0[i] == Calls(next', period, dates[1..]).0[i - 1];
          assert ((i - 1) * period) as real + period as real == (i * period) as real;
        }
      }
    }
  }

  /** One export of TLE values to memcached. */
  datatype TleExport = TleExport(date: real, fields: TleFields)

  class GroundStation {
    /** The next deadline of the team. */
    var nextWorkingDate: real
    /** The period of a working stage, captured at construction. */
    const periodOfWork: int
    /** The exports made to memcached, oldest first. */
    var exports: seq<TleExport>

    constructor (initialStateDate: real, periodicityOfWork: int)
      ensures nextWorkingDate == initialStateDate && periodOfWork == periodicityOfWork
      ensures exports == []
    {
      nextWorkingDate := initialStateDate;
      periodOfWork := periodicityOfWork;
      exports := [];
    }

    /** The team works when `date` has reached the next working date, which
      * then moves one period later; otherwise nothing changes. */
    method IsTeamWorking(date: real) returns (teamIsWorking: bool)
      modifies this`nextWorkingDate
      ensures teamIsWorking <==> date >= old(nextWorkingDate)
      ensures nextWorkingDate == if teamIsWorking then old(nextWorkingDate) + periodOfWork as real
                                 else old(nextWorkingDate)
      ensures Calls(old(nextWorkingDate), periodOfWork, [date]) == ([teamIsWorking], nextWorkingDate)
    {
      ghost var start := nextWorkingDate;
      teamIsWorking := false;
      if date >= nextWorkingDate {
        teamIsWorking := true;
        nextWorkingDate := nextWorkingDate + periodOfWork as real;
      }
      assert [date][1..] == [];
      assert Calls(start, periodOfWork, [date]) == ([teamIsWorking] + [], nextWorkingDate);
      assert [teamIsWorking] + [] == [teamIsWorking];
    }

    /**
     * executeMission: when the team works, the TLE of the current orbit
     * (its two lines given here) is cut into fields, which are exported only
     * when memcached is connected.
     */
    method ExecuteMission(date: real, connectedToMemCached: bool, line1: string, line2: string)
      requires |line1| >= 61 && |line2| >= 63
      modifies this`nextWorkingDate, this`exports
      ensures nextWorkingDate == if date >= old(nextWorkingDate) then old(nextWorkingDate) + periodOfWork as real
                                 else old(nextWorkingDate)
      ensures exports == old(exports) +
        (if date >= old(nextWorkingDate) && connectedToMemCached then [TleExport(date, ExtractFields(line1, line2))] else [])
    {
      var working := IsTeamWorking(date);
      if working {
        if connectedToMemCached {
          var fields := ExtractFields(line1, line2);
          exports := exports + [TleExport(date, fields)];
        }
      }
    }
  }

  /** A new station works at its initial date, and not again before one period. */
  method FirstCallWorks(initialStateDate: real, later: real) returns (first: bool, second: bool)
    requires initialStateDate <= later < initialStateDate + DefaultPeriodicityOfWork as real
    ensures first && !second
  {
    var station := new GroundStation(initialStateDate, DefaultPeriodicityOfWork);
    first := station.IsTeamWorking(initialStateDate);
    second := station.IsTeamWorking(later);
  }
}
