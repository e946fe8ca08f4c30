// Formatting, parsing, validation and small helpers of the toolkit's
// utility module (refactored/utils.py).
module Utils {
  import opened Wrappers
  import opened Values
  import Text
  import Exceptions

  // ---- parse_frequency ----------------------------------------------------

  predicate IsDigit(c: char)
  {
    '0' <= c <= '9'
  }

  predicate AllDigits(s: string)
  {
    forall i :: 0 <= i < |s| ==> IsDigit(s[i])
  }

  /** The longest prefix of `s` made of decimal digits. */
  function TakeDigits(s: string): (r: string)
    ensures |r| <= |s| && r == s[..|r|] && AllDigits(r)
    ensures |r| == |s| || !IsDigit(s[|r|])
  {
    if |s| > 0 && IsDigit(s[0]) then [s[0]] + TakeDigits(s[1..]) else []
  }

  lemma {:induction false} TakeDigitsOf(d: string, rest: string)
    requires AllDigits(d)
    requires rest == [] || !IsDigit(rest[0])
    ensures TakeDigits(d + rest) == d
    decreases |d|
  {
    if |d| > 0 {
      assert (d + rest)[1..] == d[1..] + rest;
      TakeDigitsOf(d[1..], rest);
    } else {
      assert d + rest == rest;
    }
  }

  /** The integer a string of decimal digits denotes. */
  function DigitsValue(d: string): (n: nat)
    requires AllDigits(d)
  {
    if d == [] then 0 else 10 * DigitsValue(d[..|d| - 1]) + (d[|d| - 1] as int - '0' as int)
  }

  /** float(whole + "." + frac), exactly. */
  function DecimalValue(whole: string, frac: string): (v: real)
    requires AllDigits(whole) && AllDigits(frac)
    ensures v >= 0.0
  {
    DigitsValue(whole) as real + DigitsValue(frac) as real / Text.Pow10(|frac|) as real
  }

  /** The unit alternatives of the pattern, plus the absent unit. */
  predicate IsUnit(u: string)
  {
    u in ["GHZ", "G", "MHZ", "M", "KHZ", "K", "HZ", "H", ""]
  }

  /** The value scaled by the unit's multiplier (1e9, 1e6, 1e3, or 1 for Hz and no unit). */
  function Scale(v: real, u: string): (r: real)
    ensures v >= 0.0 ==> r >= 0.0
  {
    if u == "GHZ" || u == "G" then v * 1000000000.0
    else if u == "MHZ" || u == "M" then v * 1000000.0
    else if u == "KHZ" || u == "K" then v * 1000.0
    else v
  }

  /** The groups of a successful match of ^(\d+(?:\.\d+)?)\s*(GHZ|G|MHZ|M|KHZ|K|HZ|H)?$ */
  datatype Match = Match(whole: string, frac: string, unit: string)

  predicate ValidMatch(m: Match)
  {
    |m.whole| > 0 && AllDigits(m.whole) && AllDigits(m.frac) && IsUnit(m.unit)
  }

  /** The text a match covers, with `gap` as the whitespace before the unit. */
  function MatchText(m: Match, gap: string): string
  {
    m.whole + (if m.frac == [] then [] else "." + m.frac) + gap + m.unit
  }

  /**
   * Matching of the frequency pattern against an entire string.  The digit runs
   * are taken greedily, which is the only way the anchored pattern can match.
   */
  function MatchFrequency(t: string): (r: Option<Match>)
    ensures r.Some? ==> ValidMatch(r.value) && |t| > 0 && IsDigit(t[0])
  {
    var whole := TakeDigits(t);
    if whole == [] then None else MatchAfterWhole(whole, t[|whole|..])
  }

  /** The optional fraction group: a point followed by at least one digit. */
  function FractionOf(rest: string): (frac: string)
    ensures AllDigits(frac)
    ensures frac != [] ==> 1 + |frac| <= |rest| && rest[0] == '.'
  {
    if |rest| >= 2 && rest[0] == '.' && IsDigit(rest[1]) then TakeDigits(rest[1..]) else []
  }

  /** The rest of the match once the integer digits `whole` are taken. */
  function MatchAfterWhole(whole: string, rest: string): (r: Option<Match>)
    requires |whole| > 0 && AllDigits(whole)
    ensures r.Some? ==> ValidMatch(r.value)
  {
    var frac := FractionOf(rest);
    var unit := Text.StripLeft(if frac == [] then rest else rest[1 + |frac|..]);
    if IsUnit(unit) then Some(Match(whole, frac, unit)) else None
  }

  /** The text after the integer digits: the optional fraction, the gap and the unit. */
  function RestText(m: Match, gap: string): string
  {
    (if m.frac == [] then [] else "." + m.frac) + (gap + m.unit)
  }

  lemma MatchTextShape(m: Match, gap: string)
    ensures MatchText(m, gap) == m.whole + RestText(m, gap)
  {
  }

  lemma DropPrefix(a: string, b: string)
    ensures (a + b)[|a|..] == b
  {
  }

  /** Every string of the pattern's shape is matched, with the expected groups. */
  lemma MatchFrequencyComplete(m: Match, gap: string)
    requires ValidMatch(m)
    requires Text.AllSpace(gap)
    requires m.unit == [] || !Text.IsSpace(m.unit[0])
    ensures MatchFrequency(MatchText(m, gap)) == Some(m)
  {
    var rest := RestText(m, gap);
    MatchTextShape(m, gap);
    TailStart(gap, m.unit);
    if m.frac == [] {
      assert rest == gap + m.unit;
    } else {
      assert rest == "." + m.frac + (gap + m.unit);
      assert rest[0] == '.';
    }
    TakeDigitsOf(m.whole, rest);
    DropPrefix(m.whole, rest);
    MatchAfterWholeComplete(m, gap);
  }

  lemma MatchAfterWholeComplete(m: Match, gap: string)
    requires ValidMatch(m)
    requires Text.AllSpace(gap)
    requires m.unit == [] || !Text.IsSpace(m.unit[0])
    ensures MatchAfterWhole(m.whole, RestText(m, gap)) == Some(m)
  {
    var tail := gap + m.unit;
    TailStart(gap, m.unit);
    Text.StripLeftSpaces(gap, m.unit);
    if m.frac == [] {
      assert RestText(m, gap) == tail;
    } else {
      var rest := "." + m.frac + tail;
      assert RestText(m, gap) == rest;
      FractionOfDigits(m.frac, tail);
      DropPrefix("." + m.frac, tail);
    }
  }

  /** What follows the number: whitespace, then the unit, starts with neither a digit nor a point. */
  lemma TailStart(gap: string, u: string)
    requires gap == [] || Text.IsSpace(gap[0])
    requires IsUnit(u)
    ensures var tail := gap + u; tail == [] || (!IsDigit(tail[0]) && tail[0] != '.')
  {
    UnitStart(u);
    if gap != [] {
      assert (gap + u)[0] == gap[0];
    } else {
      assert gap + u == u;
    }
  }

  lemma FractionOfDigits(frac: string, tail: string)
    requires |frac| > 0 && AllDigits(frac)
    requires tail == [] || !IsDigit(tail[0])
    ensures FractionOf("." + frac + tail) == frac
  {
    var rest := "." + frac + tail;
    assert rest[1..] == frac + tail;
    assert rest[1] == frac[0];
    TakeDigitsOf(frac, tail);
  }

  lemma UnitStart(u: string)
    requires IsUnit(u)
    ensures u == [] || (!IsDigit(u[0]) && u[0] != '.' && !Text.IsSpace(u[0]))
  {
  }

  /** The whitespace StripLeft removes, in front of what it keeps. */
  lemma {:induction false} StrippedGap(after: string)
    ensures var unit := Text.StripLeft(after); var gap := after[..|after| - |unit|];
            Text.AllSpace(gap) && after == gap + unit
  {
    var unit := Text.StripLeft(after);
    var gap := after[..|after| - |unit|];
    assert after == gap + unit;
  }

  lemma FractionSplit(rest: string)
    requires FractionOf(rest) != []
    ensures var frac := FractionOf(rest); rest == "." + frac + rest[1 + |frac|..]
  {
    var frac := FractionOf(rest);
    assert rest[1..][..|frac|] == frac;
  }

  /** What follows the fraction group, if any, in the text after the integer digits. */
  function AfterFraction(rest: string): string
  {
    var frac := FractionOf(rest);
    if frac == [] then rest else rest[1 + |frac|..]
  }

  /** The whitespace between the number and the unit. */
  function GapOf(rest: string): string
  {
    var after := AfterFraction(rest);
    after[..|after| - |Text.StripLeft(after)|]
  }

  /** The text after the integer digits splits into the fraction, the stripped gap and the rest. */
  lemma RestSplit(whole: string, rest: string)
    ensures Text.AllSpace(GapOf(rest))
    ensures rest == RestText(Match(whole, FractionOf(rest), Text.StripLeft(AfterFraction(rest))), GapOf(rest))
  {
    StrippedGap(AfterFraction(rest));
    if FractionOf(rest) != [] {
      FractionSplit(rest);
    }
  }

  lemma DigitsThenRest(t: string)
    ensures t == TakeDigits(t) + t[|TakeDigits(t)|..]
  {
    var n := |TakeDigits(t)|;
    assert t == t[..n] + t[n..];
  }

  /** Only strings of the pattern's shape are matched: whole digits, an optional fraction, whitespace, a unit. */
  lemma MatchFrequencySound(t: string)
    requires MatchFrequency(t).Some?
    ensures exists gap :: Text.AllSpace(gap) && t == MatchText(MatchFrequency(t).value, gap)
  {
    var gap := GapOf(t[|TakeDigits(t)|..]);
    MatchFrequencyShape(t);
    assert Text.AllSpace(gap) && t == MatchText(MatchFrequency(t).value, gap);
  }

  /** The match MatchFrequency returns, written out from its groups. */
  lemma MatchFrequencyValue(t: string)
    requires MatchFrequency(t).Some?
    ensures var rest := t[|TakeDigits(t)|..];
            MatchFrequency(t).value == Match(TakeDigits(t), FractionOf(rest), Text.StripLeft(AfterFraction(rest)))
  {
  }

  lemma MatchFrequencyShape(t: string)
    requires MatchFrequency(t).Some?
    ensures var gap := GapOf(t[|TakeDigits(t)|..]);
            Text.AllSpace(gap) && t == MatchText(MatchFrequency(t).value, gap)
  {
    var whole := TakeDigits(t);
    var rest := t[|whole|..];
    var m := Match(whole, FractionOf(rest), Text.StripLeft(AfterFraction(rest)));
    MatchFrequencyValue(t);
    var gap := GapOf(rest);
    RestSplit(whole, rest);
    MatchTextShape(m, gap);
    DigitsThenRest(t);
  }

  const FrequencyFormatHint := "number with optional unit (GHz, MHz, kHz, Hz)"

  /** refactored/utils.py parse_frequency: strip, upper-case, match, scale by the unit. */
  function ParseFrequency(s: string): (r: Result<real, Exceptions.Error>)
    ensures r.Success? <==> MatchFrequency(Text.Upper(Text.Strip(s))).Some?
    ensures r.Failure? ==> r.error == Exceptions.InvalidParameter("frequency", PyStr(Text.Upper(Text.Strip(s))),
                                                                  Some(FrequencyFormatHint))
    ensures r.Success? ==> r.value >= 0.0
  {
    var t := Text.Upper(Text.Strip(s));
    match MatchFrequency(t)
    case None => Failure(Exceptions.InvalidParameter("frequency", PyStr(t), Some(FrequencyFormatHint)))
    case Some(m) => Success(Scale(DecimalValue(m.whole, m.frac), m.unit))
  }

  /** A signed (or otherwise non-digit-led) string is refused. */
  lemma ParseFrequencyNeedsLeadingDigit(s: string)
    requires var t := Text.Upper(Text.Strip(s)); t == [] || !IsDigit(t[0])
    ensures ParseFrequency(s).Failure?
    ensures ParseFrequency(s).error.kind == Exceptions.InvalidParameterError
  {
  }

  /** A frequency is accepted only when the normalised text has the pattern's shape. */
  lemma ParseFrequencySound(s: string)
    requires ParseFrequency(s).Success?
    ensures exists m: Match, gap :: ValidMatch(m) && Text.AllSpace(gap)
              && Text.Upper(Text.Strip(s)) == MatchText(m, gap)
              && ParseFrequency(s).value == Scale(DecimalValue(m.whole, m.frac), m.unit)
  {
    var t := Text.Upper(Text.Strip(s));
    MatchFrequencySound(t);
  }

  /** Text after the unit is refused: "1 MHzX" is not a frequency. */
  lemma ParseFrequencyTrailingExample()
    ensures ParseFrequency("1 MHzX").Failure?
  {
    NormalizedTrailing();
    MatchedTrailing();
  }

  lemma NormalizedTrailing()
    ensures Text.Upper(Text.Strip("1 MHzX")) == "1 MHZX"
  {
    Text.StripUnchanged("1 MHzX");
  }

  lemma MatchedTrailing()
    ensures MatchFrequency("1 MHZX") == None
  {
    var t := "1 MHZX";
    assert TakeDigits(t) == "1" by {
      assert t == "1" + " MHZX";
      TakeDigitsOf("1", " MHZX");
    }
    assert t[1..] == " MHZX";
    UnitTrailing();
  }

  lemma UnitTrailing()
    ensures MatchAfterWhole("1", " MHZX") == None
  {
    assert FractionOf(" MHZX") == [];
    StripTrailing();
    NotUnitTrailing();
  }

  lemma StripTrailing()
    ensures Text.StripLeft(" MHZX") == "MHZX"
  {
    var s := " MHZX";
    assert s[1..] == "MHZX";
    assert Text.StripLeft(s) == Text.StripLeft(s[1..]) by {
      assert Text.IsSpace(s[0]);
    }
    KeptUnit();
  }

  lemma KeptUnit()
    ensures Text.StripLeft("MHZX") == "MHZX"
  {
    assert !Text.IsSpace("MHZX"[0]);
  }

  lemma NotUnitTrailing()
    ensures !IsUnit("MHZX")
  {
  }

  /** A matched string parses to the value of its number times its unit's multiplier. */
  lemma ParseFrequencyOfMatch(s: string, m: Match)
    requires MatchFrequency(Text.Upper(Text.Strip(s))) == Some(m)
    ensures ParseFrequency(s) == Success(Scale(DecimalValue(m.whole, m.frac), m.unit))
  {
  }

  /** The first example of the doc comment: "2.4 GHz" is 2.4e9 Hz. */
  lemma ParseFrequencyGigahertzExample()
    ensures ParseFrequency("2.4 GHz") == Success(2400000000.0)
  {
    var m := Match("2", "4", "GHZ");
    NormalizedGigahertz();
    MatchedGigahertz();
    ParseFrequencyOfMatch("2.4 GHz", m);
    ScaledGigahertz();
  }

  lemma NormalizedGigahertz()
    ensures Text.Upper(Text.Strip("2.4 GHz")) == "2.4 GHZ"
  {
    Text.StripUnchanged("2.4 GHz");
  }

  lemma MatchedGigahertz()
    ensures MatchFrequency("2.4 GHZ") == Some(Match("2", "4", "GHZ"))
  {
    var m := Match("2", "4", "GHZ");
    assert ValidMatch(m) by {
      assert IsUnit("GHZ");
    }
    assert MatchText(m, " ") == "2.4 GHZ";
    MatchFrequencyComplete(m, " ");
  }

  lemma ScaledGigahertz()
    ensures Scale(DecimalValue("2", "4"), "GHZ") == 2400000000.0
  {
    assert DigitsValue("2") == 2 && DigitsValue("4") == 4;
    assert Text.Pow10(1) == 10;
  }

  /** The second example of the doc comment: "100 MHz" is 1e8 Hz. */
  lemma ParseFrequencyMegahertzExample()
    ensures ParseFrequency("100 MHz") == Success(100000000.0)
  {
    var m := Match("100", "", "MHZ");
    NormalizedMegahertz();
    MatchedMegahertz();
    ParseFrequencyOfMatch("100 MHz", m);
    ScaledMegahertz();
  }

  lemma NormalizedMegahertz()
    ensures Text.Upper(Text.Strip("100 MHz")) == "100 MHZ"
  {
    Text.StripUnchanged("100 MHz");
  }

  lemma MatchedMegahertz()
    ensures MatchFrequency("100 MHZ") == Some(Match("100", "", "MHZ"))
  {
    var m := Match("100", "", "MHZ");
    assert ValidMatch(m) by {
      assert IsUnit("MHZ");
    }
    assert MatchText(m, " ") == "100 MHZ";
    MatchFrequencyComplete(m, " ");
  }

  lemma ScaledMegahertz()
    ensures Scale(DecimalValue("100", ""), "MHZ") == 100000000.0
  {
    assert DigitsValue("100") == 100 by {
      assert DigitsValue("1") == 1;
      assert "100"[..2] == "10" && "10"[..1] == "1";
    }
    assert Text.Pow10(0) == 1;
  }

  // ---- format_time_duration -----------------------------------------------

  /** Python's float % for a positive modulus: the result has the sign of the modulus.
      The duration formatter only uses the constant moduli 3600 and 60; its bounds
      are proved there, where the arithmetic is linear. */
  function PyMod(x: real, m: real): real
    requires m > 0.0
  {
    x - m * (x / m).Floor as real
  }

  /** Python's float // for a positive divisor. */
  function FloorDiv(x: real, m: real): (r: int)
    requires m > 0.0
  {
    (x / m).Floor
  }

  /** format_time_duration: "Hh Mm S.Ss", "Mm S.Ss" or "S.Ss" by magnitude; always ends in "s". */
  function FormatTimeDuration(seconds: real): (r: string)
    ensures |r| >= 2 && r[|r| - 1] == 's'
  {
    if seconds >= 3600.0 then
      Text.IntToString(FloorDiv(seconds, 3600.0)) + "h "
        + Text.IntToString(FloorDiv(PyMod(seconds, 3600.0), 60.0)) + "m "
        + Text.FormatFixed(PyMod(seconds, 60.0), 1) + "s"
    else if seconds >= 60.0 then
      Text.IntToString(FloorDiv(seconds, 60.0)) + "m " + Text.FormatFixed(PyMod(seconds, 60.0), 1) + "s"
    else Text.FormatFixed(seconds, 1) + "s"
  }

  /** The hour, minute and second fields printed for durations of an hour or more
      recompose the duration, with minutes and seconds below 60. */
  lemma TimeDurationFields(seconds: real)
    requires seconds >= 3600.0
    ensures var h := FloorDiv(seconds, 3600.0);
            var m := FloorDiv(PyMod(seconds, 3600.0), 60.0);
            var s := PyMod(seconds, 60.0);
            h >= 1 && 0 <= m < 60 && 0.0 <= s < 60.0
            && h as real * 3600.0 + m as real * 60.0 + s == seconds
  {
    var h := FloorDiv(seconds, 3600.0);
    var rem := PyMod(seconds, 3600.0);
    var m := FloorDiv(rem, 60.0);
    assert rem == seconds - 3600.0 * h as real;
    assert m as real <= rem / 60.0 < m as real + 1.0;
    assert 0 <= m < 60;
    var q := FloorDiv(seconds, 60.0);
    assert seconds / 60.0 == 60.0 * h as real + rem / 60.0;
    assert q == 60 * h + m by {
      assert (60 * h + m) as real <= seconds / 60.0 < (60 * h + m) as real + 1.0;
    }
  }

  /** The doc comment promises "1h 1m 1s"; the code prints seconds with one decimal. */
  lemma TimeDurationExamples()
    ensures FormatTimeDuration(3661.0) == "1h 1m 1.0s"
    ensures FormatTimeDuration(125.5) == "2m 5.5s"
  {
    TimeDurationHourExample();
    TimeDurationMinuteExample();
  }

  lemma TimeDurationHourExample()
    ensures FormatTimeDuration(3661.0) == "1h 1m 1.0s"
  {
    assert FloorDiv(3661.0, 3600.0) == 1;
    assert PyMod(3661.0, 3600.0) == 61.0;
    assert FloorDiv(61.0, 60.0) == 1;
    assert PyMod(3661.0, 60.0) == 1.0;
    Text.FormatFixedWhole(1);
  }

  lemma TimeDurationMinuteExample()
    ensures FormatTimeDuration(125.5) == "2m 5.5s"
  {
    assert FloorDiv(125.5, 60.0) == 2;
    assert PyMod(125.5, 60.0) == 5.5;
    assert Text.ScaledMagnitude(5.5, 1) == 55 by {
      assert 5.5 * (Text.Pow10(1) as real) == 55.0;
      Text.RoundWhole(55);
    }
    assert Text.PlaceDecimalPoint(55, 1) == "5.5" by {
      assert Text.NatDigits(55) == "55";
    }
  }

  // ---- format_data_size ---------------------------------------------------

  const SizeUnits: seq<string> := ["B", "KB", "MB", "GB", "TB"]

  /** `x` divided by 1024 `k` times over, as the loop does it. */
  function Shrunk(x: real, k: nat): (r: real)
    ensures x >= 0.0 ==> r >= 0.0
  {
    if k == 0 then x else Shrunk(x, k - 1) / 1024.0
  }

  /** The number of divisions by 1024 format_data_size performs on `x`:
      the first k below 5 at which the value is below 1024, or 5. */
  function SizeSteps(x: real, k: nat): (n: nat)
    requires k <= 5
    ensures k <= n <= 5
    ensures n < 5 ==> Shrunk(x, n) < 1024.0
    ensures forall j :: k <= j < n ==> Shrunk(x, j) >= 1024.0
    decreases 5 - k
  {
    if k == 5 then 5 else if Shrunk(x, k) < 1024.0 then k else SizeSteps(x, k + 1)
  }

  function UnitName(k: nat): string
    requires k <= 5
  {
    if k < 5 then SizeUnits[k] else "PB"
  }

  /** refactored/utils.py format_data_size: the loop over B, KB, MB, GB, TB, then PB. */
  method FormatDataSize(bytesSize: int) returns (r: string)
    ensures var k := SizeSteps(bytesSize as real, 0);
            r == Text.FormatFixed(Shrunk(bytesSize as real, k), 1) + " " + UnitName(k)
  {
    var size := bytesSize as real;
    var i := 0;
    while i < |SizeUnits|
      invariant 0 <= i <= 5
      invariant size == Shrunk(bytesSize as real, i)
      invariant SizeSteps(bytesSize as real, 0) == SizeSteps(bytesSize as real, i)
    {
      if size < 1024.0 {
        return Text.FormatFixed(size, 1) + " " + SizeUnits[i];
      }
      size := size / 1024.0;
      i := i + 1;
    }
    return Text.FormatFixed(size, 1) + " PB";
  }

  /** The chosen unit leaves a value below 1024, except past the last unit. */
  lemma DataSizeScaled(x: real)
    requires x >= 0.0
    ensures var k := SizeSteps(x, 0); 0.0 <= Shrunk(x, k) && (k < 5 ==> Shrunk(x, k) < 1024.0)
    ensures x < 1024.0 ==> SizeSteps(x, 0) == 0
  {
  }

  lemma DataSizeExamples()
    ensures SizeSteps(1024.0, 0) == 1 && Text.FormatFixed(Shrunk(1024.0, 1), 1) + " " + UnitName(1) == "1.0 KB"
    ensures SizeSteps(1048576.0, 0) == 2 && Text.FormatFixed(Shrunk(1048576.0, 2), 1) + " " + UnitName(2) == "1.0 MB"
  {
    assert Shrunk(1024.0, 1) == 1.0;
    assert Shrunk(1048576.0, 2) == 1.0;
    Text.FormatFixedWhole(1);
    assert Text.NatDigits(1) == "1";
  }

  // ---- clamp, linear_interpolate, safe_divide -------------------------------

  function Clamp(value: real, minValue: real, maxValue: real): (r: real)
    ensures minValue <= maxValue ==> minValue <= r <= maxValue
    ensures minValue <= value <= maxValue ==> r == value
    ensures minValue <= maxValue && value < minValue ==> r == minValue
    ensures minValue <= maxValue && value > maxValue ==> r == maxValue
    ensures minValue > maxValue ==> r == minValue
  {
    var inner := if value < maxValue then value else maxValue;
    if minValue > inner then minValue else inner
  }

  function LinearInterpolate(x: real, x1: real, y1: real, x2: real, y2: real): (r: real)
    ensures x == x1 ==> r == y1
    ensures x1 == x2 ==> r == y1
  {
    if x2 == x1 then y1 else y1 + (y2 - y1) * (x - x1) / (x2 - x1)
  }

  /** The line passes through both points, and a degenerate segment yields y1. */
  lemma LinearInterpolateEndpoints(x1: real, y1: real, x2: real, y2: real)
    ensures LinearInterpolate(x1, x1, y1, x2, y2) == y1
    ensures x1 != x2 ==> LinearInterpolate(x2, x1, y1, x2, y2) == y2
    ensures forall x :: x1 == x2 ==> LinearInterpolate(x, x1, y1, x2, y2) == y1
  {
    if x1 != x2 {
      assert (y2 - y1) * (x2 - x1) / (x2 - x1) == y2 - y1;
    }
  }

  /** Between the two points the interpolated value lies between y1 and y2. */
  lemma LinearInterpolateBetween(x: real, x1: real, y1: real, x2: real, y2: real)
    requires x1 < x2 && x1 <= x <= x2 && y1 <= y2
    ensures y1 <= LinearInterpolate(x, x1, y1, x2, y2) <= y2
  {
    var c, a, d := y2 - y1, x - x1, x2 - x1;
    var p := c * a;
    ProductBounds(c, a, d);
    QuotientBounds(p, c, d);
    assert LinearInterpolate(x, x1, y1, x2, y2) == y1 + p / d;
  }

  lemma ProductBounds(c: real, a: real, d: real)
    requires c >= 0.0 && 0.0 <= a <= d
    ensures 0.0 <= c * a <= c * d
  {
  }

  lemma QuotientBounds(p: real, c: real, d: real)
    requires d > 0.0 && 0.0 <= p <= c * d
    ensures 0.0 <= p / d <= c
  {
    assert p / d * d == p;
  }

  function SafeDivide(numerator: real, denominator: real, default: real): (r: real)
    ensures denominator == 0.0 ==> r == default
    ensures denominator != 0.0 ==> r * denominator == numerator
  {
    if denominator != 0.0 then numerator / denominator else default
  }

  // ---- validate_range --------------------------------------------------------

  function ValidateRange(value: Number, minVal: Number, maxVal: Number, name: string): (r: Option<Exceptions.Error>)
    ensures r.None? <==> minVal.Value() <= value.Value() <= maxVal.Value()
    ensures r.Some? ==> r.value.kind == Exceptions.InvalidParameterError
                        && r.value == Exceptions.InvalidParameter(name, PyNum(value), Some(Exceptions.RangeText(minVal, maxVal)))
  {
    Exceptions.ValidateParameter(name, value, minVal, maxVal)
  }

  // ---- find_peaks_simple -----------------------------------------------------

  /** Index i is above the threshold and strictly above both neighbours. */
  predicate IsSimplePeak(data: seq<real>, threshold: real, i: int)
  {
    1 <= i < |data| - 1 && data[i] > threshold && data[i] > data[i - 1] && data[i] > data[i + 1]
  }

  /** Some kept peak lies before `j` and closer than `minDistance`. */
  predicate Shadowed(peaks: seq<nat>, j: int, minDistance: int)
  {
    exists k :: 0 <= k < |peaks| && peaks[k] < j && j - peaks[k] < minDistance
  }

  lemma ShadowedExtend(peaks: seq<nat>, p: nat, j: int, minDistance: int)
    requires Shadowed(peaks, j, minDistance)
    ensures Shadowed(peaks + [p], j, minDistance)
  {
    var k :| 0 <= k < |peaks| && peaks[k] < j && j - peaks[k] < minDistance;
    assert (peaks + [p])[k] == peaks[k];
  }

  lemma ShadowedByLast(peaks: seq<nat>, j: int, minDistance: int)
    requires |peaks| > 0 && peaks[|peaks| - 1] < j && j - peaks[|peaks| - 1] < minDistance
    ensures Shadowed(peaks, j, minDistance)
  {
  }

  /** Every kept index is a peak above the threshold. */
  predicate AllPeaks(data: seq<real>, threshold: real, peaks: seq<nat>)
  {
    forall k :: 0 <= k < |peaks| ==> IsSimplePeak(data, threshold, peaks[k])
  }

  /** Kept indices ascend, neighbours at least min_distance apart. */
  predicate Spaced(peaks: seq<nat>, minDistance: int)
  {
    forall k :: 0 < k < |peaks| ==> peaks[k - 1] < peaks[k] && peaks[k] - peaks[k - 1] >= minDistance
  }

  predicate AllBelow(peaks: seq<nat>, i: int)
  {
    forall k :: 0 <= k < |peaks| ==> peaks[k] < i
  }

  /** Every peak below `i` that was not kept lies within min_distance after a kept one. */
  ghost predicate MissedShadowed(data: seq<real>, threshold: real, minDistance: int, peaks: seq<nat>, i: int)
  {
    forall j :: j < i && IsSimplePeak(data, threshold, j) && j !in peaks ==> Shadowed(peaks, j, minDistance)
  }

  /** The greedy scan of find_peaks_simple from index i, `peaks` kept so far: a
      candidate is kept when it is the first or at least min_distance after the
      last kept one. */
  function GreedyScan(data: seq<real>, threshold: real, minDistance: int, peaks: seq<nat>, i: nat): seq<nat>
    decreases |data| - i
  {
    if i + 1 >= |data| then peaks
    else if IsSimplePeak(data, threshold, i) && (|peaks| == 0 || i - peaks[|peaks| - 1] >= minDistance)
    then GreedyScan(data, threshold, minDistance, peaks + [i], i + 1)
    else GreedyScan(data, threshold, minDistance, peaks, i + 1)
  }

  function GreedyPeaks(data: seq<real>, threshold: real, minDistance: int): (peaks: seq<nat>)
    ensures AllPeaks(data, threshold, peaks)
  {
    ScanAllPeaks(data, threshold, minDistance, [], 1);
    GreedyScan(data, threshold, minDistance, [], 1)
  }

  lemma {:induction false} ScanAllPeaks(data: seq<real>, threshold: real, minDistance: int, peaks: seq<nat>, i: nat)
    requires AllPeaks(data, threshold, peaks)
    ensures AllPeaks(data, threshold, GreedyScan(data, threshold, minDistance, peaks, i))
    decreases |data| - i
  {
    if i + 1 >= |data| {
    } else if IsSimplePeak(data, threshold, i) && (|peaks| == 0 || i - peaks[|peaks| - 1] >= minDistance) {
      var q := peaks + [i];
      assert forall k :: 0 <= k < |peaks| ==> q[k] == peaks[k];
      ScanAllPeaks(data, threshold, minDistance, q, i + 1);
    } else {
      ScanAllPeaks(data, threshold, minDistance, peaks, i + 1);
    }
  }

  lemma {:induction false} ScanSpaced(data: seq<real>, threshold: real, minDistance: int, peaks: seq<nat>, i: nat)
    requires Spaced(peaks, minDistance) && AllBelow(peaks, i)
    ensures Spaced(GreedyScan(data, threshold, minDistance, peaks, i), minDistance)
    decreases |data| - i
  {
    if i + 1 >= |data| {
    } else if IsSimplePeak(data, threshold, i) && (|peaks| == 0 || i - peaks[|peaks| - 1] >= minDistance) {
      var q := peaks + [i];
      assert forall k :: 0 <= k < |peaks| ==> q[k] == peaks[k];
      forall k | 0 < k < |q|
        ensures q[k - 1] < q[k] && q[k] - q[k - 1] >= minDistance
      {
        if k == |peaks| {
          assert q[k - 1] == peaks[|peaks| - 1];
        }
      }
      ScanSpaced(data, threshold, minDistance, q, i + 1);
    } else {
      ScanSpaced(data, threshold, minDistance, peaks, i + 1);
    }
  }

  lemma {:induction false} ScanShadowed(data: seq<real>, threshold: real, minDistance: int, peaks: seq<nat>, i: nat)
    requires MissedShadowed(data, threshold, minDistance, peaks, i) && AllBelow(peaks, i)
    ensures forall j :: IsSimplePeak(data, threshold, j) && j !in GreedyScan(data, threshold, minDistance, peaks, i) ==>
              Shadowed(GreedyScan(data, threshold, minDistance, peaks, i), j, minDistance)
    decreases |data| - i
  {
    if i + 1 >= |data| {
      assert forall j :: i <= j ==> !IsSimplePeak(data, threshold, j);
    } else if IsSimplePeak(data, threshold, i) && (|peaks| == 0 || i - peaks[|peaks| - 1] >= minDistance) {
      var q := peaks + [i];
      assert forall k :: 0 <= k < |peaks| ==> q[k] == peaks[k];
      forall j | j < i + 1 && IsSimplePeak(data, threshold, j) && j !in q
        ensures Shadowed(q, j, minDistance)
      {
        ShadowedExtend(peaks, i, j, minDistance);
      }
      ScanShadowed(data, threshold, minDistance, q, i + 1);
    } else {
      if IsSimplePeak(data, threshold, i) {
        ShadowedByLast(peaks, i, minDistance);
      }
      ScanShadowed(data, threshold, minDistance, peaks, i + 1);
    }
  }

  /** Every kept index is a peak above the threshold, kept indices ascend at least
      min_distance apart, and every peak left out lies within min_distance after
      a kept one. */
  lemma GreedyPeaksProperties(data: seq<real>, threshold: real, minDistance: int)
    ensures var peaks := GreedyPeaks(data, threshold, minDistance);
            && (forall k :: 0 <= k < |peaks| ==> IsSimplePeak(data, threshold, peaks[k]))
            && (forall k :: 0 < k < |peaks| ==> peaks[k - 1] < peaks[k] && peaks[k] - peaks[k - 1] >= minDistance)
            && (forall j :: IsSimplePeak(data, threshold, j) && j !in peaks ==> Shadowed(peaks, j, minDistance))
  {
    ScanAllPeaks(data, threshold, minDistance, [], 1);
    ScanSpaced(data, threshold, minDistance, [], 1);
    ScanShadowed(data, threshold, minDistance, [], 1);
  }

  /** refactored/utils.py find_peaks_simple. */
  method FindPeaksSimple(data: seq<real>, threshold: real, minDistance: int) returns (peaks: seq<nat>)
    ensures peaks == GreedyPeaks(data, threshold, minDistance)
  {
    peaks := [];
    var i := 1;
    while i < |data| - 1
      invariant 1 <= i
      invariant GreedyScan(data, threshold, minDistance, peaks, i) == GreedyPeaks(data, threshold, minDistance)
    {
      if data[i] > threshold && data[i] > data[i - 1] && data[i] > data[i + 1] {
        if |peaks| == 0 || i - peaks[|peaks| - 1] >= minDistance {
          peaks := peaks + [i];
        }
      }
      i := i + 1;
    }
  }

  /** Kept peaks are pairwise at least min_distance apart, not only neighbouring ones. */
  lemma FindPeaksSimpleSpacing(peaks: seq<nat>, minDistance: int)
    requires forall k :: 0 < k < |peaks| ==> peaks[k - 1] < peaks[k] && peaks[k] - peaks[k - 1] >= minDistance
    requires minDistance >= 0
    ensures forall a, b :: 0 <= a < b < |peaks| ==> peaks[b] - peaks[a] >= minDistance
  {
    forall a, b | 0 <= a < b < |peaks|
      ensures peaks[b] - peaks[a] >= minDistance
    {
      SpacingStep(peaks, minDistance, a, b);
    }
  }

  lemma {:induction false} SpacingStep(peaks: seq<nat>, minDistance: int, a: nat, b: nat)
    requires forall k :: 0 < k < |peaks| ==> peaks[k - 1] < peaks[k] && peaks[k] - peaks[k - 1] >= minDistance
    requires minDistance >= 0 && a < b < |peaks|
    ensures peaks[b] - peaks[a] >= minDistance && peaks[a] < peaks[b]
    decreases b - a
  {
    if b > a + 1 {
      SpacingStep(peaks, minDistance, a, b - 1);
    }
  }

  // ---- chunks and flatten_list -----------------------------------------------

  /** refactored/utils.py chunks: None models the ValueError of a zero step; a
      negative size gives an empty range and so no chunks. */
  function Chunks<T>(lst: seq<T>, chunkSize: int): (r: Option<seq<seq<T>>>)
    ensures chunkSize == 0 <==> r.None?
    ensures chunkSize < 0 ==> r == Some([])
  {
    if chunkSize == 0 then None
    else if chunkSize < 0 then Some([])
    else Some(ChunksOf(lst, chunkSize))
  }

  function ChunksOf<T>(lst: seq<T>, k: nat): (r: seq<seq<T>>)
    requires k > 0
    ensures forall j :: 0 <= j < |r| ==> 0 < |r[j]| <= k
    ensures forall j :: 0 <= j < |r| - 1 ==> |r[j]| == k
    decreases |lst|
  {
    if |lst| == 0 then []
    else if |lst| <= k then [lst]
    else [lst[..k]] + ChunksOf(lst[k..], k)
  }

  function Flatten<T>(nested: seq<seq<T>>): (r: seq<T>)
  {
    if |nested| == 0 then [] else nested[0] + Flatten(nested[1..])
  }

  /** Flattening the chunks of a list gives the list back. */
  lemma {:induction false} FlattenChunks<T>(lst: seq<T>, k: nat)
    requires k > 0
    ensures Flatten(ChunksOf(lst, k)) == lst
    decreases |lst|
  {
    if |lst| == 0 {
    } else if |lst| <= k {
      assert Flatten([lst]) == lst + Flatten([lst][1..]);
      assert [lst][1..] == [];
    } else {
      FlattenChunks(lst[k..], k);
      var c := ChunksOf(lst, k);
      assert c == [lst[..k]] + ChunksOf(lst[k..], k);
      assert c[1..] == ChunksOf(lst[k..], k);
      assert lst == lst[..k] + lst[k..];
    }
  }

  // ---- RateLimiter -------------------------------------------------------------

  /** `a` is `b` with some of its elements dropped and the others kept in their order. */
  predicate IsSubsequence(a: seq<real>, b: seq<real>)
    decreases |b|
  {
    if a == [] then true
    else if b == [] then false
    else (a[0] == b[0] && IsSubsequence(a[1..], b[1..])) || IsSubsequence(a, b[1..])
  }

  /**
   * The recorded calls still inside the window at time `now`: every
   * occurrence of a call less than `window` before `now` is kept, every other
   * one dropped, and the kept ones stay in their order.
   */
  function RecentCalls(calls: seq<real>, now: real, window: real): (r: seq<real>)
    ensures |r| <= |calls|
    ensures forall t :: t in r <==> t in calls && now - t < window
    ensures forall t :: multiset(r)[t] == if now - t < window then multiset(calls)[t] else 0
    ensures IsSubsequence(r, calls)
  {
    if |calls| == 0 then []
    else
      var rest := RecentCalls(calls[1..], now, window);
      assert calls == [calls[0]] + calls[1..];
      assert forall t :: t in calls <==> t == calls[0] || t in calls[1..];
      if now - calls[0] < window then [calls[0]] + rest else rest
  }

  class RateLimiter {
    const maxCalls: int
    const timeWindow: real
    var calls: seq<real>

    constructor (maxCalls: int, timeWindow: real)
      ensures this.maxCalls == maxCalls && this.timeWindow == timeWindow && calls == []
    {
      this.maxCalls := maxCalls;
      this.timeWindow := timeWindow;
      calls := [];
    }

    /** can_proceed at time `now`: drop expired calls, then compare the count. */
    method CanProceed(now: real) returns (ok: bool)
      modifies this
      ensures calls == RecentCalls(old(calls), now, timeWindow)
      ensures ok <==> |calls| < maxCalls
    {
      calls := RecentCalls(calls, now, timeWindow);
      ok := |calls| < maxCalls;
    }

    /** record_call at time `now`. */
    method RecordCall(now: real)
      modifies this
      ensures calls == old(calls) + [now]
    {
      calls := calls + [now];
    }
  }
}
