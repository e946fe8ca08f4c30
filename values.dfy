// Python values as they appear in error details and messages: None, numbers
// (an int or a float, floats held as exact reals) and strings, with the text
// Python's str() gives each of them: positional or exponent form for a float
// as Python chooses, its digits those of the exact value.
module Values {
  import opened Wrappers
  import Text

  datatype Number = IntNum(i: int) | FloatNum(x: real)
  {
    /** The numeric value, for comparisons. */
    function Value(): real
    {
      match this
      case IntNum(i) => i as real
      case FloatNum(x) => x
    }

    /** Python's truthiness of a number: non-zero. */
    predicate Truthy()
    {
      Value() != 0.0
    }
  }

  datatype PyValue = PyNone | PyNum(n: Number) | PyStr(s: string)

  predicate IsWhole(y: real)
  {
    y.Floor as real == y
  }

  /** x has at most k decimals. */
  predicate WholeAt(x: real, k: nat)
  {
    IsWhole(x * (Text.Pow10(k) as real))
  }

  /** The smallest k in [from, 17] with x * 10^k a whole number, else 17. */
  function DecimalPlaces(x: real, from: nat): (k: nat)
    requires from <= 17
    ensures from <= k <= 17
    ensures k < 17 ==> WholeAt(x, k)
    decreases 17 - from
  {
    if from == 17 then 17
    else if WholeAt(x, from) then from
    else DecimalPlaces(x, from + 1)
  }

  /** The e ≥ `from` with 10^e ≤ a < 10^(e+1), for an a of at least 10^from. */
  function ExponentAbove(a: real, from: nat): (e: nat)
    requires Text.Pow10(from) as real <= a
    ensures from <= e && Text.Pow10(e) as real <= a < Text.Pow10(e + 1) as real
    decreases a.Floor - Text.Pow10(from)
  {
    if Text.Pow10(from + 1) as real <= a then ExponentAbove(a, from + 1) else from
  }

  /** 1/a, known through a·(1/a) = 1. */
  function Reciprocal(a: real): (q: real)
    requires 0.0 < a
    ensures a * q == 1.0 && 0.0 < q
  {
    1.0 / a
  }

  /** The k ≥ 5 with 10^(k−1) < 1/a ≤ 10^k, that is 10^-k ≤ a < 10^-(k−1), for 0 < a < 10^-4. */
  function ExponentBelow(a: real): (k: nat)
    requires 0.0 < a < 0.0001
    ensures 5 <= k && Text.Pow10(k - 1) as real < Reciprocal(a) <= Text.Pow10(k) as real
  {
    var q := Reciprocal(a);
    assert 10000.0 < q by {
      var u, v := a * q, a * 10000.0;
      assert u == 1.0 && v < 1.0;
    }
    var e := ExponentAbove(q, 4);
    if Text.Pow10(e) as real == q then e else e + 1
  }

  /** x / 10^e, the mantissa of a large value. */
  function ScaledDown(a: real, e: nat): (m: real)
    ensures m * (Text.Pow10(e) as real) == a
  {
    a / (Text.Pow10(e) as real)
  }

  /** x · 10^k, the mantissa of a small value. */
  function ScaledUp(a: real, k: nat): (m: real)
  {
    a * (Text.Pow10(k) as real)
  }

  /** The digits of a mantissa: a whole one alone, without Python's ".0", any other with its decimals. */
  function MantissaStr(m: real): (r: string)
  {
    if IsWhole(m) then Text.IntToString(m.Floor) else Text.FormatFixed(m, DecimalPlaces(m, 1))
  }

  /** An exponent as Python prints it: at least two digits. */
  function ExponentDigits(n: nat): (r: string)
    ensures |r| >= 2 && forall i :: 0 <= i < |r| ==> '0' <= r[i] <= '9'
  {
    if n < 10 then "0" + Text.NatDigits(n) else Text.NatDigits(n)
  }

  /** The bounds outside which Python's str() of a float switches to exponent form. */
  const ExponentAbove16: real := 10000000000000000.0
  const ExponentBelow4: real := 0.0001

  lemma Pow10At16()
    ensures Text.Pow10(16) as real == ExponentAbove16
  {
    assert Text.Pow10(4) == 10000;
    assert Text.Pow10(8) == 100000000;
    assert Text.Pow10(12) == 1000000000000;
  }

  /**
   * Python's str() of a float on its exact value.  When 10^-4 ≤ |x| < 10^16
   * (or x is 0) it is positional: a whole value keeps one zero decimal, any
   * other is printed with as many decimals as its expansion needs.  Outside
   * that range it is m·10^e written "<m>e+NN" or "<m>e-NN", with 1 ≤ m < 10,
   * a whole mantissa without decimals, and at least two exponent digits.
   */
  function FloatStr(x: real): (r: string)
    ensures IsWhole(x) && -ExponentAbove16 < x < ExponentAbove16 ==> r == Text.WholeFloatToString(x.Floor)
  {
    var a := if x < 0.0 then -x else x;
    var sign := if x < 0.0 then "-" else "";
    if ExponentAbove16 <= a then
      Pow10At16();
      var e := ExponentAbove(a, 16);
      sign + MantissaStr(ScaledDown(a, e)) + "e+" + ExponentDigits(e)
    else if 0.0 < a < ExponentBelow4 then
      var k := ExponentBelow(a);
      sign + MantissaStr(ScaledUp(a, k)) + "e-" + ExponentDigits(k)
    else if IsWhole(x) then
      Text.WholeFloatToString(x.Floor)
    else Text.FormatFixed(x, DecimalPlaces(x, 1))
  }

  /** Beyond 10^16 in magnitude, the text is the mantissa, "e+" and the exponent e ≥ 16. */
  lemma FloatStrLarge(x: real)
    requires x <= -ExponentAbove16 || ExponentAbove16 <= x
    ensures var a := if x < 0.0 then -x else x;
              exists e: nat {:trigger Text.Pow10(e)} ::
                && 16 <= e && Text.Pow10(e) as real <= a < Text.Pow10(e + 1) as real
                && FloatStr(x) == (if x < 0.0 then "-" else "") + MantissaStr(ScaledDown(a, e)) + "e+" + ExponentDigits(e)
  {
    var a := if x < 0.0 then -x else x;
    Pow10At16();
    var e := ExponentAbove(a, 16);
    assert Text.Pow10(e) as real <= a < Text.Pow10(e + 1) as real;
  }

  /** Below 10^-4 in magnitude (and not 0), the text is the mantissa, "e-" and the exponent k ≥ 5. */
  lemma FloatStrSmall(x: real)
    requires x != 0.0 && -ExponentBelow4 < x < ExponentBelow4
    ensures var a := if x < 0.0 then -x else x;
              exists k: nat {:trigger Text.Pow10(k)} ::
                && 5 <= k && Text.Pow10(k - 1) as real < Reciprocal(a) <= Text.Pow10(k) as real
                && FloatStr(x) == (if x < 0.0 then "-" else "") + MantissaStr(ScaledUp(a, k)) + "e-" + ExponentDigits(k)
  {
    var a := if x < 0.0 then -x else x;
    var k := ExponentBelow(a);
    assert Text.Pow10(k - 1) as real < Reciprocal(a);
  }

  /** 10^16 is the first value Python prints with an exponent. */
  lemma FloatStrAt16()
    ensures FloatStr(10000000000000000.0) == "1e+16"
  {
    Pow10At16();
    assert Text.Pow10(17) as real == 10.0 * ExponentAbove16;
    assert ExponentAbove(ExponentAbove16, 16) == 16;
    assert ScaledDown(ExponentAbove16, 16) == 1.0;
    assert MantissaStr(1.0) == "1";
    assert ExponentDigits(16) == "16";
  }

  /** -10^-5 is printed with a negative exponent of two digits. */
  lemma FloatStrAtMinus5()
    ensures FloatStr(-0.00001) == "-1e-05"
  {
    assert Text.Pow10(4) == 10000 && Text.Pow10(5) == 100000;
    assert Reciprocal(0.00001) == 100000.0;
    assert ExponentAbove(100000.0, 4) == 5;
    assert ExponentBelow(0.00001) == 5;
    assert ScaledUp(0.00001, 5) == 1.0;
    assert MantissaStr(1.0) == "1";
    assert ExponentDigits(5) == "05";
  }

  function NumberStr(n: Number): (r: string)
  {
    match n
    case IntNum(i) => Text.IntToString(i)
    case FloatNum(x) => FloatStr(x)
  }

  /** Python's str() of a value. */
  function Str(v: PyValue): (r: string)
  {
    match v
    case PyNone => "None"
    case PyNum(n) => NumberStr(n)
    case PyStr(s) => s
  }

  /** Python's truthiness of an optional string: present and non-empty. */
  predicate Given(s: Option<string>)
  {
    s.Some? && |s.value| > 0
  }

  function OptStr(s: Option<string>): (r: PyValue)
    ensures s.None? <==> r == PyNone
  {
    match s
    case Some(t) => PyStr(t)
    case None => PyNone
  }
}
