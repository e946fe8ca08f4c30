// The parts of Python's str type and of its number formatting that the
// modelled code relies on.  Strings are sequences of characters; case
// mapping is the ASCII part of Python's str.lower/str.upper.
module Text {

  predicate IsPrefix(p: string, s: string)
  {
    |p| <= |s| && s[..|p|] == p
  }

  /** Python's `sub in s`. */
  predicate Contains(s: string, sub: string)
    decreases |s|
  {
    IsPrefix(sub, s) || (|s| > 0 && Contains(s[1..], sub))
  }

  /** Python's `s.startswith(p)`. */
  predicate StartsWith(s: string, p: string)
  {
    IsPrefix(p, s)
  }

  lemma {:induction false} ContainsAt(s: string, sub: string, i: nat)
    requires i + |sub| <= |s| && s[i..i + |sub|] == sub
    ensures Contains(s, sub)
    decreases i
  {
    if i == 0 {
      assert s[..|sub|] == sub;
    } else {
      assert s[1..][i - 1..i - 1 + |sub|] == s[i..i + |sub|];
      ContainsAt(s[1..], sub, i - 1);
    }
  }

  lemma {:induction false} ContainsWitness(s: string, sub: string) returns (i: nat)
    requires Contains(s, sub)
    ensures i + |sub| <= |s| && s[i..i + |sub|] == sub
    decreases |s|
  {
    if IsPrefix(sub, s) {
      i := 0;
    } else {
      var j := ContainsWitness(s[1..], sub);
      assert s[1..][j..j + |sub|] == s[j + 1..j + 1 + |sub|];
      i := j + 1;
    }
  }

  /** `sub` occurs in `s` starting at index `i`. */
  predicate OccursAt(s: string, sub: string, i: nat)
  {
    i + |sub| <= |s| && s[i..i + |sub|] == sub
  }

  /** `Contains` agrees with the existence of an occurrence at some index. */
  lemma ContainsIff(s: string, sub: string)
    ensures Contains(s, sub) <==> exists i: nat :: OccursAt(s, sub, i)
  {
    if Contains(s, sub) {
      var i := ContainsWitness(s, sub);
      assert OccursAt(s, sub, i);
    }
    if exists i: nat :: OccursAt(s, sub, i) {
      var i: nat :| OccursAt(s, sub, i);
      ContainsAt(s, sub, i);
    }
  }

  lemma {:induction false} ContainsChar(s: string, c: char)
    ensures Contains(s, [c]) <==> c in s
    decreases |s|
  {
    if |s| > 0 {
      ContainsChar(s[1..], c);
      assert s == [s[0]] + s[1..];
    }
  }

  function LowerChar(c: char): (r: char)
  {
    if 'A' <= c <= 'Z' then (c as int + 32) as char else c
  }

  function UpperChar(c: char): (r: char)
  {
    if 'a' <= c <= 'z' then (c as int - 32) as char else c
  }

  /** Python's `s.lower()`, on ASCII letters. */
  function Lower(s: string): (r: string)
    ensures |r| == |s| && forall i :: 0 <= i < |s| ==> r[i] == LowerChar(s[i])
  {
    seq(|s|, i requires 0 <= i < |s| => LowerChar(s[i]))
  }

  /** Python's `s.upper()`, on ASCII letters. */
  function Upper(s: string): (r: string)
    ensures |r| == |s| && forall i :: 0 <= i < |s| ==> r[i] == UpperChar(s[i])
  {
    seq(|s|, i requires 0 <= i < |s| => UpperChar(s[i]))
  }

  /** The characters for which Python's `str.isspace()` holds. */
  predicate IsSpace(c: char)
  {
    c == ' ' || c == '\t' || c == '\n' || c == '\r' || c == '\U{000B}' || c == '\U{000C}'
    || ('\U{001C}' <= c <= '\U{001F}') || c == '\U{0085}' || c == '\U{00A0}' || c == '\U{1680}'
    || ('\U{2000}' <= c <= '\U{200A}') || c == '\U{2028}' || c == '\U{2029}' || c == '\U{202F}'
    || c == '\U{205F}' || c == '\U{3000}'
  }

  function StripLeft(s: string): (r: string)
    ensures |r| <= |s| && r == s[|s| - |r|..]
    ensures r == [] || !IsSpace(r[0])
    ensures forall i :: 0 <= i < |s| - |r| ==> IsSpace(s[i])
  {
    if |s| > 0 && IsSpace(s[0]) then StripLeft(s[1..]) else s
  }

  function StripRight(s: string): (r: string)
    ensures |r| <= |s| && r == s[..|r|]
    ensures r == [] || !IsSpace(r[|r| - 1])
    ensures forall i :: |r| <= i < |s| ==> IsSpace(s[i])
  {
    if |s| > 0 && IsSpace(s[|s| - 1]) then StripRight(s[..|s| - 1]) else s
  }

  /** Every character of `s` is whitespace. */
  predicate AllSpace(s: string)
  {
    forall i :: 0 <= i < |s| ==> IsSpace(s[i])
  }

  /** StripLeft removes a leading run of whitespace and nothing after it. */
  lemma {:induction false} StripLeftSpaces(gap: string, b: string)
    requires AllSpace(gap)
    requires b == [] || !IsSpace(b[0])
    ensures StripLeft(gap + b) == b
    decreases |gap|
  {
    if gap == [] {
      assert gap + b == b;
    } else {
      assert (gap + b)[1..] == gap[1..] + b;
      StripLeftSpaces(gap[1..], b);
    }
  }

  /** Python's `s.strip()`: leading and trailing whitespace removed. */
  function Strip(s: string): (r: string)
    ensures |r| <= |s|
    ensures r == [] || (!IsSpace(r[0]) && !IsSpace(r[|r| - 1]))
  {
    StripRight(StripLeft(s))
  }

  /** A string with no whitespace at either end is its own strip. */
  lemma StripUnchanged(s: string)
    requires s == [] || (!IsSpace(s[0]) && !IsSpace(s[|s| - 1]))
    ensures Strip(s) == s
  {
    assert StripLeft(s) == s;
  }

  /** Characters of `s` up to the first whitespace character. */
  function TakeToken(s: string): (r: string)
    ensures |r| <= |s| && r == s[..|r|]
    ensures forall i :: 0 <= i < |r| ==> !IsSpace(r[i])
    ensures |r| == |s| || IsSpace(s[|r|])
    ensures |s| > 0 && !IsSpace(s[0]) ==> |r| > 0
  {
    if |s| == 0 || IsSpace(s[0]) then [] else [s[0]] + TakeToken(s[1..])
  }

  /** Python's `s.split()` without arguments: the maximal runs of non-whitespace. */
  function Split(s: string): (r: seq<string>)
    decreases |s|
  {
    var t := StripLeft(s);
    if t == [] then []
    else
      var w := TakeToken(t);
      assert |w| > 0;
      [w] + Split(t[|w|..])
  }

  /** Python's `s.replace(old, new)`: every non-overlapping occurrence, left to right. */
  function Replace(s: string, pat: string, rep: string): (r: string)
    requires |pat| > 0
    decreases |s|
  {
    if |s| < |pat| then s
    else if s[..|pat|] == pat then rep + Replace(s[|pat|..], pat, rep)
    else [s[0]] + Replace(s[1..], pat, rep)
  }

  /** Replacing a character by one that differs from it leaves no occurrence behind. */
  lemma {:induction false} ReplaceCharRemoves(s: string, c: char, d: char)
    requires c != d
    ensures c !in Replace(s, [c], [d])
    ensures |Replace(s, [c], [d])| == |s|
    decreases |s|
  {
    if |s| >= 1 {
      ReplaceCharRemoves(s[1..], c, d);
    }
  }

  /** Replacing a character keeps every other character where it was. */
  lemma {:induction false} ReplaceCharPointwise(s: string, c: char, d: char)
    ensures |Replace(s, [c], [d])| == |s|
    ensures forall i :: 0 <= i < |s| ==> Replace(s, [c], [d])[i] == if s[i] == c then d else s[i]
    decreases |s|
  {
    if |s| >= 1 {
      ReplaceCharPointwise(s[1..], c, d);
      var r := Replace(s, [c], [d]);
      assert r == (if s[0] == c then [d] else [s[0]]) + Replace(s[1..], [c], [d]);
    }
  }

  /** A string with no occurrence of `old` is returned unchanged. */
  lemma {:induction false} ReplaceAbsent(s: string, pat: string, rep: string)
    requires |pat| > 0 && !Contains(s, pat)
    ensures Replace(s, pat, rep) == s
    decreases |s|
  {
    if |s| >= |pat| {
      assert s[..|pat|] != pat;
      ReplaceAbsent(s[1..], pat, rep);
      assert s == [s[0]] + s[1..];
    }
  }

  /** Text before the first character of `pat` can hold no occurrence and is copied unchanged. */
  lemma {:induction false} ReplaceSkip(a: string, d: string, pat: string, rep: string)
    requires |pat| > 0 && pat[0] !in a
    ensures Replace(a + d, pat, rep) == a + Replace(d, pat, rep)
    decreases |a|
  {
    if a != [] {
      var s := a + d;
      if |s| >= |pat| {
        assert s[..|pat|][0] == a[0];
        assert s[1..] == a[1..] + d;
        assert pat[0] !in a[1..];
        ReplaceSkip(a[1..], d, pat, rep);
        assert Replace(s, pat, rep) == [a[0]] + (a[1..] + Replace(d, pat, rep));
        assert a == [a[0]] + a[1..];
      } else {
        assert Replace(d, pat, rep) == d;
        assert Replace(s, pat, rep) == s;
      }
    } else {
      assert a + d == d;
    }
  }

  /** An occurrence at the front is replaced, and the scan resumes after it. */
  lemma ReplaceHit(pat: string, rep: string, d: string)
    requires |pat| > 0
    ensures Replace(pat + d, pat, rep) == rep + Replace(d, pat, rep)
  {
    var s := pat + d;
    assert s[..|pat|] == pat;
    assert s[|pat|..] == d;
  }

  /** Python's `a <= b` on strings: lexicographic by code point. */
  predicate StrLe(a: string, b: string)
    decreases |a|
  {
    if a == [] then true
    else if b == [] then false
    else if a[0] != b[0] then a[0] < b[0]
    else StrLe(a[1..], b[1..])
  }

  lemma {:induction false} StrLeEither(a: string, b: string)
    ensures StrLe(a, b) || StrLe(b, a)
    decreases |a|
  {
    if a != [] && b != [] && a[0] == b[0] {
      StrLeEither(a[1..], b[1..]);
    }
  }

  /** Any two strings are ordered one way or the other. */
  lemma StrLeTotal()
    ensures forall a: string, b: string :: StrLe(a, b) || StrLe(b, a)
  {
    forall a: string, b: string
      ensures StrLe(a, b) || StrLe(b, a)
    {
      StrLeEither(a, b);
    }
  }

  // ---- numbers as Python prints them ------------------------------------

  function DigitChar(d: int): (r: char)
    requires 0 <= d < 10
  {
    ('0' as int + d) as char
  }

  function NatDigits(n: nat): (r: string)
    ensures |r| > 0
    ensures forall i :: 0 <= i < |r| ==> '0' <= r[i] <= '9'
  {
    if n < 10 then [DigitChar(n)] else NatDigits(n / 10) + [DigitChar(n % 10)]
  }

  /** Python's `str(n)` for an int. */
  function IntToString(n: int): (r: string)
    ensures |r| > 0
    ensures n >= 0 <==> r[0] != '-'
  {
    if n < 0 then "-" + NatDigits(-n) else NatDigits(n)
  }

  function Pow10(d: nat): (r: nat)
    ensures r >= 1
  {
    if d == 0 then 1 else 10 * Pow10(d - 1)
  }

  /** Python's `int(x)` for a float: truncation toward zero. */
  function Trunc(x: real): (r: int)
    ensures x >= 0.0 ==> r as real <= x < r as real + 1.0
    ensures x < 0.0 ==> r as real - 1.0 < x <= r as real
  {
    if x >= 0.0 then x.Floor else -((-x).Floor)
  }

  /** Rounding to the nearest integer with ties to even, as Python's round(). */
  function RoundHalfEven(x: real): (r: int)
    ensures r as real - 0.5 <= x <= r as real + 0.5
  {
    var f := x.Floor;
    var frac := x - f as real;
    if frac < 0.5 then f
    else if frac > 0.5 then f + 1
    else if f % 2 == 0 then f else f + 1
  }

  /** `n` written with exactly `width` digits, padded with leading zeros. */
  function ZeroPad(n: nat, width: nat): (r: string)
    ensures |r| == width
  {
    if width == 0 then [] else ZeroPad(n / 10, width - 1) + [DigitChar(n % 10)]
  }

  function Zeros(k: nat): (r: string)
    ensures |r| == k && forall i :: 0 <= i < k ==> r[i] == '0'
  {
    if k == 0 then [] else "0" + Zeros(k - 1)
  }

  /** The decimal digits of n with a point placed before the last d of them. */
  function PlaceDecimalPoint(n: nat, d: nat): (r: string)
    ensures |r| > 0 && '0' <= r[0] <= '9'
  {
    var digits := NatDigits(n);
    var padded := if |digits| <= d then Zeros(d + 1 - |digits|) + digits else digits;
    if d == 0 then padded else padded[..|padded| - d] + "." + padded[|padded| - d..]
  }

  /** |x| * 10^d rounded to a whole number, ties to even. */
  function ScaledMagnitude(x: real, d: nat): (r: nat)
  {
    var n := RoundHalfEven((if x < 0.0 then -x else x) * Pow10(d) as real);
    if n < 0 then 0 else n
  }

  /**
   * Python's f"{x:.{d}f}" on an exact value: rounded to d decimals with ties
   * to even, and a '-' sign whenever x is negative (Python prints -0.0 too).
   */
  function FormatFixed(x: real, d: nat): (r: string)
    ensures |r| > 0
    ensures (r[0] == '-') <==> x < 0.0
  {
    var body := PlaceDecimalPoint(ScaledMagnitude(x, d), d);
    if x < 0.0 then "-" + body else body
  }

  /** Python's str() of a float whose value is a whole number below 10^16. */
  function WholeFloatToString(n: int): (r: string)
  {
    IntToString(n) + ".0"
  }

  lemma RoundWhole(k: int)
    ensures RoundHalfEven(k as real) == k
  {
    assert (k as real).Floor == k;
  }

  lemma PlaceDecimalPointTen(n: nat)
    ensures PlaceDecimalPoint(10 * n, 1) == NatDigits(n) + ".0"
  {
    if n == 0 {
      assert NatDigits(0) == "0";
      assert Zeros(1) == "0";
    } else {
      assert (10 * n) / 10 == n && (10 * n) % 10 == 0;
      var digits := NatDigits(10 * n);
      assert digits == NatDigits(n) + "0";
      assert digits[..|digits| - 1] == NatDigits(n);
    }
  }

  /** A whole number is printed with a single trailing zero decimal. */
  lemma FormatFixedWhole(n: nat)
    ensures FormatFixed(n as real, 1) == NatDigits(n) + ".0"
  {
    assert ScaledMagnitude(n as real, 1) == 10 * n by {
      assert Pow10(1) == 10;
      assert n as real * Pow10(1) as real == (10 * n) as real;
      RoundWhole(10 * n);
    }
    PlaceDecimalPointTen(n);
  }
}
