// Counting helpers shared by the lead and outreach statistics: occurrences
// of each value of an enumeration, the total of a list of counts, and
// Python's round(x, 2) on exact values.
module Tally {
  import Text

  function Total(xs: seq<nat>): nat
  {
    if xs == [] then 0 else xs[0] + Total(xs[1..])
  }

  /** Raising one entry by one raises the total by one. */
  lemma {:induction false} TotalBump(a: seq<nat>, j: nat)
    requires j < |a|
    ensures Total(a[j := a[j] + 1]) == Total(a) + 1
  {
    var b := a[j := a[j] + 1];
    if j > 0 {
      assert b[1..] == a[1..][j - 1 := a[1..][j - 1] + 1];
      TotalBump(a[1..], j - 1);
    } else {
      assert b[1..] == a[1..];
    }
  }

  lemma {:induction false} TotalZero(a: seq<nat>)
    requires forall i :: 0 <= i < |a| ==> a[i] == 0
    ensures Total(a) == 0
  {
    if a != [] {
      TotalZero(a[1..]);
    }
  }

  /** The number of times `k` occurs in `ks`. */
  function Count<K(==)>(ks: seq<K>, k: K): (n: nat)
    ensures n <= |ks|
  {
    if ks == [] then 0 else Count(ks[..|ks| - 1], k) + (if ks[|ks| - 1] == k then 1 else 0)
  }

  /** The count of each value of `all`, in the order of `all`. */
  function Counts<K(==)>(ks: seq<K>, all: seq<K>): (r: seq<nat>)
    ensures |r| == |all| && forall i :: 0 <= i < |all| ==> r[i] == Count(ks, all[i])
  {
    seq(|all|, i requires 0 <= i < |all| => Count(ks, all[i]))
  }

  /** A value that never occurs is counted zero times. */
  lemma {:induction false} CountAbsent<K>(ks: seq<K>, k: K)
    requires forall i :: 0 <= i < |ks| ==> ks[i] != k
    ensures Count(ks, k) == 0
  {
    if ks != [] {
      CountAbsent(ks[..|ks| - 1], k);
    }
  }

  /**
   * When `all` lists each value once and every element of `ks` is among
   * them, the counts add up to the length of `ks`.
   */
  lemma {:induction false} CountsSum<K>(ks: seq<K>, all: seq<K>)
    requires forall i, j :: 0 <= i < j < |all| ==> all[i] != all[j]
    requires forall i :: 0 <= i < |ks| ==> ks[i] in all
    ensures Total(Counts(ks, all)) == |ks|
  {
    if ks == [] {
      TotalZero(Counts(ks, all));
    } else {
      var init := ks[..|ks| - 1];
      var x := ks[|ks| - 1];
      CountsSum(init, all);
      var a := Counts(init, all);
      var j :| 0 <= j < |all| && all[j] == x;
      assert Counts(ks, all) == a[j := a[j] + 1];
      TotalBump(a, j);
    }
  }

  /** round(x, 2), on exact values with ties to even. */
  function Round2(x: real): real
  {
    Text.RoundHalfEven(x * 100.0) as real / 100.0
  }

  /** Rounding to two places moves a value by at most half a hundredth and keeps it within 0..100. */
  lemma Round2Bounds(x: real)
    ensures x - 0.005 <= Round2(x) <= x + 0.005
    ensures 0.0 <= x <= 100.0 ==> 0.0 <= Round2(x) <= 100.0
  {
    var k := Text.RoundHalfEven(x * 100.0);
    assert k as real - 0.5 <= x * 100.0 <= k as real + 0.5;
    if 0.0 <= x <= 100.0 {
      assert 0 <= k <= 10000;
    }
  }

  /** A whole number is already rounded. */
  lemma Round2Whole(k: int)
    ensures Round2(k as real) == k as real
  {
    assert k as real * 100.0 == (100 * k) as real;
    Text.RoundWhole(100 * k);
  }
}
