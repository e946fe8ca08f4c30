// Python's list.sort / sorted: a stable sort under a total "may come first"
// relation.  The relation `le(a, b)` means that `a` may precede `b`; for a
// Python key sort it is `key(a) <= key(b)` and, with reverse=True,
// `key(a) >= key(b)`.
module Sorting {

  /** Any two elements are comparable. */
  ghost predicate Total<T(!new)>(le: (T, T) -> bool)
  {
    forall a: T, b: T :: le(a, b) || le(b, a)
  }

  /** Every element may come before its successor. */
  predicate SortedBy<T>(s: seq<T>, le: (T, T) -> bool)
  {
    forall i :: 0 <= i < |s| - 1 ==> le(s[i], s[i + 1])
  }

  /** `x` inserted before the first element it may precede: an element that
      was earlier in the input stays ahead of the equal ones that follow. */
  function Insert<T>(x: T, t: seq<T>, le: (T, T) -> bool): (r: seq<T>)
    ensures multiset(r) == multiset(t) + multiset{x}
    ensures |r| == |t| + 1
    ensures r[0] == x || (|t| > 0 && r[0] == t[0])
  {
    if t == [] || le(x, t[0]) then [x] + t
    else
      assert t == [t[0]] + t[1..];
      [t[0]] + Insert(x, t[1..], le)
  }

  /** Python's stable sort, as an insertion sort from the back. */
  function Sort<T>(s: seq<T>, le: (T, T) -> bool): (r: seq<T>)
    ensures multiset(r) == multiset(s)
    ensures |r| == |s|
  {
    if s == [] then []
    else
      assert s == [s[0]] + s[1..];
      Insert(s[0], Sort(s[1..], le), le)
  }

  lemma {:induction false} InsertSorted<T(!new)>(x: T, t: seq<T>, le: (T, T) -> bool)
    requires Total(le) && SortedBy(t, le)
    ensures SortedBy(Insert(x, t, le), le)
    decreases |t|
  {
    if t == [] || le(x, t[0]) {
    } else {
      assert le(t[0], x);
      var tail := t[1..];
      InsertSorted(x, tail, le);
      var rest := Insert(x, tail, le);
      assert Insert(x, t, le) == [t[0]] + rest;
      assert rest[0] == x || rest[0] == t[1];
    }
  }

  /** The sort returns its input reordered, each element allowed before the next. */
  lemma {:induction false} SortSorted<T(!new)>(s: seq<T>, le: (T, T) -> bool)
    requires Total(le)
    ensures SortedBy(Sort(s, le), le)
    ensures multiset(Sort(s, le)) == multiset(s)
    decreases |s|
  {
    if s != [] {
      SortSorted(s[1..], le);
      InsertSorted(s[0], Sort(s[1..], le), le);
    }
  }

  /** Every element of the sorted list comes from the input, and conversely. */
  lemma SortMembers<T>(s: seq<T>, le: (T, T) -> bool)
    ensures forall x :: x in Sort(s, le) <==> x in s
  {
    var r := Sort(s, le);
    assert multiset(r) == multiset(s);
    forall x
      ensures x in r <==> x in s
    {
      assert x in r <==> x in multiset(r);
      assert x in s <==> x in multiset(s);
    }
  }

  /** The elements that satisfy `k`, in their order. */
  function Keep<T(!new)>(s: seq<T>, k: T -> bool): (r: seq<T>)
    ensures |r| <= |s|
  {
    if s == [] then []
    else (if k(s[0]) then [s[0]] else []) + Keep(s[1..], k)
  }

  /** Keep selects exactly the members of `s` that `k` accepts. */
  lemma {:induction false} KeepMembers<T(!new)>(s: seq<T>, k: T -> bool)
    ensures forall x :: x in Keep(s, k) <==> x in s && k(x)
  {
    if s != [] {
      KeepMembers(s[1..], k);
      assert s == [s[0]] + s[1..];
    }
  }

  lemma {:induction false} InsertKeep<T(!new)>(x: T, t: seq<T>, le: (T, T) -> bool, k: T -> bool)
    requires forall a, b :: k(a) && k(b) ==> le(a, b)
    ensures Keep(Insert(x, t, le), k) == (if k(x) then [x] else []) + Keep(t, k)
    decreases |t|
  {
    if t == [] || le(x, t[0]) {
      assert Insert(x, t, le) == [x] + t;
      KeepCons(x, t, k);
    } else {
      InsertKeep(x, t[1..], le, k);
      InsertKeepPast(x, t, le, k);
    }
  }

  /** One step of InsertKeep: `x` moves past `t[0]`, which `k` cannot select alongside `x`. */
  lemma {:induction false} InsertKeepPast<T(!new)>(x: T, t: seq<T>, le: (T, T) -> bool, k: T -> bool)
    requires t != [] && !le(x, t[0]) && !(k(x) && k(t[0]))
    requires Keep(Insert(x, t[1..], le), k) == (if k(x) then [x] else []) + Keep(t[1..], k)
    ensures Keep(Insert(x, t, le), k) == (if k(x) then [x] else []) + Keep(t, k)
  {
    var rest := Insert(x, t[1..], le);
    var cs := if k(t[0]) then [t[0]] else [];
    var xs := if k(x) then [x] else [];
    assert Keep(Insert(x, t, le), k) == cs + Keep(rest, k) by {
      assert Insert(x, t, le) == [t[0]] + rest;
      KeepCons(t[0], rest, k);
    }
    assert Keep(t, k) == cs + Keep(t[1..], k) by {
      assert t == [t[0]] + t[1..];
      KeepCons(t[0], t[1..], k);
    }
    SwapApart(cs, xs, Keep(t[1..], k));
  }

  lemma SwapApart<T>(cs: seq<T>, xs: seq<T>, rest: seq<T>)
    requires cs == [] || xs == []
    ensures cs + (xs + rest) == xs + (cs + rest)
  {
  }

  lemma {:induction false} KeepCons<T(!new)>(y: T, s: seq<T>, k: T -> bool)
    ensures Keep([y] + s, k) == (if k(y) then [y] else []) + Keep(s, k)
  {
    assert ([y] + s)[1..] == s;
  }

  /**
   * Stability: elements that may come before one another in either order
   * (those `k` selects) leave the sort in the order they came in.
   */
  lemma {:induction false} SortStable<T(!new)>(s: seq<T>, le: (T, T) -> bool, k: T -> bool)
    requires forall a, b :: k(a) && k(b) ==> le(a, b)
    ensures Keep(Sort(s, le), k) == Keep(s, k)
    decreases |s|
  {
    if s != [] {
      SortStable(s[1..], le, k);
      InsertKeep(s[0], Sort(s[1..], le), le, k);
    }
  }
}
