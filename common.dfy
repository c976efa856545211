/** Small numeric and optional-value helpers shared by every module. */
module Common {

  datatype Option<T> = None | Some(value: T)

  function Max(a: real, b: real): (r: real)
    ensures r >= a && r >= b && (r == a || r == b)
  {
    if a >= b then a else b
  }

  function Min(a: real, b: real): (r: real)
    ensures r <= a && r <= b && (r == a || r == b)
  {
    if a <= b then a else b
  }

  function Abs(x: real): (r: real)
    ensures r >= 0.0 && (r == x || r == -x)
  {
    if x >= 0.0 then x else -x
  }

  lemma MulNonNegative(a: real, b: real)
    requires a >= 0.0 && b >= 0.0
    ensures a * b >= 0.0
  {
  }

  /** The ceiling of a real, as Python's math.ceil. */
  function Ceil(x: real): (c: int)
    ensures x <= c as real < x + 1.0
  {
    var f := x.Floor;
    if f as real == x then f else f + 1
  }

  /** The sum of a sequence of reals, first element first. */
  function Sum(s: seq<real>): real
  {
    if s == [] then 0.0 else Sum(s[..|s| - 1]) + s[|s| - 1]
  }

  lemma {:induction false} SumAppend(s: seq<real>, t: seq<real>)
    ensures Sum(s + t) == Sum(s) + Sum(t)
  {
    if t == [] {
      assert s + t == s;
    } else {
      assert (s + t)[..|s + t| - 1] == s + t[..|t| - 1];
      SumAppend(s, t[..|t| - 1]);
    }
  }

  lemma {:induction false} SumNonNegative(s: seq<real>)
    requires forall i :: 0 <= i < |s| ==> s[i] >= 0.0
    ensures Sum(s) >= 0.0
  {
    if s != [] {
      SumNonNegative(s[..|s| - 1]);
    }
  }

  /** The mean of a list of counts, or None for an empty list (pandas gives NaN). */
  function Mean(xs: seq<int>): (r: Option<real>)
    ensures r.None? <==> xs == []
    ensures r.Some? ==> r.value * |xs| as real == IntSum(xs) as real
  {
    if xs == [] then None else Some(IntSum(xs) as real / |xs| as real)
  }

  /** s is made of some of t's elements, in t's order. */
  predicate Subsequence<T(==)>(s: seq<T>, t: seq<T>)
    decreases |t|
  {
    |s| == 0 ||
    (|t| > 0 && (Subsequence(s, t[..|t| - 1]) ||
                 (s[|s| - 1] == t[|t| - 1] && Subsequence(s[..|s| - 1], t[..|t| - 1]))))
  }

  /**
   * One step of an order-keeping filter: extending the list by x extends the
   * kept list by x exactly when x is kept, so counts and order carry over.
   */
  lemma FilterStep<T>(kept: seq<T>, rest: seq<T>, list: seq<T>, init: seq<T>, x: T, keep: bool)
    requires list == init + [x]
    requires kept == if keep then rest + [x] else rest
    ensures multiset(list) == multiset(init) + multiset{x}
    ensures multiset(kept) == if keep then multiset(rest) + multiset{x} else multiset(rest)
    ensures Subsequence(rest, init) ==> Subsequence(kept, list)
  {
    assert list[..|list| - 1] == init;
    if keep {
      assert kept[..|kept| - 1] == rest;
    }
  }

  function IntSum(xs: seq<int>): int
  {
    if xs == [] then 0 else IntSum(xs[..|xs| - 1]) + xs[|xs| - 1]
  }

  lemma {:induction false} IntSumNonNegative(xs: seq<int>)
    requires forall i :: 0 <= i < |xs| ==> xs[i] >= 0
    ensures IntSum(xs) >= 0
  {
    if xs != [] {
      IntSumNonNegative(xs[..|xs| - 1]);
    }
  }

  /** The last min(k, |s|) elements of s, as pandas' tail(k). */
  function Last<T>(s: seq<T>, k: nat): (r: seq<T>)
    ensures |r| == if k < |s| then k else |s|
    ensures r == s[|s| - |r|..]
  {
    if k < |s| then s[|s| - k..] else s
  }

  /** The first min(k, |s|) elements of s, as pandas' head(k) or s[:k]. */
  function Take<T>(s: seq<T>, k: nat): (r: seq<T>)
    ensures |r| == if k < |s| then k else |s|
    ensures r == s[..|r|]
  {
    if k < |s| then s[..k] else s
  }

  /** Python's `needle in hay` on strings: needle starts at some position of hay. */
  predicate IsSubstring(needle: string, hay: string)
    decreases |hay|
  {
    |needle| <= |hay| && (hay[..|needle|] == needle || IsSubstring(needle, hay[1..]))
  }
}
