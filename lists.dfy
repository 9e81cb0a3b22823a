/**
 * Sequence combinators shared by the list pages: `Array.prototype.filter`
 * and the `reduce((sum, x) => sum + f(x), 0)` totals.
 */
module Lists {

  /** `r` is an order-preserving subsequence of `s`. */
  ghost predicate Subsequence<T>(r: seq<T>, s: seq<T>)
    decreases |s|
  {
    if r == [] then true
    else if s == [] then false
    else (r[0] == s[0] && Subsequence(r[1..], s[1..])) || Subsequence(r, s[1..])
  }

  /**
   * `s.filter(p)`: the elements satisfying `p`, in their original order,
   * each as often as in `s` (see `FilterUnique`).
   */
  function Filter<T>(s: seq<T>, p: T -> bool): (r: seq<T>)
    ensures |r| <= |s| && |r| == Count(s, p)
    ensures forall i :: 0 <= i < |r| ==> p(r[i])
    ensures forall i :: 0 <= i < |s| && p(s[i]) ==> s[i] in r
    ensures forall x :: x in r ==> x in s
    ensures Subsequence(r, s)
    ensures r == s <==> forall i :: 0 <= i < |s| ==> p(s[i])
  {
    if s == [] then []
    else
      var rest := Filter(s[1..], p);
      assert forall i :: 1 <= i < |s| ==> s[i] == s[1..][i - 1];
      if p(s[0]) then [s[0]] + rest
      else
        assert |rest| <= |s[1..]| < |s|;
        rest
  }

  /** The number of elements of `s` that satisfy `p`. */
  function Count<T>(s: seq<T>, p: T -> bool): nat
  {
    if s == [] then 0 else (if p(s[0]) then 1 else 0) + Count(s[1..], p)
  }

  /** `s.reduce((sum, x) => sum + f(x), 0)`. */
  function Sum<T>(s: seq<T>, f: T -> int): int
  {
    if s == [] then 0 else f(s[0]) + Sum(s[1..], f)
  }

  /** The sum of `f` over the elements satisfying `p`, without building the filtered list. */
  function SumWhere<T>(s: seq<T>, p: T -> bool, f: T -> int): int
  {
    if s == [] then 0 else (if p(s[0]) then f(s[0]) else 0) + SumWhere(s[1..], p, f)
  }

  lemma {:induction false} SumAppend<T>(s: seq<T>, t: seq<T>, f: T -> int)
    ensures Sum(s + t, f) == Sum(s, f) + Sum(t, f)
  {
    if s == [] {
      assert s + t == t;
    } else {
      assert (s + t)[1..] == s[1..] + t;
      SumAppend(s[1..], t, f);
    }
  }

  /** Summing the filtered list is summing `f` where `p` holds and 0 elsewhere. */
  lemma {:induction false} SumFilter<T>(s: seq<T>, p: T -> bool, f: T -> int)
    ensures Sum(Filter(s, p), f) == SumWhere(s, p, f)
  {
    if s != [] { SumFilter(s[1..], p, f); }
  }

  /**
   * When every element satisfies exactly one of `p` and `q`, the two
   * filtered totals add up to the total of the whole list.
   */
  lemma {:induction false} SumPartition<T>(s: seq<T>, p: T -> bool, q: T -> bool, f: T -> int)
    requires forall i :: 0 <= i < |s| ==> p(s[i]) != q(s[i])
    ensures Sum(Filter(s, p), f) + Sum(Filter(s, q), f) == Sum(s, f)
  {
    if s != [] {
      assert forall i :: 0 <= i < |s[1..]| ==> s[1..][i] == s[i + 1];
      SumPartition(s[1..], p, q, f);
    }
  }

  /** A subsequence made only of elements satisfying `p` has at most `Count(s, p)` of them. */
  lemma {:induction false} SubsequenceCount<T>(r: seq<T>, s: seq<T>, p: T -> bool)
    requires Subsequence(r, s)
    requires forall i :: 0 <= i < |r| ==> p(r[i])
    ensures |r| <= Count(s, p)
  {
    if r != [] && s != [] {
      if r[0] == s[0] && Subsequence(r[1..], s[1..]) {
        SubsequenceCount(r[1..], s[1..], p);
      } else {
        SubsequenceCount(r, s[1..], p);
      }
    }
  }

  /**
   * `Filter`'s contract determines its result: the only subsequence of `s`
   * made of elements satisfying `p` that is `Count(s, p)` long is
   * `Filter(s, p)`, so no element is dropped, repeated or reordered.
   */
  lemma {:induction false} FilterUnique<T>(r: seq<T>, s: seq<T>, p: T -> bool)
    requires Subsequence(r, s)
    requires forall i :: 0 <= i < |r| ==> p(r[i])
    requires |r| == Count(s, p)
    ensures r == Filter(s, p)
  {
    if s != [] {
      if p(s[0]) {
        if r == [] {
          assert false;
        } else if r[0] == s[0] && Subsequence(r[1..], s[1..]) {
          FilterUnique(r[1..], s[1..], p);
          assert r == [r[0]] + r[1..];
        } else {
          SubsequenceCount(r, s[1..], p);
          assert false;
        }
      } else {
        assert r != [] ==> r[0] != s[0];
        FilterUnique(r, s[1..], p);
      }
    }
  }
}
