/** Sequence operations that the application performs with the array methods
    `reduce`, `filter` and `filter((_, i) => i !== k)`. */
module Seqs {

  /** `s.reduce((acc, x) => acc + f(x), 0)`: a left fold, so it is defined from the back. */
  function Sum<T>(s: seq<T>, f: T -> real): real
    decreases |s|
  {
    if |s| == 0 then 0.0 else Sum(s[..|s| - 1], f) + f(s[|s| - 1])
  }

  lemma {:induction false} SumAppend<T>(s: seq<T>, t: seq<T>, f: T -> real)
    ensures Sum(s + t, f) == Sum(s, f) + Sum(t, f)
    decreases |t|
  {
    if |t| == 0 {
      assert s + t == s;
    } else {
      assert (s + t)[..|s + t| - 1] == s + t[..|t| - 1];
      SumAppend(s, t[..|t| - 1], f);
    }
  }

  /** Summing a pointwise sum is the sum of two sums. */
  lemma {:induction false} SumOfSums<T>(s: seq<T>, h: T -> real, f: T -> real, g: T -> real)
    requires forall i :: 0 <= i < |s| ==> h(s[i]) == f(s[i]) + g(s[i])
    ensures Sum(s, h) == Sum(s, f) + Sum(s, g)
    decreases |s|
  {
    if |s| > 0 {
      SumOfSums(s[..|s| - 1], h, f, g);
    }
  }

  /** Summing a scaled term is scaling the sum. */
  lemma {:induction false} SumScaled<T>(s: seq<T>, h: T -> real, c: real, f: T -> real)
    requires forall i :: 0 <= i < |s| ==> h(s[i]) == c * f(s[i])
    ensures Sum(s, h) == c * Sum(s, f)
    decreases |s|
  {
    if |s| > 0 {
      SumScaled(s[..|s| - 1], h, c, f);
    }
  }

  /** Two terms that agree on every element give the same sum. */
  lemma {:induction false} SumCongruent<T>(s: seq<T>, f: T -> real, g: T -> real)
    requires forall i :: 0 <= i < |s| ==> f(s[i]) == g(s[i])
    ensures Sum(s, f) == Sum(s, g)
    decreases |s|
  {
    if |s| > 0 {
      SumCongruent(s[..|s| - 1], f, g);
    }
  }

  /** Summing non-negative terms gives a non-negative sum. */
  lemma {:induction false} SumNonNegative<T>(s: seq<T>, f: T -> real)
    requires forall i :: 0 <= i < |s| ==> f(s[i]) >= 0.0
    ensures Sum(s, f) >= 0.0
    decreases |s|
  {
    if |s| > 0 {
      SumNonNegative(s[..|s| - 1], f);
    }
  }

  /** `s.filter(p)`: the elements satisfying `p`, in their original order. */
  function Filter<T>(s: seq<T>, p: T -> bool): (r: seq<T>)
    ensures |r| <= |s|
    ensures forall i :: 0 <= i < |r| ==> r[i] in s && p(r[i])
    ensures forall i :: 0 <= i < |s| && p(s[i]) ==> s[i] in r
    decreases |s|
  {
    if |s| == 0 then []
    else (if p(s[0]) then [s[0]] else []) + Filter(s[1..], p)
  }

  /** `r` is `s` with some elements left out and the rest in their order. */
  predicate IsSubsequence<T(==)>(r: seq<T>, s: seq<T>)
    decreases |s|
  {
    if |r| == 0 then true
    else if |s| == 0 then false
    else if r[0] == s[0] then IsSubsequence(r[1..], s[1..])
    else IsSubsequence(r, s[1..])
  }

  lemma {:induction false} FilterIsSubsequence<T>(s: seq<T>, p: T -> bool)
    ensures IsSubsequence(Filter(s, p), s)
    decreases |s|
  {
    if |s| > 0 {
      FilterIsSubsequence(s[1..], p);
      if p(s[0]) {
        assert Filter(s, p) == [s[0]] + Filter(s[1..], p);
        assert Filter(s, p)[1..] == Filter(s[1..], p);
      } else {
        assert Filter(s, p) == Filter(s[1..], p);
      }
    }
  }

  /** A filter that every element passes keeps the whole sequence. */
  lemma {:induction false} FilterKeepsAll<T>(s: seq<T>, p: T -> bool)
    requires forall i :: 0 <= i < |s| ==> p(s[i])
    ensures Filter(s, p) == s
    decreases |s|
  {
    if |s| > 0 {
      FilterKeepsAll(s[1..], p);
      assert [s[0]] + s[1..] == s;
    }
  }

  /** The number of elements of `s` that satisfy `p`. */
  function Count<T>(s: seq<T>, p: T -> bool): nat
    decreases |s|
  {
    if |s| == 0 then 0 else (if p(s[0]) then 1 else 0) + Count(s[1..], p)
  }

  lemma {:induction false} FilterLength<T>(s: seq<T>, p: T -> bool)
    ensures |Filter(s, p)| == Count(s, p)
    decreases |s|
  {
    if |s| > 0 {
      FilterLength(s[1..], p);
    }
  }

  /** `s.filter((_, i) => i !== k)` for the suffix of `s` that starts at index `from`. */
  function DropIndexFrom<T>(s: seq<T>, k: int, from: int): seq<T>
    decreases |s|
  {
    if |s| == 0 then []
    else (if from == k then [] else [s[0]]) + DropIndexFrom(s[1..], k, from + 1)
  }

  /** `s.filter((_, i) => i !== k)`. */
  function RemoveAt<T>(s: seq<T>, k: int): seq<T>
  {
    DropIndexFrom(s, k, 0)
  }

  lemma {:induction false} DropIndexFromOutside<T>(s: seq<T>, k: int, from: int)
    requires k < from || from + |s| <= k
    ensures DropIndexFrom(s, k, from) == s
    decreases |s|
  {
    if |s| > 0 {
      DropIndexFromOutside(s[1..], k, from + 1);
      assert [s[0]] + s[1..] == s;
    }
  }

  lemma {:induction false} DropIndexFromInside<T>(s: seq<T>, k: int, from: int)
    requires from <= k < from + |s|
    ensures DropIndexFrom(s, k, from) == s[..k - from] + s[k - from + 1..]
    decreases |s|
  {
    if from == k {
      DropIndexFromOutside(s[1..], k, from + 1);
    } else {
      DropIndexFromInside(s[1..], k, from + 1);
      SliceCons(s, k - from);
    }
  }

  /** Cutting out index `m > 0` of `s` is keeping its head and cutting out
      index `m - 1` of its tail. */
  lemma SliceCons<T>(s: seq<T>, m: int)
    requires 0 < m < |s|
    ensures s[..m] + s[m + 1..] == [s[0]] + (s[1..][..m - 1] + s[1..][m..])
  {
    assert s[..m] == [s[0]] + s[1..][..m - 1];
    assert s[m + 1..] == s[1..][m..];
  }

  /** Removing index `k` drops exactly that element and keeps the others in order;
      an index outside the sequence removes nothing. */
  lemma RemoveAtSpec<T>(s: seq<T>, k: int)
    ensures 0 <= k < |s| ==> RemoveAt(s, k) == s[..k] + s[k + 1..]
    ensures !(0 <= k < |s|) ==> RemoveAt(s, k) == s
  {
    if 0 <= k < |s| {
      DropIndexFromInside(s, k, 0);
    } else {
      DropIndexFromOutside(s, k, 0);
    }
  }

  /** Element-wise reading of RemoveAtSpec. */
  lemma RemoveAtIndex<T>(s: seq<T>, k: int)
    requires 0 <= k < |s|
    ensures |RemoveAt(s, k)| == |s| - 1
    ensures forall i :: 0 <= i < k ==> RemoveAt(s, k)[i] == s[i]
    ensures forall i :: k <= i < |s| - 1 ==> RemoveAt(s, k)[i] == s[i + 1]
  {
    RemoveAtSpec(s, k);
  }

  /** `s.map(m)`. */
  function Map<A, B>(s: seq<A>, m: A -> B): (r: seq<B>)
    ensures |r| == |s|
    ensures forall i :: 0 <= i < |s| ==> r[i] == m(s[i])
  {
    seq(|s|, i requires 0 <= i < |s| => m(s[i]))
  }

  /** Summing over a mapped sequence is summing the composed term over the original. */
  lemma {:induction false} SumMap<A, B>(s: seq<A>, m: A -> B, f: A -> real, g: B -> real)
    requires forall i :: 0 <= i < |s| ==> f(s[i]) == g(m(s[i]))
    ensures Sum(s, f) == Sum(Map(s, m), g)
    decreases |s|
  {
    if |s| > 0 {
      SumMap(s[..|s| - 1], m, f, g);
      assert Map(s, m)[..|s| - 1] == Map(s[..|s| - 1], m);
    }
  }
}
