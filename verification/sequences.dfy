/** Order-preserving selection from sequences: the subsequence relation,
    filtering by a predicate, and flattening a list of windows. Every stage
    of the pipeline that drops or regroups reviews is stated in these terms.
 */
module Sequences {

  /** `xs` is `ys` with some elements deleted and the rest in their
      original order. */
  predicate IsSubsequence<T(==)>(xs: seq<T>, ys: seq<T>)
    decreases |ys|
  {
    if |xs| == 0 then true
    else if |ys| == 0 then false
    else if xs[0] == ys[0] then IsSubsequence(xs[1..], ys[1..])
    else IsSubsequence(xs, ys[1..])
  }

  /** A subsequence is never longer than the sequence it is taken from. */
  lemma {:induction false} SubsequenceLength<T>(xs: seq<T>, ys: seq<T>)
    requires IsSubsequence(xs, ys)
    ensures |xs| <= |ys|
    decreases |ys|
  {
    if |xs| > 0 {
      if xs[0] == ys[0] {
        SubsequenceLength(xs[1..], ys[1..]);
      } else {
        SubsequenceLength(xs, ys[1..]);
      }
    }
  }

  /** Every element of a subsequence is an element of the sequence. */
  lemma {:induction false} SubsequenceMembers<T>(xs: seq<T>, ys: seq<T>)
    requires IsSubsequence(xs, ys)
    ensures forall x :: x in xs ==> x in ys
    decreases |ys|
  {
    if |xs| > 0 {
      assert xs == [xs[0]] + xs[1..];
      assert ys == [ys[0]] + ys[1..];
      if xs[0] == ys[0] {
        SubsequenceMembers(xs[1..], ys[1..]);
      } else {
        SubsequenceMembers(xs, ys[1..]);
      }
    }
  }

  /** Prepending an element to the longer sequence keeps the relation. */
  lemma {:induction false} SubsequenceSkip<T>(x: T, xs: seq<T>, ys: seq<T>)
    requires IsSubsequence(xs, ys)
    ensures IsSubsequence(xs, [x] + ys)
    decreases |ys|, 1
  {
    assert ([x] + ys)[1..] == ys;
    if |xs| > 0 && xs[0] == x {
      SubsequenceTail(xs, ys);
    }
  }

  /** Dropping the first element of the shorter sequence keeps the relation. */
  lemma {:induction false} SubsequenceTail<T>(xs: seq<T>, ys: seq<T>)
    requires |xs| > 0 && IsSubsequence(xs, ys)
    ensures IsSubsequence(xs[1..], ys)
    decreases |ys|, 0
  {
    assert ys == [ys[0]] + ys[1..];
    if xs[0] == ys[0] {
      SubsequenceSkip(ys[0], xs[1..], ys[1..]);
    } else {
      SubsequenceTail(xs, ys[1..]);
      SubsequenceSkip(ys[0], xs[1..], ys[1..]);
    }
  }

  /** Prepending the same element to both sides keeps the relation. */
  lemma SubsequenceCons<T>(x: T, xs: seq<T>, ys: seq<T>)
    requires IsSubsequence(xs, ys)
    ensures IsSubsequence([x] + xs, [x] + ys)
  {
    assert ([x] + xs)[1..] == xs;
    assert ([x] + ys)[1..] == ys;
  }

  /** The elements of `xs` that satisfy `p`, in their original order. */
  function Filter<T>(xs: seq<T>, p: T -> bool): (ys: seq<T>)
    ensures |ys| <= |xs|
    ensures forall i :: 0 <= i < |ys| ==> p(ys[i])
  {
    if |xs| == 0 then []
    else (if p(xs[0]) then [xs[0]] else []) + Filter(xs[1..], p)
  }

  /** The filter's output is a subsequence of its input. */
  lemma {:induction false} FilterIsSubsequence<T>(xs: seq<T>, p: T -> bool)
    ensures IsSubsequence(Filter(xs, p), xs)
  {
    if |xs| > 0 {
      FilterIsSubsequence(xs[1..], p);
      assert xs == [xs[0]] + xs[1..];
      if p(xs[0]) {
        SubsequenceCons(xs[0], Filter(xs[1..], p), xs[1..]);
      } else {
        assert Filter(xs, p) == Filter(xs[1..], p);
        SubsequenceSkip(xs[0], Filter(xs[1..], p), xs[1..]);
      }
    }
  }

  /** The filter keeps every copy of every element that satisfies `p` and
      no copy of any other: with the subsequence relation this pins the
      output down exactly. */
  lemma {:induction false} FilterCounts<T>(xs: seq<T>, p: T -> bool)
    ensures forall x :: multiset(Filter(xs, p))[x] == if p(x) then multiset(xs)[x] else 0
  {
    if |xs| > 0 {
      FilterCounts(xs[1..], p);
      assert xs == [xs[0]] + xs[1..];
      assert multiset(xs) == multiset([xs[0]]) + multiset(xs[1..]);
    }
  }

  /** An element is in the output exactly when it is in the input and
      satisfies `p`. */
  lemma FilterMembership<T>(xs: seq<T>, p: T -> bool)
    ensures forall x :: x in Filter(xs, p) <==> x in xs && p(x)
  {
    FilterCounts(xs, p);
    forall x
      ensures x in Filter(xs, p) <==> x in xs && p(x)
    {
      assert x in Filter(xs, p) <==> multiset(Filter(xs, p))[x] > 0;
      assert x in xs <==> multiset(xs)[x] > 0;
    }
  }

  /** When every element satisfies `p` the filter changes nothing. */
  lemma {:induction false} FilterAllKept<T>(xs: seq<T>, p: T -> bool)
    requires forall i :: 0 <= i < |xs| ==> p(xs[i])
    ensures Filter(xs, p) == xs
  {
    if |xs| > 0 {
      FilterAllKept(xs[1..], p);
      assert xs == [xs[0]] + xs[1..];
    }
  }

  /** Filtering twice by the same predicate is filtering once. */
  lemma FilterIdempotent<T>(xs: seq<T>, p: T -> bool)
    ensures Filter(Filter(xs, p), p) == Filter(xs, p)
  {
    FilterAllKept(Filter(xs, p), p);
  }

  /** The filter's output depends on `p` only through the elements of `xs`. */
  lemma {:induction false} FilterCongruent<T>(xs: seq<T>, p: T -> bool, q: T -> bool)
    requires forall i :: 0 <= i < |xs| ==> p(xs[i]) == q(xs[i])
    ensures Filter(xs, p) == Filter(xs, q)
  {
    if |xs| > 0 {
      FilterCongruent(xs[1..], p, q);
    }
  }

  /** Filtering a concatenation filters each part. */
  lemma {:induction false} FilterAppend<T>(xs: seq<T>, ys: seq<T>, p: T -> bool)
    ensures Filter(xs + ys, p) == Filter(xs, p) + Filter(ys, p)
  {
    if |xs| == 0 {
      assert xs + ys == ys;
    } else {
      assert (xs + ys)[1..] == xs[1..] + ys;
      FilterAppend(xs[1..], ys, p);
    }
  }

  /** The windows of a batching, concatenated in order. */
  function Flatten<T>(xss: seq<seq<T>>): seq<T> {
    if |xss| == 0 then [] else xss[0] + Flatten(xss[1..])
  }

  /** Flattening distributes over concatenation of window lists. */
  lemma {:induction false} FlattenAppend<T>(a: seq<seq<T>>, b: seq<seq<T>>)
    ensures Flatten(a + b) == Flatten(a) + Flatten(b)
  {
    if |a| == 0 {
      assert a + b == b;
    } else {
      assert (a + b)[1..] == a[1..] + b;
      FlattenAppend(a[1..], b);
    }
  }

  /** Flattening one more window of a prefix appends that window. */
  lemma FlattenSnoc<T>(xss: seq<seq<T>>, j: nat)
    requires j < |xss|
    ensures Flatten(xss[..j + 1]) == Flatten(xss[..j]) + xss[j]
  {
    assert xss[..j + 1] == xss[..j] + [xss[j]];
    FlattenAppend(xss[..j], [xss[j]]);
    assert Flatten([xss[j]]) == xss[j] + Flatten([xss[j]][1..]);
  }

  /** Applies `f` to every element, in order. */
  function MapSeq<T, U>(xs: seq<T>, f: T -> U): (ys: seq<U>)
    ensures |ys| == |xs|
    ensures forall i :: 0 <= i < |xs| ==> ys[i] == f(xs[i])
  {
    if |xs| == 0 then [] else [f(xs[0])] + MapSeq(xs[1..], f)
  }

  /** `range(start, stop, step)` for a non-zero step: `start`, `start +
      step`, … while still before `stop` in the direction of `step`. */
  function Range(start: int, stop: int, step: int): (r: seq<int>)
    requires step != 0
    ensures forall k :: 0 <= k < |r| ==> r[k] == start + k * step
    ensures forall k :: 0 <= k < |r| ==> (step > 0 ==> r[k] < stop) && (step < 0 ==> r[k] > stop)
    ensures step > 0 ==> (|r| == 0 <==> start >= stop)
    ensures step < 0 ==> (|r| == 0 <==> start <= stop)
    decreases if step > 0 then stop - start else start - stop
  {
    if (step > 0 && start >= stop) || (step < 0 && start <= stop) then []
    else
      var rest := Range(start + step, stop, step);
      assert forall k :: 1 <= k < |rest| + 1 ==> start + step + (k - 1) * step == start + k * step by {
        forall k | 1 <= k < |rest| + 1
          ensures start + step + (k - 1) * step == start + k * step
        {
          assert (k - 1) * step == k * step - step;
        }
      }
      [start] + rest
  }

  /** With a positive step the range has ceil((stop - start) / step)
      elements: its last element is below `stop`, and one more step would
      reach it. */
  lemma {:induction false} RangeLength(start: int, stop: int, step: int)
    requires step > 0 && start < stop
    ensures |Range(start, stop, step)| > 0
    ensures var n := |Range(start, stop, step)|;
      start + (n - 1) * step < stop <= start + n * step
    decreases stop - start
  {
    var n := |Range(start, stop, step)|;
    if start + step < stop {
      RangeLength(start + step, stop, step);
      assert start + step + (n - 2) * step == start + (n - 1) * step;
      assert start + step + (n - 1) * step == start + n * step;
    }
  }
}
