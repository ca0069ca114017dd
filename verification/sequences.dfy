/** Order-preserving selections from a sequence, shared by every list
    comprehension of the form `[x for x in xs if p(x)]` in the model. */
module Sequences {

  /** `a` can be obtained from `b` by deleting elements. */
  predicate Subsequence<T(==)>(a: seq<T>, b: seq<T>)
    decreases |b|
  {
    if a == [] then true
    else if b == [] then false
    else if a[0] == b[0] then Subsequence(a[1..], b[1..])
    else Subsequence(a, b[1..])
  }

  /** Putting one more element in front of the longer sequence keeps a
      subsequence a subsequence. */
  lemma {:induction false} SubsequenceSkip<T>(a: seq<T>, b: seq<T>, x: T)
    requires Subsequence(a, b)
    ensures Subsequence(a, [x] + b)
    decreases |b|, 1
  {
    var xb := [x] + b;
    assert xb[1..] == b;
    if a != [] && a[0] == x {
      SubsequenceTail(a, b);
    }
  }

  /** Dropping the head of a subsequence keeps it a subsequence. */
  lemma {:induction false} SubsequenceTail<T>(a: seq<T>, b: seq<T>)
    requires a != [] && Subsequence(a, b)
    ensures Subsequence(a[1..], b)
    decreases |b|, 0
  {
    assert b == [b[0]] + b[1..];
    if a[0] == b[0] {
      SubsequenceSkip(a[1..], b[1..], b[0]);
    } else {
      SubsequenceTail(a, b[1..]);
      SubsequenceSkip(a[1..], b[1..], b[0]);
    }
  }

  /** A subsequence only holds elements of the longer sequence. */
  lemma {:induction false} SubsequenceMembers<T>(a: seq<T>, b: seq<T>)
    requires Subsequence(a, b)
    ensures |a| <= |b|
    ensures forall x | x in a :: x in b
    decreases |b|
  {
    if a != [] {
      if a[0] == b[0] {
        SubsequenceMembers(a[1..], b[1..]);
        assert a == [a[0]] + a[1..];
      } else {
        SubsequenceMembers(a, b[1..]);
      }
    }
  }

  /** `[x for x in xs if p(x)]` */
  function Filter<T>(xs: seq<T>, p: T -> bool): (r: seq<T>)
    ensures |r| <= |xs|
    ensures forall i | 0 <= i < |r| :: r[i] in xs && p(r[i])
    ensures forall i | 0 <= i < |xs| && p(xs[i]) :: xs[i] in r
    decreases |xs|
  {
    if xs == [] then []
    else if p(xs[0]) then [xs[0]] + Filter(xs[1..], p)
    else Filter(xs[1..], p)
  }

  /** Filtering one more element at the end extends the result by it, if
      it passes. */
  lemma {:induction false} FilterAppend<T>(xs: seq<T>, x: T, p: T -> bool)
    ensures Filter(xs + [x], p) == Filter(xs, p) + (if p(x) then [x] else [])
    decreases |xs|
  {
    if xs == [] {
      assert [] + [x] == [x];
    } else {
      FilterAppend(xs[1..], x, p);
      assert (xs + [x])[1..] == xs[1..] + [x];
    }
  }

  /** The filter keeps the survivors in their original order. */
  lemma {:induction false} FilterSubsequence<T>(xs: seq<T>, p: T -> bool)
    ensures Subsequence(Filter(xs, p), xs)
    decreases |xs|
  {
    if xs != [] {
      FilterSubsequence(xs[1..], p);
      if p(xs[0]) {
        assert Filter(xs, p)[1..] == Filter(xs[1..], p);
      } else {
        SubsequenceSkip(Filter(xs[1..], p), xs[1..], xs[0]);
        assert [xs[0]] + xs[1..] == xs;
      }
    }
  }

  /** Filtering is idempotent. */
  lemma {:induction false} FilterIdempotent<T>(xs: seq<T>, p: T -> bool)
    ensures Filter(Filter(xs, p), p) == Filter(xs, p)
    decreases |xs|
  {
    if xs != [] {
      FilterIdempotent(xs[1..], p);
      if p(xs[0]) {
        assert Filter(xs, p)[1..] == Filter(xs[1..], p);
      }
    }
  }

  /** A filter that rejects nothing returns its input. */
  lemma {:induction false} FilterKeepsAll<T>(xs: seq<T>, p: T -> bool)
    requires forall i | 0 <= i < |xs| :: p(xs[i])
    ensures Filter(xs, p) == xs
    decreases |xs|
  {
    if xs != [] {
      FilterKeepsAll(xs[1..], p);
      assert [xs[0]] + xs[1..] == xs;
    }
  }

  /** The elements of a filter are its input's, minus the rejected ones,
      counted with multiplicity. */
  lemma {:induction false} FilterCount<T>(xs: seq<T>, p: T -> bool)
    ensures |Filter(xs, p)| + |Filter(xs, x => !p(x))| == |xs|
    decreases |xs|
  {
    if xs != [] {
      FilterCount(xs[1..], p);
    }
  }

  /** A filter that accepts nothing returns nothing. */
  lemma {:induction false} FilterNone<T>(xs: seq<T>, p: T -> bool)
    requires forall i | 0 <= i < |xs| :: !p(xs[i])
    ensures Filter(xs, p) == []
    decreases |xs|
  {
    if xs != [] {
      FilterNone(xs[1..], p);
    }
  }

  /** Replacing one element changes the number of survivors by what the
      old and the new element contribute. */
  lemma {:induction false} FilterCountUpdate<T>(xs: seq<T>, k: nat, y: T, p: T -> bool)
    requires k < |xs|
    ensures |Filter(xs[k := y], p)| + (if p(xs[k]) then 1 else 0)
            == |Filter(xs, p)| + (if p(y) then 1 else 0)
    decreases |xs|
  {
    if k > 0 {
      FilterCountUpdate(xs[1..], k - 1, y, p);
      assert xs[k := y][1..] == xs[1..][k - 1 := y];
    } else {
      assert xs[k := y][1..] == xs[1..];
    }
  }

  /** Sequences on which `p` agrees position by position have as many
      survivors. */
  lemma {:induction false} FilterSameCount<T>(xs: seq<T>, ys: seq<T>, p: T -> bool)
    requires |xs| == |ys| && forall i | 0 <= i < |xs| :: p(xs[i]) == p(ys[i])
    ensures |Filter(xs, p)| == |Filter(ys, p)|
    decreases |xs|
  {
    if xs != [] {
      assert p(xs[0]) == p(ys[0]);
      FilterSameCount(xs[1..], ys[1..], p);
    }
  }

  /** Filtering first by a weaker predicate changes nothing. */
  lemma {:induction false} FilterNarrow<T>(xs: seq<T>, p: T -> bool, q: T -> bool)
    requires forall i | 0 <= i < |xs| :: p(xs[i]) ==> q(xs[i])
    ensures Filter(Filter(xs, q), p) == Filter(xs, p)
    decreases |xs|
  {
    if xs != [] {
      FilterNarrow(xs[1..], p, q);
      if q(xs[0]) {
        assert Filter(xs, q)[1..] == Filter(xs[1..], q);
      }
    }
  }

  /** `[x] * n` */
  function Repeat<T>(x: T, n: nat): (r: seq<T>)
    ensures |r| == n && forall i :: 0 <= i < n ==> r[i] == x
  {
    if n == 0 then [] else [x] + Repeat(x, n - 1)
  }

  /** The position of the first `x` in `xs`, |xs| when there is none. */
  function IndexOf<T(==)>(xs: seq<T>, x: T): (k: nat)
    ensures k <= |xs|
    ensures k < |xs| ==> xs[k] == x
    ensures forall j | 0 <= j < k :: xs[j] != x
    decreases |xs|
  {
    if xs == [] || xs[0] == x then 0
    else
      var k := IndexOf(xs[1..], x);
      assert forall j | 1 <= j < k + 1 :: xs[j] == xs[1..][j - 1];
      k + 1
  }

  /** No element occurs twice. */
  predicate Distinct<T(==)>(xs: seq<T>)
  {
    forall i, j | 0 <= i < j < |xs| :: xs[i] != xs[j]
  }

  /** Dropping the head of a sequence without repeats leaves one without
      repeats that no longer holds the head. */
  lemma DistinctTail<T>(xs: seq<T>)
    requires xs != [] && Distinct(xs)
    ensures Distinct(xs[1..]) && xs[0] !in xs[1..]
  {
    var tail := xs[1..];
    forall i, j | 0 <= i < j < |tail| ensures tail[i] != tail[j] {
      assert tail[i] == xs[i + 1] && tail[j] == xs[j + 1];
    }
    forall j | 0 <= j < |tail| ensures tail[j] != xs[0] {
      assert tail[j] == xs[j + 1];
    }
  }

  /** A second write to the same position overrides the first. */
  lemma UpdateTwice<T>(xs: seq<T>, k: nat, y: T, z: T)
    requires k < |xs|
    ensures xs[k := y][k := z] == xs[k := z]
  {
  }

  /** Every element is related by `R` to every later element. */
  predicate Pairwise<T>(xs: seq<T>, R: (T, T) -> bool)
  {
    forall i, j | 0 <= i < j < |xs| :: R(xs[i], xs[j])
  }

  /** A pairwise-related sequence is its head, related to everything after
      it, in front of a pairwise-related tail. */
  lemma PairwiseCons<T>(x: T, xs: seq<T>, R: (T, T) -> bool)
    ensures Pairwise([x] + xs, R) <==> (forall i | 0 <= i < |xs| :: R(x, xs[i])) && Pairwise(xs, R)
  {
    var ys := [x] + xs;
    if (forall i | 0 <= i < |xs| :: R(x, xs[i])) && Pairwise(xs, R) {
      forall i, j | 0 <= i < j < |ys| ensures R(ys[i], ys[j]) {
        if i > 0 {
          assert ys[i] == xs[i - 1] && ys[j] == xs[j - 1];
        } else {
          assert ys[j] == xs[j - 1];
        }
      }
    }
    if Pairwise(ys, R) {
      forall i | 0 <= i < |xs| ensures R(x, xs[i]) {
        assert ys[0] == x && ys[i + 1] == xs[i];
      }
      forall i, j | 0 <= i < j < |xs| ensures R(xs[i], xs[j]) {
        assert ys[i + 1] == xs[i] && ys[j + 1] == xs[j];
      }
    }
  }

  /** The head of a pairwise-related sequence is related to every element
      that occurs after it. */
  lemma PairwiseHead<T>(xs: seq<T>, R: (T, T) -> bool, y: T)
    requires xs != [] && Pairwise(xs, R) && y in xs[1..]
    ensures R(xs[0], y)
  {
    var j :| 0 <= j < |xs[1..]| && xs[1..][j] == y;
    assert xs[j + 1] == y;
  }

  /** Filtering keeps a sequence pairwise related. */
  lemma {:induction false} FilterPairwise<T>(xs: seq<T>, p: T -> bool, R: (T, T) -> bool)
    requires Pairwise(xs, R)
    ensures Pairwise(Filter(xs, p), R)
    decreases |xs|
  {
    if xs != [] {
      PairwiseCons(xs[0], xs[1..], R);
      assert [xs[0]] + xs[1..] == xs;
      var rest := Filter(xs[1..], p);
      FilterPairwise(xs[1..], p, R);
      if p(xs[0]) {
        forall i | 0 <= i < |rest| ensures R(xs[0], rest[i]) {
          PairwiseHead(xs, R, rest[i]);
        }
        PairwiseCons(xs[0], rest, R);
      }
    }
  }
}
