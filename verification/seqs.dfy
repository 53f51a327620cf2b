/**
 * The array operations the pages and stores are built from: `filter`, `slice(0, n)`
 * and `reduce`, together with the facts about them that the page rules rely on.
 */
module Seqs {
  import opened Maybe

  /** `Array.prototype.filter`: the elements that satisfy `p`, in their original order. */
  function Filter<T(==)>(s: seq<T>, p: T -> bool): (r: seq<T>)
    ensures |r| <= |s|
    ensures forall x :: x in r ==> x in s && p(x)
    ensures forall x :: x in s && p(x) ==> x in r
    ensures forall i :: 0 <= i < |r| ==> p(r[i])
  {
    if |s| == 0 then []
    else if p(s[0]) then [s[0]] + Filter(s[1..], p)
    else Filter(s[1..], p)
  }

  /** The positions of the elements that satisfy `p`: an independent count of what `Filter` keeps. */
  function IndicesWhere<T>(s: seq<T>, p: T -> bool): set<nat> {
    set i: nat | i < |s| && p(s[i])
  }

  /** `a` is `b` with some elements deleted: an order-preserving embedding of `a` into `b`. */
  predicate Embeds<T(==)>(a: seq<T>, b: seq<T>)
    decreases |b|
  {
    |a| == 0 || (|b| > 0 && ((a[0] == b[0] && Embeds(a[1..], b[1..])) || Embeds(a, b[1..])))
  }

  /** Every pair of elements, taken in list order, is related by `rel`. */
  predicate Pairwise<T>(s: seq<T>, rel: (T, T) -> bool) {
    forall i, j :: 0 <= i < j < |s| ==> rel(s[i], s[j])
  }

  /** `slice(0, n)`: the first `n` elements, or all of them when there are fewer. */
  function Take<T>(s: seq<T>, n: nat): (r: seq<T>)
    ensures |r| == if |s| < n then |s| else n
    ensures forall i :: 0 <= i < |r| ==> r[i] == s[i]
  {
    if |s| <= n then s else s[..n]
  }

  /** Reference sum of `f` over the elements of `s`. */
  function Sum<T>(s: seq<T>, f: T -> int): int {
    if |s| == 0 then 0 else f(s[0]) + Sum(s[1..], f)
  }

  /** `reduce((sum, x) => sum + f(x), acc)`: a left fold. */
  function SumFold<T>(s: seq<T>, f: T -> int, acc: int): int {
    if |s| == 0 then acc else SumFold(s[1..], f, acc + f(s[0]))
  }

  /** `reduce((sum, x) => (p(x) ? sum + f(x) : sum), acc)`: a left fold that skips elements. */
  function SumFoldWhere<T>(s: seq<T>, p: T -> bool, f: T -> int, acc: int): int {
    if |s| == 0 then acc
    else SumFoldWhere(s[1..], p, f, if p(s[0]) then acc + f(s[0]) else acc)
  }

  /** `Array.prototype.find`, as a position: the first element that satisfies `p`, if any does. */
  function FirstIndex<T>(s: seq<T>, p: T -> bool): (r: Option<nat>)
    ensures r.Some? ==> r.value < |s| && p(s[r.value])
    ensures r.Some? ==> forall j :: 0 <= j < r.value ==> !p(s[j])
    ensures r.None? ==> forall j :: 0 <= j < |s| ==> !p(s[j])
  {
    if |s| == 0 then None
    else if p(s[0]) then Some(0)
    else
      var rest := FirstIndex(s[1..], p);
      if rest.Some? then Some(rest.value + 1) else None
  }

  /** The first element of a non-empty list is one of its elements. */
  lemma HeadIsMember<T>(s: seq<T>)
    requires |s| > 0
    ensures s[0] in s
  {
  }

  /** Keys that rise from each element to the next rise between any two elements taken in list order. */
  lemma {:induction false} AscendingKeys<T>(s: seq<T>, key: T -> int)
    requires forall i :: 0 <= i < |s| - 1 ==> key(s[i]) < key(s[i + 1])
    ensures forall i, j :: 0 <= i < j < |s| ==> key(s[i]) < key(s[j])
  {
    forall i, j | 0 <= i < j < |s| ensures key(s[i]) < key(s[j]) {
      AscendingStep(s, key, i, j);
    }
  }

  /** One pair of `AscendingKeys`, by induction on the distance between the two positions. */
  lemma {:induction false} AscendingStep<T>(s: seq<T>, key: T -> int, i: nat, j: nat)
    requires forall k :: 0 <= k < |s| - 1 ==> key(s[k]) < key(s[k + 1])
    requires i < j < |s|
    ensures key(s[i]) < key(s[j])
    decreases j - i
  {
    if i + 1 < j {
      AscendingStep(s, key, i, j - 1);
    }
  }

  /** Every list embeds in itself. */
  lemma {:induction false} EmbedsSelf<T>(s: seq<T>)
    ensures Embeds(s, s)
    decreases |s|
  {
    if |s| > 0 {
      EmbedsSelf(s[1..]);
    }
  }

  /** A list holding two different elements has at least two elements. */
  lemma TwoMembers<T>(s: seq<T>, a: T, b: T)
    requires a in s && b in s && a != b
    ensures |s| >= 2
  {
  }

  /** Filtering keeps the survivors in their original relative order. */
  lemma {:induction false} FilterEmbeds<T>(s: seq<T>, p: T -> bool)
    ensures Embeds(Filter(s, p), s)
  {
    if |s| > 0 {
      FilterEmbeds(s[1..], p);
      if p(s[0]) {
        assert Filter(s, p)[1..] == Filter(s[1..], p);
      }
    }
  }

  /** Filtering keeps the whole length exactly when every element passes, and nothing exactly when none does. */
  lemma {:induction false} FilterLength<T>(s: seq<T>, p: T -> bool)
    ensures |Filter(s, p)| == |s| <==> forall i :: 0 <= i < |s| ==> p(s[i])
    ensures |Filter(s, p)| == 0 <==> forall i :: 0 <= i < |s| ==> !p(s[i])
  {
    if |s| > 0 {
      FilterLength(s[1..], p);
      assert forall i :: 1 <= i < |s| ==> s[i] == s[1..][i - 1];
    }
  }

  /** Filtering a concatenation filters each part. */
  lemma {:induction false} FilterAppend<T>(a: seq<T>, b: seq<T>, p: T -> bool)
    ensures Filter(a + b, p) == Filter(a, p) + Filter(b, p)
    decreases |a|
  {
    if |a| == 0 {
      assert a + b == b;
    } else {
      assert (a + b)[0] == a[0];
      assert (a + b)[1..] == a[1..] + b;
      FilterAppend(a[1..], b, p);
    }
  }

  /** Filtering keeps exactly one element per position that satisfies `p`. */
  lemma {:induction false} FilterCountsIndices<T>(s: seq<T>, p: T -> bool)
    ensures |Filter(s, p)| == |IndicesWhere(s, p)|
    decreases |s|
  {
    if |s| > 0 {
      var n := |s| - 1;
      FilterCountsIndices(s[..n], p);
      FilterLast(s, p);
      IndicesLast(s, p);
    }
  }

  /** Filtering a non-empty list filters all but its last element, then keeps the last one if it passes. */
  lemma FilterLast<T>(s: seq<T>, p: T -> bool)
    requires |s| > 0
    ensures |Filter(s, p)| == |Filter(s[..|s| - 1], p)| + (if p(s[|s| - 1]) then 1 else 0)
  {
    var n := |s| - 1;
    assert s == s[..n] + [s[n]];
    FilterAppend(s[..n], [s[n]], p);
    assert [s[n]][1..] == [];
  }

  /** The passing positions of a non-empty list are those of all but its last element, plus the last one if it passes. */
  lemma IndicesLast<T>(s: seq<T>, p: T -> bool)
    requires |s| > 0
    ensures |IndicesWhere(s, p)| == |IndicesWhere(s[..|s| - 1], p)| + (if p(s[|s| - 1]) then 1 else 0)
  {
    var n := |s| - 1;
    var before, now := IndicesWhere(s[..n], p), IndicesWhere(s, p);
    forall i: nat ensures i in now <==> i in before || (i == n && p(s[n])) {
      if i < n {
        assert s[i] == s[..n][i];
      }
    }
    assert n !in before;
    if p(s[n]) {
      assert now == before + {n};
    } else {
      assert now == before;
    }
  }

  /** Filtering a list in which every element passes changes nothing. */
  lemma {:induction false} FilterKeepsAll<T>(s: seq<T>, p: T -> bool)
    requires forall i :: 0 <= i < |s| ==> p(s[i])
    ensures Filter(s, p) == s
  {
    if |s| > 0 {
      FilterKeepsAll(s[1..], p);
      assert [s[0]] + s[1..] == s;
    }
  }

  /** A stricter condition keeps a sub-list, in order, of what a weaker one keeps. */
  lemma {:induction false} FilterMonotone<T>(s: seq<T>, p: T -> bool, q: T -> bool)
    requires forall i :: 0 <= i < |s| && p(s[i]) ==> q(s[i])
    ensures Embeds(Filter(s, p), Filter(s, q))
  {
    if |s| > 0 {
      FilterMonotone(s[1..], p, q);
      var fp, fq := Filter(s[1..], p), Filter(s[1..], q);
      if p(s[0]) {
        assert ([s[0]] + fp)[1..] == fp && ([s[0]] + fq)[1..] == fq;
      } else if q(s[0]) {
        assert ([s[0]] + fq)[1..] == fq;
      }
    }
  }

  /** A relation that holds pairwise in a list still holds pairwise after filtering. */
  lemma {:induction false} FilterKeepsPairwise<T>(s: seq<T>, p: T -> bool, rel: (T, T) -> bool)
    requires Pairwise(s, rel)
    ensures Pairwise(Filter(s, p), rel)
  {
    if |s| > 0 {
      assert Pairwise(s[1..], rel) by {
        forall i, j | 0 <= i < j < |s[1..]| ensures rel(s[1..][i], s[1..][j]) {
          assert s[1..][i] == s[i + 1] && s[1..][j] == s[j + 1];
        }
      }
      FilterKeepsPairwise(s[1..], p, rel);
      var t := Filter(s[1..], p);
      if p(s[0]) {
        forall k | 0 <= k < |t| ensures rel(s[0], t[k]) {
          assert t[k] in s[1..];
          var m :| 0 <= m < |s[1..]| && s[1..][m] == t[k];
          assert s[m + 1] == t[k];
        }
        var r := Filter(s, p);
        assert r == [s[0]] + t;
        forall i, j | 0 <= i < j < |r| ensures rel(r[i], r[j]) {
          if i == 0 {
            assert r[j] == t[j - 1];
          } else {
            assert r[i] == t[i - 1] && r[j] == t[j - 1];
          }
        }
      }
    }
  }

  /** Folding `+ f(x)` from the left adds up the same total as the reference sum. */
  lemma {:induction false} SumFoldIsSum<T>(s: seq<T>, f: T -> int, acc: int)
    ensures SumFold(s, f, acc) == acc + Sum(s, f)
  {
    if |s| > 0 {
      SumFoldIsSum(s[1..], f, acc + f(s[0]));
    }
  }

  /** Folding with a skip condition is the same as filtering first and summing what is left. */
  lemma {:induction false} SumFoldWhereIsFilteredSum<T>(s: seq<T>, p: T -> bool, f: T -> int, acc: int)
    ensures SumFoldWhere(s, p, f, acc) == acc + Sum(Filter(s, p), f)
  {
    if |s| > 0 {
      SumFoldWhereIsFilteredSum(s[1..], p, f, if p(s[0]) then acc + f(s[0]) else acc);
      if p(s[0]) {
        assert Filter(s, p) == [s[0]] + Filter(s[1..], p);
        assert ([s[0]] + Filter(s[1..], p))[1..] == Filter(s[1..], p);
      }
    }
  }

  /** With non-negative terms, the sum over a filtered list never exceeds the sum over the whole list. */
  lemma {:induction false} FilteredSumBounded<T>(s: seq<T>, p: T -> bool, f: T -> int)
    requires forall i :: 0 <= i < |s| ==> f(s[i]) >= 0
    ensures 0 <= Sum(Filter(s, p), f) <= Sum(s, f)
  {
    if |s| > 0 {
      FilteredSumBounded(s[1..], p, f);
      if p(s[0]) {
        assert ([s[0]] + Filter(s[1..], p))[1..] == Filter(s[1..], p);
      }
    }
  }
}
