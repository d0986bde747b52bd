/**
 * The private sorting helpers of the pooling layer (pooling.h:90-91): a partition and a
 * quicksort over the inclusive index range [lo, hi] of an array, in ascending or
 * descending order as a flag chooses. The header declares them without bodies; the model
 * partitions Lomuto-style around a[hi]. The helpers take an array of pointers to the
 * window's values, and the model sorts the values themselves. A functional insertion
 * sort gives the reference order the median reduction reads from.
 */
module PoolingSort {

  /** `x` may stand before `y` in ascending (`desc` false) or descending order. */
  predicate Before(desc: bool, x: real, y: real)
  {
    if desc then x >= y else x <= y
  }

  ghost predicate Sorted(desc: bool, s: seq<real>)
  {
    forall i, j :: 0 <= i < j < |s| ==> Before(desc, s[i], s[j])
  }

  /** Every value of `s` may stand before `pivot`. */
  ghost predicate AllBefore(desc: bool, s: seq<real>, pivot: real)
  {
    forall x :: x in s ==> Before(desc, x, pivot)
  }

  /** `pivot` may stand before every value of `s`. */
  ghost predicate AllAfter(desc: bool, s: seq<real>, pivot: real)
  {
    forall x :: x in s ==> Before(desc, pivot, x)
  }

  /** Bounds on a range carry over to any rearrangement of it. */
  lemma BoundsSurvivePermutation(desc: bool, s: seq<real>, t: seq<real>, pivot: real)
    requires multiset(s) == multiset(t)
    ensures AllBefore(desc, s, pivot) ==> AllBefore(desc, t, pivot)
    ensures AllAfter(desc, s, pivot) ==> AllAfter(desc, t, pivot)
  {
    forall x | x in t ensures x in s {
      assert x in multiset(t);
    }
  }

  /** Two sorted runs separated by a pivot that bounds both form one sorted run. */
  lemma {:induction false} SortedAroundPivot(desc: bool, l: seq<real>, pivot: real, r: seq<real>)
    requires Sorted(desc, l) && Sorted(desc, r)
    requires AllBefore(desc, l, pivot) && AllAfter(desc, r, pivot)
    ensures Sorted(desc, l + [pivot] + r)
  {
    var s := l + [pivot] + r;
    forall i, j | 0 <= i < j < |s| ensures Before(desc, s[i], s[j]) {
      if j < |l| {
        assert s[i] == l[i] && s[j] == l[j];
      } else if i > |l| {
        assert s[i] == r[i - |l| - 1] && s[j] == r[j - |l| - 1];
      } else {
        if i < |l| {
          assert s[i] == l[i] && s[i] in l;
        }
        if j > |l| {
          assert s[j] == r[j - |l| - 1] && s[j] in r;
        }
      }
    }
  }

  /**
   * Exchanges a[i] and a[j], both inside [lo, hi]: the range keeps its multiset of values
   * and nothing outside it moves.
   */
  method Swap(a: array<real>, i: nat, j: nat, ghost lo: nat, ghost hi: nat)
    requires lo <= i <= hi && lo <= j <= hi && hi < a.Length
    modifies a
    ensures a[..] == old(a[..])[i := old(a[j])][j := old(a[i])]
    ensures multiset(a[lo..hi + 1]) == old(multiset(a[lo..hi + 1]))
    ensures a[..lo] == old(a[..lo]) && a[hi + 1..] == old(a[hi + 1..])
  {
    ghost var before := a[lo..hi + 1];
    a[i], a[j] := a[j], a[i];
    assert a[lo..hi + 1] == before[i - lo := old(a[j])][j - lo := old(a[i])];
  }

  /**
   * pooling_partition: takes a[hi] as the pivot, moves it to the index p it returns, and
   * leaves before p only values that may precede it and after p only values it may precede.
   */
  method Partition(desc: bool, a: array<real>, lo: nat, hi: nat) returns (p: nat)
    requires lo <= hi < a.Length
    modifies a
    ensures lo <= p <= hi
    ensures AllBefore(desc, a[lo..p], a[p]) && AllAfter(desc, a[p + 1..hi + 1], a[p])
    ensures multiset(a[lo..hi + 1]) == old(multiset(a[lo..hi + 1]))
    ensures forall k :: 0 <= k < a.Length && (k < lo || hi < k) ==> a[k] == old(a[k])
  {
    ghost var s0 := a[..];
    var i := Sweep(desc, a, lo, hi);
    ghost var s1 := a[..];
    Swap(a, i, hi, lo, hi);
    p := i;
    SweptPlacesPivot(desc, s1, a[..], lo, p, hi);
    RangeBounds(desc, a[..], lo, p, hi);
    OutsideUnchanged(s0, a[..], lo, hi);
  }

  /**
   * The sweep of pooling_partition before the pivot is placed: returns the boundary i such
   * that [lo, i) holds values that may precede the pivot a[hi] and [i, hi) values it may precede.
   */
  method Sweep(desc: bool, a: array<real>, lo: nat, hi: nat) returns (i: nat)
    requires lo <= hi < a.Length
    modifies a
    ensures lo <= i <= hi && Swept(desc, a[..], lo, i, hi, hi)
    ensures multiset(a[lo..hi + 1]) == old(multiset(a[lo..hi + 1]))
    ensures a[..lo] == old(a[..lo]) && a[hi + 1..] == old(a[hi + 1..])
  {
    var j := lo;
    i := lo;
    while j < hi
      invariant lo <= i <= j <= hi && Swept(desc, a[..], lo, i, j, hi)
      invariant multiset(a[lo..hi + 1]) == old(multiset(a[lo..hi + 1]))
      invariant a[..lo] == old(a[..lo]) && a[hi + 1..] == old(a[hi + 1..])
    {
      if Before(desc, a[j], a[hi]) {
        ghost var s := a[..];
        Swap(a, i, j, lo, hi);
        PartitionStep(desc, s, a[..], lo, i, j, hi);
        i := i + 1;
      } else {
        assert a[..][j] == a[j];
      }
      j := j + 1;
    }
  }

  /**
   * The state of the sweep over snapshot s with pivot s[hi]: [lo, i) holds values that may
   * precede the pivot, [i, j) values the pivot may precede.
   */
  ghost predicate Swept(desc: bool, s: seq<real>, lo: nat, i: nat, j: nat, hi: nat)
    requires lo <= i <= j <= hi < |s|
  {
    (forall k :: lo <= k < i ==> Before(desc, s[k], s[hi])) &&
    (forall k :: i <= k < j ==> Before(desc, s[hi], s[k]))
  }

  /**
   * One step of the sweep on snapshots: swapping the value at j, which may precede the
   * pivot, to position i extends both runs by one.
   */
  lemma PartitionStep(desc: bool, s: seq<real>, t: seq<real>, lo: nat, i: nat, j: nat, hi: nat)
    requires lo <= i <= j < hi < |s| && t == s[i := s[j]][j := s[i]]
    requires Swept(desc, s, lo, i, j, hi) && Before(desc, s[j], s[hi])
    ensures Swept(desc, t, lo, i + 1, j + 1, hi)
  {
  }

  /** Swapping the pivot s[hi] to the sweep's boundary p leaves it bounded on both sides. */
  lemma SweptPlacesPivot(desc: bool, s: seq<real>, t: seq<real>, lo: nat, p: nat, hi: nat)
    requires lo <= p <= hi < |s| && Swept(desc, s, lo, p, hi, hi)
    requires t == s[p := s[hi]][hi := s[p]]
    ensures forall k :: lo <= k < p ==> Before(desc, t[k], t[p])
    ensures forall k :: p < k <= hi ==> Before(desc, t[p], t[k])
  {
  }

  /** Equal prefixes before lo and equal suffixes after hi, read entry by entry. */
  lemma OutsideUnchanged(s: seq<real>, t: seq<real>, lo: nat, hi: nat)
    requires lo <= hi < |s| == |t| && t[..lo] == s[..lo] && t[hi + 1..] == s[hi + 1..]
    ensures forall k :: 0 <= k < |t| && (k < lo || hi < k) ==> t[k] == s[k]
  {
    forall k | 0 <= k < |t| && (k < lo || hi < k) ensures t[k] == s[k] {
      if k < lo {
        assert t[k] == t[..lo][k];
      } else {
        assert t[k] == t[hi + 1..][k - hi - 1];
      }
    }
  }

  /** Pointwise bounds around index p, restated over the slices on either side of it. */
  lemma RangeBounds(desc: bool, s: seq<real>, lo: nat, p: nat, hi: nat)
    requires lo <= p <= hi < |s|
    requires forall k :: lo <= k < p ==> Before(desc, s[k], s[p])
    requires forall k :: p < k <= hi ==> Before(desc, s[p], s[k])
    ensures AllBefore(desc, s[lo..p], s[p]) && AllAfter(desc, s[p + 1..hi + 1], s[p])
  {
    SliceBefore(desc, s, lo, p, s[p]);
    SliceAfter(desc, s, p + 1, hi + 1, s[p]);
  }

  /** A pointwise bound over [lo, hi) holds for every value of the slice s[lo..hi]. */
  lemma SliceBefore(desc: bool, s: seq<real>, lo: nat, hi: nat, pivot: real)
    requires lo <= hi <= |s|
    requires forall k :: lo <= k < hi ==> Before(desc, s[k], pivot)
    ensures AllBefore(desc, s[lo..hi], pivot)
  {
    forall x | x in s[lo..hi] ensures Before(desc, x, pivot) {
      var k :| 0 <= k < hi - lo && s[lo..hi][k] == x;
      assert s[lo + k] == x;
    }
  }

  /** The mirror of SliceBefore for values the pivot may precede. */
  lemma SliceAfter(desc: bool, s: seq<real>, lo: nat, hi: nat, pivot: real)
    requires lo <= hi <= |s|
    requires forall k :: lo <= k < hi ==> Before(desc, pivot, s[k])
    ensures AllAfter(desc, s[lo..hi], pivot)
  {
    forall x | x in s[lo..hi] ensures Before(desc, pivot, x) {
      var k :| 0 <= k < hi - lo && s[lo..hi][k] == x;
      assert s[lo + k] == x;
    }
  }

  /** An inclusive range [lo, hi] is its part before p, the entry at p, and its part after p. */
  lemma SplitAt(s: seq<real>, lo: nat, p: nat, hi: nat)
    requires lo <= p <= hi < |s|
    ensures s[lo..hi + 1] == s[lo..p] + [s[p]] + s[p + 1..hi + 1]
  {
  }

  /**
   * The step that closes quicksort: `s0` is the partitioned array, `s1` the array after
   * the left part was sorted, `s2` the array after the right part was sorted.
   */
  lemma {:induction false} QuicksortStep(desc: bool, s0: seq<real>, s1: seq<real>, s2: seq<real>,
                                         lo: nat, p: nat, hi: nat)
    requires lo <= p <= hi < |s0| == |s1| == |s2|
    requires AllBefore(desc, s0[lo..p], s0[p]) && AllAfter(desc, s0[p + 1..hi + 1], s0[p])
    requires Sorted(desc, s1[lo..p]) && multiset(s1[lo..p]) == multiset(s0[lo..p])
    requires forall k :: 0 <= k < |s0| && (k < lo || p <= k) ==> s1[k] == s0[k]
    requires Sorted(desc, s2[p + 1..hi + 1]) && multiset(s2[p + 1..hi + 1]) == multiset(s1[p + 1..hi + 1])
    requires forall k :: 0 <= k < |s0| && (k <= p || hi < k) ==> s2[k] == s1[k]
    ensures Sorted(desc, s2[lo..hi + 1])
    ensures multiset(s2[lo..hi + 1]) == multiset(s0[lo..hi + 1])
  {
    var pivot := s0[p];
    assert s2[lo..p] == s1[lo..p];
    assert s1[p + 1..hi + 1] == s0[p + 1..hi + 1];
    assert s2[p] == pivot;
    BoundsSurvivePermutation(desc, s0[lo..p], s2[lo..p], pivot);
    BoundsSurvivePermutation(desc, s0[p + 1..hi + 1], s2[p + 1..hi + 1], pivot);
    SplitAt(s0, lo, p, hi);
    SplitAt(s2, lo, p, hi);
    SortedAroundPivot(desc, s2[lo..p], pivot, s2[p + 1..hi + 1]);
  }

  /**
   * pooling_quicksort: orders a[lo..hi] (inclusive) in the direction `desc` chooses,
   * rearranging only the values already in that range.
   */
  method Quicksort(desc: bool, a: array<real>, lo: nat, hi: nat)
    requires lo <= hi + 1 && hi < a.Length
    modifies a
    ensures Sorted(desc, a[lo..hi + 1])
    ensures multiset(a[lo..hi + 1]) == old(multiset(a[lo..hi + 1]))
    ensures forall k :: 0 <= k < a.Length && (k < lo || hi < k) ==> a[k] == old(a[k])
    decreases hi + 1 - lo
  {
    if lo < hi {
      var p := Partition(desc, a, lo, hi);
      ghost var s0 := a[..];
      if lo < p {
        Quicksort(desc, a, lo, p - 1);
        assert a[lo..p] == a[lo..p - 1 + 1];
      }
      ghost var s1 := a[..];
      if p < hi {
        Quicksort(desc, a, p + 1, hi);
      }
      QuicksortStep(desc, s0, s1, a[..], lo, p, hi);
      assert a[..][lo..hi + 1] == a[lo..hi + 1];
    } else {
      assert |a[lo..hi + 1]| <= 1;
    }
  }

  /** Inserts `x` into an ascending sequence, before the first value larger than it. */
  function Insert(x: real, s: seq<real>): (r: seq<real>)
    ensures |r| == |s| + 1 && multiset(r) == multiset(s) + multiset{x}
    ensures Sorted(false, s) ==> Sorted(false, r)
  {
    if s == [] then [x]
    else if x <= s[0] then
      InsertFront(x, s);
      [x] + s
    else
      var rest := Insert(x, s[1..]);
      InsertBehind(x, s, rest);
      [s[0]] + rest
  }

  /** A value no larger than the head of an ascending sequence may go in front of it. */
  lemma InsertFront(x: real, s: seq<real>)
    requires s != [] && x <= s[0]
    ensures Sorted(false, s) ==> Sorted(false, [x] + s)
  {
    if Sorted(false, s) {
      assert AllAfter(false, s, x) by {
        forall y | y in s ensures x <= y {
          var k :| 0 <= k < |s| && s[k] == y;
          assert k == 0 || s[0] <= s[k];
        }
      }
      SortedAroundPivot(false, [], x, s);
      assert [] + [x] + s == [x] + s;
    }
  }

  /**
   * A value larger than the head of `s` goes behind it: if `rest` is the tail of `s` with
   * `x` inserted, the head followed by `rest` is `s` with `x` inserted.
   */
  lemma InsertBehind(x: real, s: seq<real>, rest: seq<real>)
    requires s != [] && s[0] < x
    requires multiset(rest) == multiset(s[1..]) + multiset{x}
    requires Sorted(false, s[1..]) ==> Sorted(false, rest)
    ensures multiset([s[0]] + rest) == multiset(s) + multiset{x}
    ensures Sorted(false, s) ==> Sorted(false, [s[0]] + rest)
  {
    assert s == [s[0]] + s[1..];
    if Sorted(false, s) {
      assert Sorted(false, s[1..]) by {
        forall i, j | 0 <= i < j < |s| - 1 ensures s[1..][i] <= s[1..][j] {
          assert s[1..][i] == s[i + 1] && s[1..][j] == s[j + 1];
        }
      }
      assert AllAfter(false, rest, s[0]) by {
        forall y | y in rest ensures s[0] <= y {
          assert y in multiset(rest);
          if y != x {
            var k :| 0 <= k < |s[1..]| && s[1..][k] == y;
            assert s[k + 1] == y;
          }
        }
      }
      SortedAroundPivot(false, [], s[0], rest);
      assert [] + [s[0]] + rest == [s[0]] + rest;
    }
  }

  /** The reference ascending order of a window: insertion sort. */
  function SortAscending(s: seq<real>): (r: seq<real>)
    ensures |r| == |s| && Sorted(false, r) && multiset(r) == multiset(s)
  {
    if s == [] then []
    else
      assert s == [s[0]] + s[1..];
      Insert(s[0], SortAscending(s[1..]))
  }

  /** Two sorted arrangements of the same non-empty multiset start with the same value. */
  lemma SortedHeadsAgree(desc: bool, s: seq<real>, t: seq<real>)
    requires Sorted(desc, s) && Sorted(desc, t) && multiset(s) == multiset(t) && s != []
    ensures t != [] && s[0] == t[0]
  {
    assert s[0] in multiset(t);
    var i :| 0 <= i < |t| && t[i] == s[0];
    assert t[0] in multiset(s);
    var j :| 0 <= j < |s| && s[j] == t[0];
    assert Before(desc, t[0], t[i]) || i == 0;
    assert Before(desc, s[0], s[j]) || j == 0;
  }

  /** Taking the same head off two equal multisets leaves equal multisets. */
  lemma TailsAgree(s: seq<real>, t: seq<real>)
    requires multiset(s) == multiset(t) && s != [] && t != [] && s[0] == t[0]
    ensures multiset(s[1..]) == multiset(t[1..])
  {
    assert s == [s[0]] + s[1..] && t == [t[0]] + t[1..];
    assert multiset(s[1..]) == multiset(s) - multiset{s[0]};
    assert multiset(t[1..]) == multiset(t) - multiset{t[0]};
  }

  /** Two sorted arrangements of the same values are the same sequence. */
  lemma {:induction false} SortedIsUnique(desc: bool, s: seq<real>, t: seq<real>)
    requires Sorted(desc, s) && Sorted(desc, t) && multiset(s) == multiset(t)
    ensures s == t
  {
    if s == [] {
      assert |multiset(t)| == 0;
    } else {
      SortedHeadsAgree(desc, s, t);
      TailsAgree(s, t);
      assert Sorted(desc, s[1..]) by {
        forall i, j | 0 <= i < j < |s| - 1 ensures Before(desc, s[1..][i], s[1..][j]) {
          assert s[1..][i] == s[i + 1] && s[1..][j] == s[j + 1];
        }
      }
      assert Sorted(desc, t[1..]) by {
        forall i, j | 0 <= i < j < |t| - 1 ensures Before(desc, t[1..][i], t[1..][j]) {
          assert t[1..][i] == t[i + 1] && t[1..][j] == t[j + 1];
        }
      }
      SortedIsUnique(desc, s[1..], t[1..]);
      assert s == [s[0]] + s[1..] && t == [t[0]] + t[1..];
    }
  }

  /**
   * The median of a non-empty window: the value at rank floor(n/2) (counting from 0) of
   * its ascending order, for odd and even sizes alike.
   */
  function Median(s: seq<real>): (m: real)
    requires |s| > 0
    ensures m in s
  {
    var sorted := SortAscending(s);
    assert sorted[|s| / 2] in multiset(s);
    sorted[|s| / 2]
  }

  /** The median is the value at rank floor(n/2) of any ascending arrangement of the window. */
  lemma MedianOfArrangement(s: seq<real>, t: seq<real>)
    requires |s| > 0 && Sorted(false, t) && multiset(t) == multiset(s)
    ensures |t| == |s| && Median(s) == t[|s| / 2]
  {
    assert |t| == |multiset(t)| == |multiset(s)| == |s|;
    SortedIsUnique(false, SortAscending(s), t);
  }

  /**
   * A three-value window holding a <= b <= c, in any order, has median b: the middle
   * value, whichever position it occupies.
   */
  lemma MedianOfThree(s: seq<real>, a: real, b: real, c: real)
    requires |s| == 3 && multiset(s) == multiset{a, b, c} && a <= b <= c
    ensures Median(s) == b
  {
    var t := [a, b, c];
    assert multiset(t) == multiset{a, b, c} by {
      assert t == [a] + [b] + [c];
    }
    MedianOfArrangement(s, t);
  }

  /**
   * An ascending four-value window ({1, 2, 3, 4} for instance) has median s[2], its rank-2
   * value, not the average of s[1] and s[2].
   */
  lemma MedianOfFour(s: seq<real>)
    requires |s| == 4 && Sorted(false, s)
    ensures Median(s) == s[2]
  {
    MedianOfArrangement(s, s);
  }
}
