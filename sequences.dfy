/**
 * The two array operations the core relies on, `Array.prototype.filter` and
 * `Array.prototype.find`, with characterisations that pin down their results.
 */
module Sequences {
  import opened Wrappers

  /** `s.filter(p)`: the elements of `s` that satisfy `p`, in their original order. */
  function Filter<T>(p: T -> bool, s: seq<T>): (r: seq<T>)
    ensures |r| <= |s|
    ensures forall k :: 0 <= k < |r| ==> r[k] in s && p(r[k])
    ensures forall k :: 0 <= k < |s| && p(s[k]) ==> s[k] in r
  {
    if s == [] then []
    else
      var last := s[|s| - 1];
      assert s == s[..|s| - 1] + [last];
      var init := Filter(p, s[..|s| - 1]);
      if p(last) then init + [last] else init
  }

  /** The positions of `s` whose element satisfies `p`, in increasing order. */
  function KeptIndices<T>(p: T -> bool, s: seq<T>): seq<nat>
  {
    if s == [] then []
    else KeptIndices(p, s[..|s| - 1]) + (if p(s[|s| - 1]) then [|s| - 1] else [])
  }

  ghost predicate StrictlyIncreasing(idx: seq<nat>)
  {
    forall k, l :: 0 <= k < l < |idx| ==> idx[k] < idx[l]
  }

  /** `r` is the subsequence of `s` taken at the strictly increasing positions `idx`. */
  ghost predicate IsSelection<T>(r: seq<T>, s: seq<T>, idx: seq<nat>)
  {
    && |idx| == |r|
    && StrictlyIncreasing(idx)
    && forall k :: 0 <= k < |idx| ==> idx[k] < |s| && r[k] == s[idx[k]]
  }

  /** The kept positions are in range, increasing, and are exactly those whose element satisfies `p`. */
  lemma {:induction false} KeptIndicesExact<T>(p: T -> bool, s: seq<T>)
    ensures |KeptIndices(p, s)| == |Filter(p, s)|
    ensures StrictlyIncreasing(KeptIndices(p, s))
    ensures forall k :: 0 <= k < |KeptIndices(p, s)| ==> KeptIndices(p, s)[k] < |s|
    ensures forall j :: 0 <= j < |s| ==> (j in KeptIndices(p, s) <==> p(s[j]))
  {
    if s != [] {
      var n := |s| - 1;
      KeptIndicesExact(p, s[..n]);
      var idx0 := KeptIndices(p, s[..n]);
      assert n !in idx0;
      forall j | 0 <= j < n
        ensures s[j] == s[..n][j]
      {
      }
    }
  }

  /** Each element of `Filter(p, s)` is the element of `s` at the matching kept position. */
  lemma {:induction false} FilterAtKeptIndices<T>(p: T -> bool, s: seq<T>)
    ensures |KeptIndices(p, s)| == |Filter(p, s)|
    ensures forall k :: 0 <= k < |Filter(p, s)| ==>
              KeptIndices(p, s)[k] < |s| && Filter(p, s)[k] == s[KeptIndices(p, s)[k]]
  {
    KeptIndicesExact(p, s);
    if s != [] {
      var n := |s| - 1;
      FilterAtKeptIndices(p, s[..n]);
      var idx0, r0 := KeptIndices(p, s[..n]), Filter(p, s[..n]);
      KeptIndicesExact(p, s[..n]);
      forall k | 0 <= k < |r0|
        ensures Filter(p, s)[k] == s[KeptIndices(p, s)[k]]
      {
        assert KeptIndices(p, s)[k] == idx0[k];
        assert Filter(p, s)[k] == r0[k];
      }
    }
  }

  /**
   * `Filter(p, s)` is exactly the subsequence of `s` at the positions whose
   * element satisfies `p`: nothing is reordered, dropped or duplicated.
   */
  lemma FilterSelectsKeptIndices<T>(p: T -> bool, s: seq<T>)
    ensures IsSelection(Filter(p, s), s, KeptIndices(p, s))
    ensures forall j :: 0 <= j < |s| ==> (j in KeptIndices(p, s) <==> p(s[j]))
  {
    KeptIndicesExact(p, s);
    FilterAtKeptIndices(p, s);
  }

  /** Filtering one more element of a prefix. */
  lemma FilterPrefixStep<T>(p: T -> bool, s: seq<T>, j: nat)
    requires j < |s|
    ensures Filter(p, s[..j + 1]) == Filter(p, s[..j]) + (if p(s[j]) then [s[j]] else [])
  {
    assert s[..j + 1][..j] == s[..j];
  }

  /**
   * One step of filtering in place: with the first `visited` elements of `s`
   * already filtered into the front of `cur`, the next element is at position
   * `i`; keeping it advances `i`, dropping it removes it.
   */
  lemma FilterInPlaceStep<T>(p: T -> bool, s: seq<T>, visited: nat, cur: seq<T>, i: nat)
    requires visited < |s|
    requires i == |Filter(p, s[..visited])|
    requires cur == Filter(p, s[..visited]) + s[visited..]
    ensures i < |cur| && cur[i] == s[visited]
    ensures p(cur[i]) ==> i + 1 == |Filter(p, s[..visited + 1])|
                          && cur == Filter(p, s[..visited + 1]) + s[visited + 1..]
    ensures !p(cur[i]) ==> i == |Filter(p, s[..visited + 1])|
                           && cur[..i] + cur[i + 1..] == Filter(p, s[..visited + 1]) + s[visited + 1..]
  {
    var done := Filter(p, s[..visited]);
    FilterPrefixStep(p, s, visited);
    assert s[visited..] == [s[visited]] + s[visited + 1..];
    if p(s[visited]) {
      assert cur == (done + [s[visited]]) + s[visited + 1..];
    } else {
      assert cur[..i] == done;
      assert cur[i + 1..] == s[visited + 1..];
    }
  }

  /** Filtering a concatenation filters each part. */
  lemma {:induction false} FilterAppend<T>(p: T -> bool, a: seq<T>, b: seq<T>)
    ensures Filter(p, a + b) == Filter(p, a) + Filter(p, b)
  {
    if b == [] {
      assert a + b == a;
    } else {
      var n := |b| - 1;
      FilterAppend(p, a, b[..n]);
      assert (a + b)[..|a + b| - 1] == a + b[..n];
      assert (a + b)[|a + b| - 1] == b[n];
    }
  }

  /** A sequence whose every element satisfies `p` is left as it is. */
  lemma {:induction false} FilterAllKept<T>(p: T -> bool, s: seq<T>)
    requires forall k :: 0 <= k < |s| ==> p(s[k])
    ensures Filter(p, s) == s
  {
    if s != [] {
      FilterAllKept(p, s[..|s| - 1]);
    }
  }

  /** A sequence none of whose elements satisfies `p` filters to nothing. */
  lemma {:induction false} FilterNoneKept<T>(p: T -> bool, s: seq<T>)
    requires forall k :: 0 <= k < |s| ==> !p(s[k])
    ensures Filter(p, s) == []
  {
    if s != [] {
      FilterNoneKept(p, s[..|s| - 1]);
    }
  }

  /** Filtering twice with the same predicate is filtering once. */
  lemma FilterIdempotent<T>(p: T -> bool, s: seq<T>)
    ensures Filter(p, Filter(p, s)) == Filter(p, s)
  {
    FilterAllKept(p, Filter(p, s));
  }

  /** The position that `s.findIndex(p)` reports, or `None` for -1. */
  function FindIndex<T>(p: T -> bool, s: seq<T>): (r: Option<nat>)
    ensures r.Some? ==> r.value < |s| && p(s[r.value])
    ensures r.Some? ==> forall j :: 0 <= j < r.value ==> !p(s[j])
    ensures r.None? ==> forall j :: 0 <= j < |s| ==> !p(s[j])
  {
    if s == [] then None
    else if p(s[0]) then Some(0)
    else match FindIndex(p, s[1..])
      case None => None
      case Some(k) => Some(k + 1)
  }

  /** `s.find(p)`: the first element that satisfies `p`, or `None` (`undefined`). */
  function Find<T>(p: T -> bool, s: seq<T>): (r: Option<T>)
    ensures r.None? <==> forall j :: 0 <= j < |s| ==> !p(s[j])
    ensures r.Some? ==> exists k :: 0 <= k < |s| && s[k] == r.value && p(s[k])
                                    && forall j :: 0 <= j < k ==> !p(s[j])
  {
    match FindIndex(p, s)
    case None => None
    case Some(k) => Some(s[k])
  }
}
