/**
 * `Array.prototype.filter` on sequences, and what it promises: the result
 * keeps exactly the elements that pass the test, in their original order.
 */
module Seqs {

  /** `s.filter(keep)`. */
  function Filter<T(!new)>(s: seq<T>, keep: T -> bool): (r: seq<T>)
    ensures |r| <= |s|
    ensures forall x :: x in r <==> x in s && keep(x)
  {
    if s == [] then []
    else if keep(s[0]) then [s[0]] + Filter(s[1..], keep)
    else Filter(s[1..], keep)
  }

  /** Adds one to every index (the indices of `s[1..]` seen from `s`). */
  function Shift(idx: seq<nat>): (r: seq<nat>)
    ensures |r| == |idx|
    ensures forall k :: 0 <= k < |idx| ==> r[k] == idx[k] + 1
  {
    seq(|idx|, k requires 0 <= k < |idx| => idx[k] + 1)
  }

  /** The positions of `s` whose element passes `keep`, in increasing order. */
  function KeptIndices<T(!new)>(s: seq<T>, keep: T -> bool): seq<nat>
  {
    if s == [] then []
    else if keep(s[0]) then [0] + Shift(KeptIndices(s[1..], keep))
    else Shift(KeptIndices(s[1..], keep))
  }

  /**
   * `r` is the subsequence of `s` taken at the strictly increasing
   * positions `idx`.
   */
  ghost predicate Selects<T>(s: seq<T>, idx: seq<nat>, r: seq<T>) {
    && |idx| == |r|
    && (forall k :: 0 <= k < |idx| ==> idx[k] < |s| && s[idx[k]] == r[k])
    && (forall k, l :: 0 <= k < l < |idx| ==> idx[k] < idx[l])
  }

  /** A position of `s` is in the shifted indices iff its predecessor is an index of `s[1..]`. */
  lemma ShiftHas(idx: seq<nat>, i: int)
    ensures i in Shift(idx) <==> i >= 1 && i - 1 in idx
  {
    if i >= 1 && i - 1 in idx {
      var k :| 0 <= k < |idx| && idx[k] == i - 1;
      assert Shift(idx)[k] == i;
    }
  }

  /** A selection from `s[1..]` is a selection from `s`, with or without the head. */
  lemma SelectsFromTail<T>(s: seq<T>, idx: seq<nat>, r: seq<T>)
    requires s != [] && Selects(s[1..], idx, r)
    ensures Selects(s, Shift(idx), r)
    ensures Selects(s, [0] + Shift(idx), [s[0]] + r)
  {
    var shifted := Shift(idx);
    assert forall k :: 0 <= k < |shifted| ==> shifted[k] < |s| && s[shifted[k]] == r[k];
    var both := [0] + shifted;
    assert forall k :: 1 <= k < |both| ==> both[k] == shifted[k - 1];
  }

  /**
   * Filtering takes the elements of `s` at precisely the positions whose
   * element passes `keep`, and keeps them in order: the result is a
   * subsequence of `s`, and no passing position is skipped.
   */
  lemma {:induction false} FilterSelectsKept<T(!new)>(s: seq<T>, keep: T -> bool)
    ensures Selects(s, KeptIndices(s, keep), Filter(s, keep))
    ensures forall i :: 0 <= i < |s| ==> (i in KeptIndices(s, keep) <==> keep(s[i]))
  {
    if s != [] {
      var tail := s[1..];
      FilterSelectsKept(tail, keep);
      var rest := KeptIndices(tail, keep);
      SelectsFromTail(s, rest, Filter(tail, keep));
      forall i | 0 <= i < |s|
        ensures i in Shift(rest) <==> i >= 1 && keep(s[i])
      {
        ShiftHas(rest, i);
        if i >= 1 {
          assert s[i] == tail[i - 1];
        }
      }
    }
  }

  /** Filtering twice is filtering once by the conjunction of the tests. */
  lemma {:induction false} FilterFuse<T(!new)>(s: seq<T>, first: T -> bool, second: T -> bool, both: T -> bool)
    requires forall x :: both(x) == (first(x) && second(x))
    ensures Filter(Filter(s, first), second) == Filter(s, both)
  {
    if s != [] {
      FilterFuse(s[1..], first, second, both);
      if first(s[0]) {
        assert Filter(s, first) == [s[0]] + Filter(s[1..], first);
        assert ([s[0]] + Filter(s[1..], first))[1..] == Filter(s[1..], first);
      }
    }
  }

  /** A test every element passes leaves the sequence as it is. */
  lemma {:induction false} FilterKeepsAll<T(!new)>(s: seq<T>, keep: T -> bool)
    requires forall x :: x in s ==> keep(x)
    ensures Filter(s, keep) == s
  {
    if s != [] {
      assert forall x :: x in s[1..] ==> x in s;
      FilterKeepsAll(s[1..], keep);
      assert s == [s[0]] + s[1..];
    }
  }

  /** The length of a filter grows by one exactly for a passing head. */
  lemma FilterLengthStep<T(!new)>(s: seq<T>, keep: T -> bool)
    requires s != []
    ensures |Filter(s, keep)| == (if keep(s[0]) then 1 else 0) + |Filter(s[1..], keep)|
  {
  }
}
