/**
 * The relative-extrema scan of `pktalib.argrelextrema`: an index is an extremum of
 * order `order` when its value compares favourably with every neighbour up to `order`
 * places away on either side, neighbours past an end being clipped to that end.
 */
module Pktalib {

  /** The comparators the scan is used with (numpy's element-wise comparisons). */
  datatype Comparator = Greater | Less | GreaterEqual | LessEqual

  predicate Compare(cmp: Comparator, a: int, b: int)
  {
    match cmp
    case Greater => a > b
    case Less => a < b
    case GreaterEqual => a >= b
    case LessEqual => a <= b
  }

  predicate Strict(cmp: Comparator) { cmp == Greater || cmp == Less }

  /** What the scan returns: the error for a bad order, the all-false flag array of the
      early return, or the flagged indices. */
  datatype Outcome = ValueError | AllFalse(flags: seq<bool>) | Found(indices: seq<nat>)

  /** numpy's "clip" mode: an index past either end reads the element at that end. */
  function Clip(j: int, n: nat): (c: nat)
    requires n > 0
    ensures c < n
    ensures 0 <= j < n ==> c == j
  {
    if j < 0 then 0 else if j >= n then n - 1 else j
  }

  /** The two comparisons of index `i` at one shift. */
  predicate Pair(data: seq<int>, cmp: Comparator, i: nat, shift: int)
    requires i < |data|
  {
    Compare(cmp, data[i], data[Clip(i + shift, |data|)])
    && Compare(cmp, data[i], data[Clip(i - shift, |data|)])
  }

  /** Index `i` is still flagged after the shifts 1 .. k. */
  predicate Holds(data: seq<int>, cmp: Comparator, k: nat, i: nat)
    requires i < |data|
  {
    k == 0 || (Holds(data, cmp, k - 1, i) && Pair(data, cmp, i, k))
  }

  /** The flag array after the shifts 1 .. k. */
  function FlagsAfter(data: seq<int>, cmp: Comparator, k: nat): (f: seq<bool>)
    ensures |f| == |data|
  {
    seq(|data|, i requires 0 <= i < |data| => Holds(data, cmp, k, i))
  }

  /** `np.nonzero` of a flag array: the flagged positions, from the back. */
  function Nonzero(flags: seq<bool>): seq<nat>
  {
    if |flags| == 0 then []
    else Nonzero(flags[..|flags| - 1]) + if flags[|flags| - 1] then [|flags| - 1] else []
  }

  /** What `argrelextrema(data, comparator, order=order, mode="clip")` returns. */
  function RelExtrema(data: seq<int>, cmp: Comparator, order: int): Outcome
  {
    if order < 1 then ValueError
    else
      var f := FlagsAfter(data, cmp, order);
      if true in f then Found(Nonzero(f)) else AllFalse(f)
  }

  /** The scan as written: one pass per shift AND-ing both comparisons into the flag
      array in place, returning as soon as no flag is left, then listing the flags. */
  method ArgRelExtrema(data: array<int>, cmp: Comparator, order: int) returns (r: Outcome)
    ensures r == RelExtrema(data[..], cmp, order)
  {
    if order < 1 {
      return ValueError;
    }
    var n := data.Length;
    var results := new bool[n](_ => true);
    assert results[..] == FlagsAfter(data[..], cmp, 0);
    var shift := 1;
    while shift <= order
      invariant 1 <= shift <= order + 1
      invariant results[..] == FlagsAfter(data[..], cmp, shift - 1)
      invariant shift > 1 ==> true in results[..]
    {
      ApplyShift(data, cmp, shift, results);
      if true !in results[..] {
        NoneLeft(data[..], cmp, shift, order);
        return AllFalse(results[..]);
      }
      shift := shift + 1;
    }
    var indices := ListFlags(results);
    return Found(indices);
  }

  /** One shift: AND both comparisons into every flag, in place. */
  method ApplyShift(data: array<int>, cmp: Comparator, shift: nat, results: array<bool>)
    requires shift >= 1 && results.Length == data.Length
    requires results[..] == FlagsAfter(data[..], cmp, shift - 1)
    modifies results
    ensures results[..] == FlagsAfter(data[..], cmp, shift)
  {
    var n := data.Length;
    ghost var d := data[..];
    var i := 0;
    while i < n
      invariant 0 <= i <= n
      invariant forall j :: 0 <= j < i ==> results[j] == Holds(d, cmp, shift, j)
      invariant forall j :: i <= j < n ==> results[j] == Holds(d, cmp, shift - 1, j)
    {
      var flag := results[i] && Compare(cmp, data[i], data[Clip(i + shift, n)]);
      flag := flag && Compare(cmp, data[i], data[Clip(i - shift, n)]);
      assert flag == Holds(d, cmp, shift, i);
      results[i] := flag;
      i := i + 1;
    }
  }

  /** The loop of `np.nonzero`. */
  method ListFlags(flags: array<bool>) returns (indices: seq<nat>)
    ensures indices == Nonzero(flags[..])
  {
    indices := [];
    var i := 0;
    while i < flags.Length
      invariant 0 <= i <= flags.Length
      invariant indices == Nonzero(flags[..i])
    {
      assert flags[..i + 1][..i] == flags[..i];
      if flags[i] {
        indices := indices + [i];
      }
      i := i + 1;
    }
    assert flags[..flags.Length] == flags[..];
  }

  /** Flags are only ever cleared: whatever is flagged after k shifts was flagged after
      every earlier shift. */
  lemma {:induction false} FlagsShrink(data: seq<int>, cmp: Comparator, j: nat, k: nat, i: nat)
    requires j <= k && i < |data|
    ensures Holds(data, cmp, k, i) ==> Holds(data, cmp, j, i)
    decreases k - j
  {
    if j < k {
      FlagsShrink(data, cmp, j, k - 1, i);
    }
  }

  /** Once no index is flagged no later shift flags one, so the early return gives the
      same all-false array as running every shift. */
  lemma NoneLeft(data: seq<int>, cmp: Comparator, k: nat, order: nat)
    requires k <= order
    requires true !in FlagsAfter(data, cmp, k)
    ensures FlagsAfter(data, cmp, order) == FlagsAfter(data, cmp, k)
  {
    forall i | 0 <= i < |data|
      ensures FlagsAfter(data, cmp, order)[i] == FlagsAfter(data, cmp, k)[i]
    {
      FlagsShrink(data, cmp, k, order, i);
      assert FlagsAfter(data, cmp, k)[i] in FlagsAfter(data, cmp, k);
    }
  }

  /** An index is flagged after k shifts exactly when both comparisons hold at every
      shift from 1 to k. */
  lemma {:induction false} HoldsEveryShift(data: seq<int>, cmp: Comparator, k: nat, i: nat)
    requires i < |data|
    ensures Holds(data, cmp, k, i) <==> forall s :: 1 <= s <= k ==> Pair(data, cmp, i, s)
    decreases k
  {
    if k > 0 {
      HoldsEveryShift(data, cmp, k - 1, i);
    }
  }

  /** `np.nonzero` lists exactly the flagged positions, in strictly ascending order. */
  lemma {:induction false} NonzeroListsFlags(flags: seq<bool>)
    ensures var idx := Nonzero(flags);
      (forall p :: 0 <= p < |idx| ==> idx[p] < |flags| && flags[idx[p]])
      && (forall p, q :: 0 <= p < q < |idx| ==> idx[p] < idx[q])
      && (forall i :: 0 <= i < |flags| && flags[i] ==> i in idx)
    decreases |flags|
  {
    if |flags| > 0 {
      var front := flags[..|flags| - 1];
      NonzeroListsFlags(front);
    }
  }

  /** The outcome of the scan: a bad order raises; otherwise the all-false array comes
      back when no index qualifies, and the qualifying indices, ascending, when one does. */
  lemma ScanOutcome(data: seq<int>, cmp: Comparator, order: int)
    ensures order < 1 <==> RelExtrema(data, cmp, order) == ValueError
    ensures order >= 1 && RelExtrema(data, cmp, order).AllFalse? ==>
      RelExtrema(data, cmp, order).flags == seq(|data|, _ => false)
    ensures order >= 1 && RelExtrema(data, cmp, order).Found? ==>
      var idx := RelExtrema(data, cmp, order).indices;
      |idx| > 0
      && (forall p :: 0 <= p < |idx| ==> idx[p] < |data| && Holds(data, cmp, order, idx[p]))
      && (forall p, q :: 0 <= p < q < |idx| ==> idx[p] < idx[q])
      && (forall i :: 0 <= i < |data| && Holds(data, cmp, order, i) ==> i in idx)
  {
    if order >= 1 {
      var f := FlagsAfter(data, cmp, order);
      NonzeroListsFlags(f);
      if true in f {
        var i :| 0 <= i < |f| && f[i];
        assert i in Nonzero(f);
      } else {
        forall i | 0 <= i < |f| ensures !f[i] {
          assert f[i] in f;
        }
      }
    }
  }

  /** With a strict comparator the first and the last element are never extrema: under
      clipping each is compared with itself at shift 1. */
  lemma EndsNeverFlagged(data: seq<int>, cmp: Comparator, order: int)
    requires Strict(cmp) && order >= 1 && |data| > 0
    ensures !FlagsAfter(data, cmp, order)[0] && !FlagsAfter(data, cmp, order)[|data| - 1]
    ensures RelExtrema(data, cmp, order).Found? ==>
      0 !in RelExtrema(data, cmp, order).indices && |data| - 1 !in RelExtrema(data, cmp, order).indices
  {
    var n := |data|;
    HoldsEveryShift(data, cmp, order, 0);
    HoldsEveryShift(data, cmp, order, n - 1);
    assert !Pair(data, cmp, 0, 1);
    assert !Pair(data, cmp, n - 1, 1);
    var f := FlagsAfter(data, cmp, order);
    NonzeroListsFlags(f);
  }

  lemma {:induction false} NoneFlagged(flags: seq<bool>)
    requires forall i :: 0 <= i < |flags| ==> !flags[i]
    ensures Nonzero(flags) == []
    decreases |flags|
  {
    if |flags| > 0 {
      NoneFlagged(flags[..|flags| - 1]);
    }
  }

  /** The documented example: in [1, 2, 3, 2, 1] only index 2 is a maximum of order 1. */
  lemma PeakExample()
    ensures RelExtrema([1, 2, 3, 2, 1], Greater, 1) == Found([2])
  {
    var data := [1, 2, 3, 2, 1];
    var f := FlagsAfter(data, Greater, 1);
    assert !Pair(data, Greater, 0, 1) && !Pair(data, Greater, 1, 1) && Pair(data, Greater, 2, 1);
    assert !Pair(data, Greater, 3, 1) && !Pair(data, Greater, 4, 1);
    assert f == [false, false, true, false, false];
    assert f[2];
    calc {
      Nonzero(f);
      { assert f[..4] == [false, false, true, false]; }
      Nonzero([false, false, true, false]);
      { assert [false, false, true, false][..3] == [false, false, true]; }
      Nonzero([false, false, true]);
      { assert [false, false, true][..2] == [false, false]; NoneFlagged([false, false]); }
      [2];
    }
  }
}
