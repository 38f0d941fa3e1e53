/** The counting in `table_pair_match_physical` (`kungpao/utils.py`,
    lines 797-818).  For each row of the first catalogue the source computes
    the physical separation to every row of the second catalogue (angular
    distance times a redshift-dependent scale); here that separation is
    given as a matrix `sep`, row `i` holding the distances from object `i`.

    For each object the source appends `np.sum(sep < r_kpc)`, minus one
    when `include` is set (to discount the object matching itself), and
    `np.where(sep < r_kpc)`, the ascending positions within the radius.
 */
module Pairs {

  /** Strictly ascending positions, as `np.where` returns them. */
  predicate Increasing(s: seq<nat>) {
    forall a, b :: 0 <= a < b < |s| ==> s[a] < s[b]
  }

  /** `m` lists, in ascending order, exactly the positions of `s` whose
      value is below `r`. */
  predicate ListsWithin(s: seq<real>, r: real, m: seq<nat>) {
    && Increasing(m)
    && (forall k :: 0 <= k < |m| ==> m[k] < |s| && s[m[k]] < r)
    && (forall j :: 0 <= j < |s| && s[j] < r ==> j in m)
  }

  /** `np.where(s < r)`: the positions of `s` holding a value below `r`. */
  function Matches(s: seq<real>, r: real): (m: seq<nat>)
    ensures ListsWithin(s, r, m)
  {
    if |s| == 0 then []
    else
      var last := |s| - 1;
      Matches(s[..last], r) + (if s[last] < r then [last] else [])
  }

  /** `np.sum(s < r)`: how many values of `s` are below `r`. */
  function CountBelow(s: seq<real>, r: real): nat {
    if |s| == 0 then 0
    else CountBelow(s[..|s| - 1], r) + (if s[|s| - 1] < r then 1 else 0)
  }

  /** The count and the positions describe the same objects. */
  lemma {:induction false} CountIsMatchLength(s: seq<real>, r: real)
    ensures CountBelow(s, r) == |Matches(s, r)|
  {
    if |s| > 0 {
      CountIsMatchLength(s[..|s| - 1], r);
    }
  }

  /** A strictly ascending list has as many distinct members as entries. */
  lemma {:induction false} IncreasingCard(s: seq<nat>)
    requires Increasing(s)
    ensures |set x: nat | x in s| == |s|
  {
    if |s| > 0 {
      var t := s[..|s| - 1];
      var last := s[|s| - 1];
      assert s == t + [last];
      IncreasingPrefix(s);
      IncreasingCard(t);
      SetOfSnoc(t, last);
    }
  }

  /** Dropping the last entry keeps a list ascending. */
  lemma IncreasingPrefix(s: seq<nat>)
    requires Increasing(s) && |s| > 0
    ensures Increasing(s[..|s| - 1])
  {
  }

  /** Appending a value above every entry adds one member. */
  lemma SetOfSnoc(t: seq<nat>, last: nat)
    requires Increasing(t + [last])
    ensures |set x: nat | x in t + [last]| == |set x: nat | x in t| + 1
  {
    var below := set x: nat | x in t;
    assert (set x: nat | x in t + [last]) == below + {last};
    forall x | x in below
      ensures x < last
    {
      var k :| 0 <= k < |t| && t[k] == x;
      assert (t + [last])[k] == x && (t + [last])[|t|] == last;
    }
    assert last !in below;
  }

  /** The positions within radius `r` of row `s`, as a set. */
  ghost function WithinSet(s: seq<real>, r: real): set<nat> {
    set j: nat | j < |s| && s[j] < r
  }

  /** `np.sum(s < r)` is the size of the set of positions within `r`. */
  lemma CountIsSetSize(s: seq<real>, r: real)
    ensures CountBelow(s, r) == |WithinSet(s, r)|
  {
    var m := Matches(s, r);
    assert (set x: nat | x in m) == WithinSet(s, r);
    IncreasingCard(m);
    CountIsMatchLength(s, r);
  }

  /** The count appended for one object: `np.sum(sep < r_kpc)`, less one
      with `include`. */
  function PairCount(s: seq<real>, r: real, includeSelf: bool): int {
    if includeSelf then CountBelow(s, r) - 1 else CountBelow(s, r)
  }

  /** The loop of `table_pair_match_physical` over the rows of `sep`. */
  method TablePairMatch(sep: seq<seq<real>>, r: real, includeSelf: bool)
    returns (counts: seq<int>, indices: seq<seq<nat>>)
    ensures |counts| == |sep| && |indices| == |sep|
    ensures forall i :: 0 <= i < |sep| ==> ListsWithin(sep[i], r, indices[i])
    ensures forall i :: 0 <= i < |sep| ==> counts[i] == PairCount(sep[i], r, includeSelf)
  {
    counts := [];
    indices := [];
    var i := 0;
    while i < |sep|
      invariant 0 <= i <= |sep|
      invariant |counts| == i && |indices| == i
      invariant forall a :: 0 <= a < i ==> ListsWithin(sep[a], r, indices[a])
      invariant forall a :: 0 <= a < i ==> counts[a] == PairCount(sep[a], r, includeSelf)
    {
      var n := PairCount(sep[i], r, includeSelf);
      var m := Matches(sep[i], r);
      counts := counts + [n];
      indices := indices + [m];
      i := i + 1;
    }
  }

  /** Each count is the size of its row's index set, less one with
      `include`, and so is the length of the `np.where` list. */
  lemma PairCountIsSetSize(s: seq<real>, r: real, includeSelf: bool)
    ensures PairCount(s, r, includeSelf) + (if includeSelf then 1 else 0) == |WithinSet(s, r)|
    ensures PairCount(s, r, includeSelf) + (if includeSelf then 1 else 0) == |Matches(s, r)|
  {
    CountIsSetSize(s, r);
    CountIsMatchLength(s, r);
  }

  /** With `include` set, an object with nothing inside the radius (its
      own row need not hold a zero) gets a count of -1. */
  lemma IncludeCanGoNegative()
    ensures PairCount([2000.0], 1000.0, true) == -1
    ensures Matches([2000.0], 1000.0) == []
  {
  }
}
