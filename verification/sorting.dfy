/** Python's `sorted` on the two kinds of list the weighted medians sort:
    plain numbers (for `np.median`) and `(datum, weight)` pairs produced by
    `zip(data, weights)`, which Python compares lexicographically.

    Sorting is modelled as insertion sort under a total preorder `le`.
    Any correct sort gives the same list here, because two items that are
    `le` each other under either ordering used below are equal.
 */
module Sorting {
  import opened Series

  /** `le` is reflexive, transitive and total, so it can drive a sort. */
  ghost predicate TotalPreorder<T(!new)>(le: (T, T) -> bool) {
    && (forall a, b :: le(a, b) || le(b, a))
    && (forall a, b, c :: le(a, b) && le(b, c) ==> le(a, c))
  }

  /** Each item is `le` every later item. */
  ghost predicate Sorted<T>(s: seq<T>, le: (T, T) -> bool) {
    forall i, j :: 0 <= i < j < |s| ==> le(s[i], s[j])
  }

  /** Puts `x` in front of the first item it is `le`. */
  function Insert<T>(x: T, s: seq<T>, le: (T, T) -> bool): (r: seq<T>)
    ensures |r| == |s| + 1
  {
    if |s| == 0 || le(x, s[0]) then [x] + s
    else [s[0]] + Insert(x, s[1..], le)
  }

  /** Insertion sort: `s` in `le` order (see `SortSorted` and
      `SortPermutes`). */
  function Sort<T>(s: seq<T>, le: (T, T) -> bool): (r: seq<T>)
    ensures |r| == |s|
  {
    if |s| == 0 then []
    else Insert(s[0], Sort(s[1..], le), le)
  }

  /** Inserting adds exactly `x` to the items. */
  lemma {:induction false} InsertPermutes<T>(x: T, s: seq<T>, le: (T, T) -> bool)
    ensures multiset(Insert(x, s, le)) == multiset(s) + multiset{x}
  {
    if |s| > 0 && !le(x, s[0]) {
      InsertPermutes(x, s[1..], le);
      assert s == [s[0]] + s[1..];
    }
  }

  /** The sort returns a permutation of its input. */
  lemma {:induction false} SortPermutes<T>(s: seq<T>, le: (T, T) -> bool)
    ensures multiset(Sort(s, le)) == multiset(s)
  {
    if |s| > 0 {
      SortPermutes(s[1..], le);
      InsertPermutes(s[0], Sort(s[1..], le), le);
      assert s == [s[0]] + s[1..];
    }
  }

  /** Inserting into a sorted list keeps it sorted. */
  lemma {:induction false} InsertSorted<T(!new)>(x: T, s: seq<T>, le: (T, T) -> bool)
    requires TotalPreorder(le)
    requires Sorted(s, le)
    ensures Sorted(Insert(x, s, le), le)
  {
    if |s| == 0 || le(x, s[0]) {
    } else {
      InsertSorted(x, s[1..], le);
      var tail := Insert(x, s[1..], le);
      InsertPermutes(x, s[1..], le);
      forall k | 0 <= k < |tail|
        ensures le(s[0], tail[k])
      {
        assert tail[k] in multiset(tail);
        if tail[k] != x {
          assert tail[k] in multiset(s[1..]);
          var i :| 0 <= i < |s[1..]| && s[1..][i] == tail[k];
          assert s[i + 1] == tail[k];
        }
      }
    }
  }

  /** The sort returns a sorted list. */
  lemma {:induction false} SortSorted<T(!new)>(s: seq<T>, le: (T, T) -> bool)
    requires TotalPreorder(le)
    ensures Sorted(Sort(s, le), le)
  {
    if |s| > 0 {
      SortSorted(s[1..], le);
      InsertSorted(s[0], Sort(s[1..], le), le);
    }
  }

  /** Every item of the sorted list comes from the input. */
  lemma SortMember<T>(s: seq<T>, le: (T, T) -> bool, i: int)
    requires 0 <= i < |Sort(s, le)|
    ensures Sort(s, le)[i] in s
  {
    SortPermutes(s, le);
    assert Sort(s, le)[i] in multiset(Sort(s, le));
  }

  /** The order of plain numbers. */
  function RealLe(a: real, b: real): bool {
    a <= b
  }

  /** Python's tuple comparison on `(datum, weight)` pairs. */
  function LexLe(a: (real, real), b: (real, real)): bool {
    a.0 < b.0 || (a.0 == b.0 && a.1 <= b.1)
  }

  lemma OrdersArePreorders()
    ensures TotalPreorder(RealLe)
    ensures TotalPreorder(LexLe)
  {
  }

  /** `zip(data, weights)`: pairs up to the shorter length. */
  function Zip(d: seq<real>, w: seq<real>): (r: seq<(real, real)>)
    ensures |r| == if |d| < |w| then |d| else |w|
    ensures forall i :: 0 <= i < |r| ==> r[i] == (d[i], w[i])
  {
    if |d| == 0 || |w| == 0 then [] else [(d[0], w[0])] + Zip(d[1..], w[1..])
  }

  /** First components of the pairs (`sorted_data`). */
  function Firsts(ps: seq<(real, real)>): (r: seq<real>)
    ensures |r| == |ps|
    ensures forall i :: 0 <= i < |ps| ==> r[i] == ps[i].0
  {
    seq(|ps|, i requires 0 <= i < |ps| => ps[i].0)
  }

  /** Second components of the pairs (`sorted_weights`). */
  function Seconds(ps: seq<(real, real)>): (r: seq<real>)
    ensures |r| == |ps|
    ensures forall i :: 0 <= i < |ps| ==> r[i] == ps[i].1
  {
    seq(|ps|, i requires 0 <= i < |ps| => ps[i].1)
  }

  /** Unzipping a zip of equal-length lists gives the lists back. */
  lemma UnzipZip(d: seq<real>, w: seq<real>)
    requires |d| == |w|
    ensures Firsts(Zip(d, w)) == d && Seconds(Zip(d, w)) == w
  {
  }

  /** Inserting a pair adds its weight to the total weight. */
  lemma {:induction false} InsertKeepsWeight(x: (real, real), s: seq<(real, real)>)
    ensures Sum(Seconds(Insert(x, s, LexLe))) == x.1 + Sum(Seconds(s))
  {
    if |s| == 0 || LexLe(x, s[0]) {
      assert Seconds([x] + s)[1..] == Seconds(s);
    } else {
      InsertKeepsWeight(x, s[1..]);
      assert Seconds([s[0]] + Insert(x, s[1..], LexLe))[1..] == Seconds(Insert(x, s[1..], LexLe));
      assert Seconds(s)[1..] == Seconds(s[1..]);
    }
  }

  /** Sorting the pairs keeps the total weight (`sum(sorted_weights)`). */
  lemma {:induction false} SortKeepsWeight(ps: seq<(real, real)>)
    ensures Sum(Seconds(Sort(ps, LexLe))) == Sum(Seconds(ps))
  {
    if |ps| > 0 {
      SortKeepsWeight(ps[1..]);
      InsertKeepsWeight(ps[0], Sort(ps[1..], LexLe));
      assert Seconds(ps)[1..] == Seconds(ps[1..]);
    }
  }
}
