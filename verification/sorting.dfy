/**
 * Ordering rows by an integer key, as `ORDER BY` and `Array.prototype.sort`
 * with a numeric comparator do: an insertion sort whose contract is a
 * permutation in ascending key order; the order it leaves among rows with
 * equal keys is not part of that contract.
 */
module Sorting {

  /** The keys of `xs` never decrease. */
  predicate SortedBy<T>(xs: seq<T>, key: T -> int)
  {
    forall i, j :: 0 <= i < j < |xs| ==> key(xs[i]) <= key(xs[j])
  }

  /** Placing `x` after every element whose key is not greater than its own. */
  function Insert<T>(x: T, xs: seq<T>, key: T -> int): (r: seq<T>)
    requires SortedBy(xs, key)
    ensures |r| == |xs| + 1
    ensures multiset(r) == multiset(xs) + multiset{x}
    ensures SortedBy(r, key)
    decreases |xs|, 0
  {
    if |xs| == 0 then [x]
    else if key(x) < key(xs[0]) then [x] + xs
    else
      var rest := Insert(x, xs[1..], key);
      assert xs == [xs[0]] + xs[1..];
      InsertHead(x, xs[1..], key);
      [xs[0]] + rest
  }

  /** The first key after inserting `x` is the smaller of `x`'s and the old first key. */
  lemma {:induction false} InsertHead<T>(x: T, xs: seq<T>, key: T -> int)
    requires SortedBy(xs, key)
    ensures key(Insert(x, xs, key)[0]) == if |xs| == 0 || key(x) < key(xs[0]) then key(x) else key(xs[0])
    decreases |xs|, 1
  {
    if |xs| > 0 && key(x) >= key(xs[0]) {
      assert Insert(x, xs, key)[0] == xs[0];
    }
  }

  /** `xs` ordered by ascending key. */
  function SortBy<T>(xs: seq<T>, key: T -> int): (r: seq<T>)
    ensures |r| == |xs|
    ensures multiset(r) == multiset(xs)
    ensures SortedBy(r, key)
  {
    if |xs| == 0 then []
    else
      var r := Insert(xs[|xs| - 1], SortBy(xs[..|xs| - 1], key), key);
      assert xs == xs[..|xs| - 1] + [xs[|xs| - 1]];
      r
  }

  /** Sorting keeps exactly the elements it was given. */
  lemma SortByMembers<T>(xs: seq<T>, key: T -> int, x: T)
    ensures x in SortBy(xs, key) <==> x in xs
  {
    var r := SortBy(xs, key);
    assert x in r <==> x in multiset(r);
    assert x in xs <==> x in multiset(xs);
  }
  /**
   * Splitting `xs` into the elements that satisfy `keep` and those that do
   * not, each part in its original order.
   */
  function Partition<T>(xs: seq<T>, keep: T -> bool): (r: (seq<T>, seq<T>))
    ensures multiset(r.0) + multiset(r.1) == multiset(xs)
    ensures |r.0| + |r.1| == |xs|
    ensures forall k :: 0 <= k < |r.0| ==> keep(r.0[k])
    ensures forall k :: 0 <= k < |r.1| ==> !keep(r.1[k])
  {
    if |xs| == 0 then ([], [])
    else
      var rest := Partition(xs[..|xs| - 1], keep);
      var x := xs[|xs| - 1];
      assert xs == xs[..|xs| - 1] + [x];
      if keep(x) then
        assert multiset(rest.0 + [x]) == multiset(rest.0) + multiset{x};
        (rest.0 + [x], rest.1)
      else
        assert multiset(rest.1 + [x]) == multiset(rest.1) + multiset{x};
        (rest.0, rest.1 + [x])
  }

  /** The first part holds exactly the elements that satisfy `keep`. */
  lemma PartitionMembers<T>(xs: seq<T>, keep: T -> bool, x: T)
    ensures x in Partition(xs, keep).0 <==> x in xs && keep(x)
  {
    var r := Partition(xs, keep);
    assert x in xs <==> x in multiset(xs);
    assert x in r.0 <==> x in multiset(r.0);
    assert x in r.1 <==> x in multiset(r.1);
  }
}
