/** Joint sorting of a key array and a value array by key (QuickSortMatchingArrays), given by its contract: the
    result is sorted by key and is a permutation of the (key, value) pairs. The order among equal keys is left
    open, as the source leaves it. */
module QuickSort {
  import opened BasicTypes

  predicate SortedByKey<V>(s: seq<(Hash32, V)>)
  {
    forall i, j :: 0 <= i < j < |s| ==> s[i].0 <= s[j].0
  }

  /** Inserts one pair into a sorted sequence of pairs. */
  function InsertByKey<V(==)>(x: (Hash32, V), s: seq<(Hash32, V)>): (r: seq<(Hash32, V)>)
    requires SortedByKey(s)
    ensures SortedByKey(r)
    ensures multiset(r) == multiset(s) + multiset{x}
    ensures forall e :: e in r ==> e == x || e in s
  {
    if s == [] then [x]
    else if x.0 <= s[0].0 then
      PrependSorted(x, s);
      [x] + s
    else
      SortedTail(s);
      var rest := InsertByKey(x, s[1..]);
      assert s == [s[0]] + s[1..];
      LowerBoundKept(x, s[1..], rest, s[0].0);
      PrependSorted(s[0], rest);
      [s[0]] + rest
  }

  lemma SortedTail<V>(s: seq<(Hash32, V)>)
    requires SortedByKey(s) && s != []
    ensures SortedByKey(s[1..])
    ensures forall i :: 0 <= i < |s[1..]| ==> s[0].0 <= s[1..][i].0
  {
    forall i, j | 0 <= i < j < |s[1..]|
      ensures s[1..][i].0 <= s[1..][j].0
    {
      assert s[1..][i] == s[i + 1] && s[1..][j] == s[j + 1];
    }
  }

  /** A pair whose key is at most every key of a sorted sequence can go in front. */
  lemma PrependSorted<V>(x: (Hash32, V), s: seq<(Hash32, V)>)
    requires SortedByKey(s)
    requires forall i :: 0 <= i < |s| ==> x.0 <= s[i].0
    ensures SortedByKey([x] + s)
  {
    var r := [x] + s;
    forall i, j | 0 <= i < j < |r|
      ensures r[i].0 <= r[j].0
    {
      assert r[j] == s[j - 1];
      if i > 0 {
        assert r[i] == s[i - 1];
      }
    }
  }

  /** Every key of r is at least bound when r holds only x and elements of s, whose keys are all at least bound. */
  lemma LowerBoundKept<V>(x: (Hash32, V), s: seq<(Hash32, V)>, r: seq<(Hash32, V)>, bound: Hash32)
    requires bound <= x.0
    requires forall i :: 0 <= i < |s| ==> bound <= s[i].0
    requires forall e :: e in r ==> e == x || e in s
    ensures forall i :: 0 <= i < |r| ==> bound <= r[i].0
  {
    forall i | 0 <= i < |r|
      ensures bound <= r[i].0
    {
      assert r[i] in r;
    }
  }

  /** The pairs sorted by ascending key, keeping each key with its own value. */
  function SortByKey<V(==)>(s: seq<(Hash32, V)>): (r: seq<(Hash32, V)>)
    ensures SortedByKey(r)
    ensures multiset(r) == multiset(s)
  {
    if s == [] then []
    else
      assert s == [s[0]] + s[1..];
      InsertByKey(s[0], SortByKey(s[1..]))
  }
}
