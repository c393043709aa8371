/** Insertion into a sequence ordered by a key, which is how the sorts of query results and lag lines are modelled. */
module Insertion {

  ghost predicate SortedBy<T(!new)>(s: seq<T>, key: T -> int) {
    forall i, j :: 0 <= i < j < |s| ==> key(s[i]) <= key(s[j])
  }

  /** Where an element with key `k` belongs: behind its equals. */
  function PlaceFor<T>(s: seq<T>, key: T -> int, k: int): (j: nat)
    ensures j <= |s|
    ensures forall i :: j <= i < |s| ==> key(s[i]) > k
    ensures j > 0 ==> key(s[j - 1]) <= k
  {
    if s == [] || key(s[|s| - 1]) <= k then |s| else PlaceFor(s[..|s| - 1], key, k)
  }

  function Inserted<T>(s: seq<T>, j: nat, x: T): (r: seq<T>)
    requires j <= |s|
    ensures |r| == |s| + 1 && r[j] == x
    ensures forall i :: 0 <= i < j ==> r[i] == s[i]
    ensures forall i :: j < i < |r| ==> r[i] == s[i - 1]
  {
    s[..j] + [x] + s[j..]
  }

  lemma InsertedSorted<T(!new)>(s: seq<T>, key: T -> int, j: nat, x: T)
    requires SortedBy(s, key) && j == PlaceFor(s, key, key(x))
    ensures SortedBy(Inserted(s, j, x), key)
  {
    assert forall i :: 0 <= i < j ==> key(s[i]) <= key(x);
  }

  lemma InsertedPermutes<T>(s: seq<T>, j: nat, x: T)
    requires j <= |s|
    ensures multiset(Inserted(s, j, x)) == multiset(s) + multiset{x}
  {
    assert s == s[..j] + s[j..];
  }
}
