/** Array.prototype.sort with a numeric comparator, as a stable in-place insertion sort. */
module Sorting {

  /** "asc" sorts by `a - b`, "desc" by `b - a`. */
  datatype Direction = Asc | Desc

  /** The comparator puts `x` no later than `y`. */
  predicate InOrder(dir: Direction, x: real, y: real)
  {
    if dir == Asc then x <= y else y <= x
  }

  /** Every element of `s` comes no later than every element after it. */
  ghost predicate SortedBy<T>(s: seq<T>, key: T -> real, dir: Direction)
  {
    forall i, j :: 0 <= i < j < |s| ==> InOrder(dir, key(s[i]), key(s[j]))
  }

  /** Sorts `a` in place by `key` in direction `dir`; the elements are only rearranged. */
  method SortBy<T>(a: array<T>, key: T -> real, dir: Direction)
    modifies a
    ensures SortedBy(a[..], key, dir)
    ensures multiset(a[..]) == old(multiset(a[..]))
  {
    var i := 0;
    while i < a.Length
      invariant 0 <= i <= a.Length
      invariant SortedBy(a[..i], key, dir)
      invariant multiset(a[..]) == old(multiset(a[..]))
    {
      Insert(a, i, key, dir);
      i := i + 1;
    }
    assert a[..a.Length] == a[..];
  }

  /**
   * Inserts `a[i]` into the sorted prefix `a[..i]`: the longer prefix is sorted
   * and holds the same elements, and nothing from index `i + 1` on moves.
   */
  method Insert<T>(a: array<T>, i: nat, key: T -> real, dir: Direction)
    requires i < a.Length
    requires SortedBy(a[..i], key, dir)
    modifies a
    ensures SortedBy(a[..i + 1], key, dir)
    ensures multiset(a[..i + 1]) == old(multiset(a[..i + 1]))
    ensures a[i + 1..] == old(a[i + 1..])
    ensures multiset(a[..]) == old(multiset(a[..]))
  {
    ghost var before := a[..];
    SinkLeft(a, i, key, dir);
    PrefixMultiset(a[..], before, i + 1);
    assert a[..][i + 1..] == a[i + 1..];
  }

  /** Moves `a[i]` left past the elements that the comparator puts after it. */
  method SinkLeft<T>(a: array<T>, i: nat, key: T -> real, dir: Direction)
    requires i < a.Length
    requires SortedBy(a[..i], key, dir)
    modifies a
    ensures SortedBy(a[..i + 1], key, dir)
    ensures forall k :: i < k < a.Length ==> a[k] == old(a[k])
    ensures multiset(a[..]) == old(multiset(a[..]))
  {
    var j := i;
    while j > 0 && !InOrder(dir, key(a[j - 1]), key(a[j]))
      invariant 0 <= j <= i
      invariant forall k :: i < k < a.Length ==> a[k] == old(a[k])
      invariant multiset(a[..]) == old(multiset(a[..]))
      invariant forall p, q :: 0 <= p < q <= i && p != j && q != j ==> InOrder(dir, key(a[p]), key(a[q]))
      invariant forall q :: j < q <= i ==> InOrder(dir, key(a[j]), key(a[q]))
    {
      Swap(a, j - 1, j);
      j := j - 1;
    }
  }

  /** Two sequences with the same elements that agree from index `n` on have the same elements before it. */
  lemma PrefixMultiset<T>(s: seq<T>, t: seq<T>, n: nat)
    requires |s| == |t| && n <= |s|
    requires forall k :: n <= k < |s| ==> s[k] == t[k]
    requires multiset(s) == multiset(t)
    ensures s[n..] == t[n..]
    ensures multiset(s[..n]) == multiset(t[..n])
  {
    assert s[n..] == t[n..];
    assert s == s[..n] + s[n..] && t == t[..n] + t[n..];
    assert multiset(s) == multiset(s[..n]) + multiset(s[n..]);
    assert multiset(t) == multiset(t[..n]) + multiset(t[n..]);
    assert multiset(s[..n]) == multiset(s) - multiset(s[n..]);
  }

  /** Exchanges two elements. */
  method Swap<T>(a: array<T>, i: nat, j: nat)
    requires i < j < a.Length
    modifies a
    ensures a[..] == old(a[..])[i := old(a[j])][j := old(a[i])]
    ensures multiset(a[..]) == old(multiset(a[..]))
  {
    a[i], a[j] := a[j], a[i];
  }
}
