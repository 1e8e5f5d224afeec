/** Sorting an array in place by a total order. Equal elements keep no particular
    order. */
module Sorting {

  ghost predicate Total<T(!new)>(le: (T, T) -> bool) {
    forall x, y :: le(x, y) || le(y, x)
  }

  ghost predicate Transitive<T(!new)>(le: (T, T) -> bool) {
    forall x, y, z :: le(x, y) && le(y, z) ==> le(x, z)
  }

  ghost predicate Sorted<T>(a: seq<T>, le: (T, T) -> bool) {
    forall i, j | 0 <= i < j < |a| :: le(a[i], a[j])
  }

  ghost predicate Permuted<T>(a: seq<T>, b: seq<T>) {
    multiset(a) == multiset(b)
  }

  method Sort<T(!new)>(a: array<T>, le: (T, T) -> bool)
    requires Total(le) && Transitive(le)
    modifies a
    ensures Sorted(a[..], le)
    ensures Permuted(a[..], old(a[..]))
  {
    for n := 0 to a.Length
      invariant Sorted(a[..n], le)
      invariant Permuted(a[..], old(a[..]))
    {
      SinkLast(a, n, le);
    }
    assert a[..a.Length] == a[..];
  }

  /** Exchanges a[i] with its left neighbour. */
  method SwapDown<T>(a: array<T>, i: nat)
    requires 0 < i < a.Length
    modifies a
    ensures a[..] == old(a[..])[i - 1 := old(a[i])][i := old(a[i - 1])]
    ensures Permuted(a[..], old(a[..]))
  {
    a[i - 1], a[i] := a[i], a[i - 1];
  }

  /** Moves a[n] down to its place in the sorted prefix. */
  method SinkLast<T(!new)>(a: array<T>, n: nat, le: (T, T) -> bool)
    requires Total(le) && Transitive(le)
    requires n < a.Length && Sorted(a[..n], le)
    modifies a
    ensures Sorted(a[..n + 1], le)
    ensures Permuted(a[..], old(a[..]))
  {
    var i := n;
    while i > 0 && !le(a[i - 1], a[i])
      invariant 0 <= i <= n
      invariant forall j, k | 0 <= j < k <= n && k != i :: le(a[j], a[k])
      invariant Permuted(a[..], old(a[..]))
    {
      SwapDown(a, i);
      i := i - 1;
    }
    forall j, k | 0 <= j < k <= n ensures le(a[j], a[k]) {
      if k == i && j < i - 1 {
        assert le(a[j], a[i - 1]) && le(a[i - 1], a[i]);
      }
    }
  }

  /** A permutation has the same elements, and as often. */
  lemma PermutedMembers<T>(a: seq<T>, b: seq<T>, x: T)
    requires Permuted(a, b)
    ensures x in a <==> x in b
  {
    assert x in multiset(a) <==> x in multiset(b);
  }
}
