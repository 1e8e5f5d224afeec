/** Lexicographic order of strings, sorted key sequences, and sorting in place. */
module StringOrder {
  import opened Sorting

  /** Lexicographic order; on code points it is the byte order of the UTF-8 text. */
  predicate LexLe(a: string, b: string) {
    a == "" || (b != "" && (a[0] < b[0] || (a[0] == b[0] && LexLe(a[1..], b[1..]))))
  }

  lemma {:induction false} LexTotal(a: string, b: string)
    ensures LexLe(a, b) || LexLe(b, a)
  {
    if a != "" && b != "" {
      LexTotal(a[1..], b[1..]);
    }
  }

  lemma {:induction false} LexAntisymmetric(a: string, b: string)
    requires LexLe(a, b) && LexLe(b, a)
    ensures a == b
  {
    if a != "" {
      LexAntisymmetric(a[1..], b[1..]);
      assert a == [a[0]] + a[1..] && b == [b[0]] + b[1..];
    }
  }

  lemma {:induction false} LexTransitive(a: string, b: string, c: string)
    requires LexLe(a, b) && LexLe(b, c)
    ensures LexLe(a, c)
  {
    if a != "" && a[0] == b[0] == c[0] {
      LexTransitive(a[1..], b[1..], c[1..]);
    }
  }

  /** At the first difference the smaller character comes first, whatever follows. */
  lemma {:induction false} SmallerCharFirst(p: string, x: string, y: string, c: char, d: char)
    requires c < d
    ensures LexLe(p + [c] + x, p + [d] + y) && !LexLe(p + [d] + y, p + [c] + x)
  {
    if p != "" {
      SmallerCharFirst(p[1..], x, y, c, d);
      assert (p + [c] + x)[1..] == p[1..] + [c] + x && (p + [d] + y)[1..] == p[1..] + [d] + y;
    }
  }

  /** A text comes before every longer one that begins with it. */
  lemma {:induction false} PrefixFirst(p: string, x: string)
    ensures LexLe(p, p + x) && (x != "" ==> !LexLe(p + x, p))
  {
    if p != "" {
      PrefixFirst(p[1..], x);
      assert (p + x)[1..] == p[1..] + x;
    }
  }

  /** `a` is a proper prefix of `b`, or has the smaller character where they first
      differ. */
  ghost predicate Before(a: string, b: string) {
    exists n: nat :: BeforeAt(a, b, n)
  }

  predicate BeforeAt(a: string, b: string, n: nat) {
    n <= |a| && n < |b| && a[..n] == b[..n] && (n == |a| || a[n] < b[n])
  }

  lemma BeforeIsLess(a: string, b: string, n: nat)
    requires BeforeAt(a, b, n)
    ensures LexLe(a, b)
  {
    hide LexLe;
    if n == |a| {
      PrefixFirst(a, b[n..]);
      assert a + b[n..] == b;
    } else {
      SmallerCharFirst(a[..n], a[n + 1..], b[n + 1..], a[n], b[n]);
      assert a == a[..n] + [a[n]] + a[n + 1..] && b == a[..n] + [b[n]] + b[n + 1..];
    }
  }

  /** The order is equality or that. */
  lemma OrderIsFirstDifference(a: string, b: string)
    ensures LexLe(a, b) <==> a == b || Before(a, b)
  {
    hide LexLe, BeforeAt;
    if a == b {
      LexTotal(a, a);
    } else if n: nat :| BeforeAt(a, b, n) {
      BeforeIsLess(a, b, n);
    } else if LexLe(a, b) {
      var n := FirstDifference(a, b);
    }
  }

  lemma {:induction false} FirstDifference(a: string, b: string) returns (n: nat)
    requires a != b && LexLe(a, b)
    ensures BeforeAt(a, b, n)
  {
    if a == "" || a[0] != b[0] {
      n := 0;
    } else {
      assert a == [a[0]] + a[1..] && b == [b[0]] + b[1..];
      n := FirstDifference(a[1..], b[1..]);
      assert a[..n + 1] == [a[0]] + a[1..][..n] && b[..n + 1] == [b[0]] + b[1..][..n];
      n := n + 1;
    }
  }

  ghost predicate Least(k: string, keys: set<string>) {
    k in keys && forall j | j in keys :: LexLe(k, j)
  }

  lemma {:induction false} LeastExists(keys: set<string>)
    requires keys != {}
    ensures exists k :: Least(k, keys)
    decreases keys
  {
    var j :| j in keys;
    if keys == {j} {
      LexTotal(j, j);
      assert Least(j, keys);
    } else {
      LeastExists(keys - {j});
      var k :| Least(k, keys - {j});
      LexTotal(j, k);
      LexTotal(j, j);
      if LexLe(j, k) {
        forall i | i in keys ensures LexLe(j, i) {
          if i != j {
            LexTransitive(j, k, i);
          }
        }
        assert Least(j, keys);
      } else {
        assert Least(k, keys);
      }
    }
  }

  ghost predicate Ascending(a: seq<string>) {
    forall i, j | 0 <= i < j < |a| :: LexLe(a[i], a[j])
  }

  ghost predicate Distinct(a: seq<string>) {
    forall i, j | 0 <= i < j < |a| :: a[i] != a[j]
  }

  /** The keys in ascending order, each once. */
  ghost function SortedKeys(keys: set<string>): (ks: seq<string>)
    ensures forall k :: k in ks <==> k in keys
    ensures Ascending(ks) && Distinct(ks)
    decreases keys
  {
    if keys == {} then []
    else
      LeastExists(keys);
      var k :| Least(k, keys);
      var rest := SortedKeys(keys - {k});
      LeastFirst(k, keys, rest);
      [k] + rest
  }

  lemma LeastFirst(k: string, keys: set<string>, rest: seq<string>)
    requires Least(k, keys) && (forall j :: j in rest <==> j in keys - {k}) && Ascending(rest) && Distinct(rest)
    ensures (forall j :: j in [k] + rest <==> j in keys) && Ascending([k] + rest) && Distinct([k] + rest)
  {
    hide LexLe;
    assert forall j | 0 <= j < |rest| :: rest[j] in rest;
  }

  /** Any ascending arrangement of the keys is that sequence. */
  lemma {:induction false} AscendingIsSorted(ks: seq<string>, keys: set<string>)
    requires forall k :: k in ks <==> k in keys
    requires Ascending(ks) && Distinct(ks)
    ensures ks == SortedKeys(keys)
  {
    var sorted := SortedKeys(keys);
    if ks == [] {
      assert keys == {};
    } else {
      assert ks[0] in keys && sorted[0] in ks && ks[0] in sorted;
      LexTotal(ks[0], ks[0]);
      var i :| 0 <= i < |ks| && ks[i] == sorted[0];
      LexAntisymmetric(ks[0], sorted[0]);
      forall k ensures k in ks[1..] <==> k in keys - {ks[0]} {
        if k in ks && k != ks[0] {
          var j :| 0 <= j < |ks| && ks[j] == k;
          assert ks[1..][j - 1] == k;
        }
      }
      AscendingIsSorted(ks[1..], keys - {ks[0]});
      assert sorted[1..] == SortedKeys(keys - {ks[0]});
    }
  }

  /** Sorts in place. */
  method SortStrings(a: array<string>)
    modifies a
    ensures Ascending(a[..])
    ensures forall k :: k in a[..] <==> k in old(a[..])
    ensures Distinct(old(a[..])) ==> Distinct(a[..])
  {
    forall x, y ensures LexLe(x, y) || LexLe(y, x) { LexTotal(x, y); }
    forall x, y, z ensures LexLe(x, y) && LexLe(y, z) ==> LexLe(x, z) {
      if LexLe(x, y) && LexLe(y, z) {
        LexTransitive(x, y, z);
      }
    }
    Sort(a, LexLe);
    forall k ensures k in a[..] <==> k in old(a[..]) { PermutedMembers(a[..], old(a[..]), k); }
    DistinctCounts(a[..]);
    DistinctCounts(old(a[..]));
    assert forall k :: multiset(a[..])[k] == multiset(old(a[..]))[k];
  }

  /** Distinct means that everything occurs at most once. */
  lemma {:induction false} DistinctCounts(a: seq<string>)
    ensures Distinct(a) <==> forall k :: multiset(a)[k] <= 1
  {
    if a != [] {
      var front, last := a[..|a| - 1], a[|a| - 1];
      DistinctCounts(front);
      assert a == front + [last];
      assert forall k :: multiset(a)[k] == multiset(front)[k] + if k == last then 1 else 0;
      assert last in front <==> last in multiset(front);
      assert Distinct(a) <==> Distinct(front) && last !in front by {
        assert forall i | 0 <= i < |front| :: front[i] == a[i];
      }
    }
  }
}
