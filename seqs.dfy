/**
 * Sequence operations shared by the list transformations of the client and
 * the edge functions: JavaScript's Array.prototype.filter, de-duplication by
 * a key with a `Set` of seen keys, and Array.prototype.slice(0, n).
 */
module Seqs {

  /** `s.filter(p)`: the elements satisfying `p`, in their original order. */
  function Filter<T>(s: seq<T>, p: T -> bool): (r: seq<T>)
    ensures |r| <= |s|
    ensures forall x :: x in r ==> x in s && p(x)
    ensures forall x :: x in s && p(x) ==> x in r
  {
    if s == [] then []
    else (if p(s[0]) then [s[0]] else []) + Filter(s[1..], p)
  }

  /** Filtering distributes over concatenation: relative order is preserved. */
  lemma {:induction false} FilterConcat<T>(a: seq<T>, b: seq<T>, p: T -> bool)
    ensures Filter(a + b, p) == Filter(a, p) + Filter(b, p)
  {
    if a == [] {
      assert a + b == b;
    } else {
      assert (a + b)[1..] == a[1..] + b;
      FilterConcat(a[1..], b, p);
    }
  }

  /** A filter that keeps every element is the identity. */
  lemma {:induction false} FilterKeepsAll<T>(s: seq<T>, p: T -> bool)
    requires forall x :: x in s ==> p(x)
    ensures Filter(s, p) == s
  {
    if s != [] {
      FilterKeepsAll(s[1..], p);
    }
  }

  /** A filter that keeps no element yields the empty sequence. */
  lemma {:induction false} FilterKeepsNone<T>(s: seq<T>, p: T -> bool)
    requires forall x :: x in s ==> !p(x)
    ensures Filter(s, p) == []
  {
    if s != [] {
      FilterKeepsNone(s[1..], p);
    }
  }

  /** The filter keeps the whole sequence exactly when every element satisfies `p`. */
  lemma {:induction false} FilterSameLength<T>(s: seq<T>, p: T -> bool)
    ensures |Filter(s, p)| == |s| <==> forall x :: x in s ==> p(x)
  {
    if s != [] {
      FilterSameLength(s[1..], p);
      assert forall x :: x in s <==> x == s[0] || x in s[1..];
    }
  }

  /** Filtering twice by the same predicate is filtering once. */
  lemma FilterIdempotent<T>(s: seq<T>, p: T -> bool)
    ensures Filter(Filter(s, p), p) == Filter(s, p)
  {
    FilterKeepsAll(Filter(s, p), p);
  }

  /** Filtering the last element off: the prefix-wise view of Filter. */
  lemma FilterSnoc<T>(s: seq<T>, x: T, p: T -> bool)
    ensures Filter(s + [x], p) == Filter(s, p) + (if p(x) then [x] else [])
  {
    FilterConcat(s, [x], p);
    assert [x][1..] == [];
  }

  /** The number of elements satisfying `p`. */
  function Count<T>(s: seq<T>, p: T -> bool): (n: nat)
    ensures n <= |s|
  {
    |Filter(s, p)|
  }

  /** The positions of `s` whose element satisfies `p`. */
  function Positions<T>(s: seq<T>, p: T -> bool): set<int>
  {
    set i | 0 <= i < |s| && p(s[i])
  }

  /** Appending an element adds its position exactly when it satisfies `p`. */
  lemma PositionsSnoc<T>(s: seq<T>, x: T, p: T -> bool)
    ensures |Positions(s + [x], p)| == |Positions(s, p)| + (if p(x) then 1 else 0)
  {
    var t := s + [x];
    var extra: set<int> := if p(x) then {|s|} else {};
    forall i | 0 <= i < |s|
      ensures i in Positions(t, p) <==> i in Positions(s, p)
    {
      assert t[i] == s[i];
    }
    assert Positions(t, p) == Positions(s, p) + extra;
    assert |s| !in Positions(s, p);
  }

  /** The count is the number of positions whose element satisfies `p`. */
  lemma {:induction false} CountIndices<T>(s: seq<T>, p: T -> bool)
    ensures Count(s, p) == |Positions(s, p)|
    decreases |s|
  {
    if s == [] {
      assert Positions(s, p) == {};
    } else {
      var k := |s| - 1;
      assert s == s[..k] + [s[k]];
      CountIndices(s[..k], p);
      FilterSnoc(s[..k], s[k], p);
      PositionsSnoc(s[..k], s[k], p);
    }
  }

  /** Two selectors no element satisfies together count no more elements than there are. */
  lemma {:induction false} CountDisjoint<T>(s: seq<T>, p: T -> bool, q: T -> bool)
    requires forall x :: x in s ==> !(p(x) && q(x))
    ensures Count(s, p) + Count(s, q) <= |s|
  {
    if s != [] {
      assert s[0] in s;
      CountDisjoint(s[1..], p, q);
    }
  }

  /** `a` is a subsequence of `b`: `a` is `b` with some elements dropped, order kept. */
  ghost predicate IsSubseq<T>(a: seq<T>, b: seq<T>)
    decreases |b|
  {
    if a == [] then true
    else if b == [] then false
    else if a[|a| - 1] == b[|b| - 1] then IsSubseq(a[..|a| - 1], b[..|b| - 1])
    else IsSubseq(a, b[..|b| - 1])
  }

  /** Appending to the larger sequence keeps a subsequence a subsequence. */
  lemma {:induction false} SubseqSnoc<T>(a: seq<T>, b: seq<T>, x: T)
    requires IsSubseq(a, b)
    ensures IsSubseq(a, b + [x])
    decreases |b|, 1
  {
    if a != [] {
      assert (b + [x])[..|b|] == b;
      if a[|a| - 1] == x {
        SubseqPrefix(a, b);
      }
    }
  }

  /** Dropping the last element of a subsequence keeps it a subsequence. */
  lemma {:induction false} SubseqPrefix<T>(a: seq<T>, b: seq<T>)
    requires a != [] && IsSubseq(a, b)
    ensures IsSubseq(a[..|a| - 1], b)
    decreases |b|, 0
  {
    var a' := a[..|a| - 1];
    if a[|a| - 1] == b[|b| - 1] {
      if a' != [] {
        SubseqSnoc(a', b[..|b| - 1], b[|b| - 1]);
        assert b[..|b| - 1] + [b[|b| - 1]] == b;
      }
    } else {
      SubseqPrefix(a, b[..|b| - 1]);
      if a' != [] {
        SubseqSnoc(a', b[..|b| - 1], b[|b| - 1]);
        assert b[..|b| - 1] + [b[|b| - 1]] == b;
      }
    }
  }

  /** Every sequence is a subsequence of itself. */
  lemma {:induction false} SubseqRefl<T>(s: seq<T>)
    ensures IsSubseq(s, s)
    decreases |s|
  {
    if s != [] {
      SubseqRefl(s[..|s| - 1]);
    }
  }

  /** A non-empty set has an element. */
  lemma HasKey<K>(keys: set<K>)
    requires keys != {}
    ensures exists k :: k in keys
  {
    if forall k :: k !in keys {
      assert false;
    }
  }

  /** Some key of a non-empty map. */
  ghost function SomeKey<K, V>(m: map<K, V>): (k: K)
    requires m.Keys != {}
    ensures k in m
  {
    HasKey(m.Keys);
    var k :| k in m.Keys; k
  }

  /** The number of elements across all the lists of a map. */
  ghost function TotalLength<K, V>(m: map<K, seq<V>>): nat
    decreases |m.Keys|
  {
    if m.Keys == {} then 0
    else
      var k := SomeKey(m);
      assert |(m - {k}).Keys| < |m.Keys| by {
        assert (m - {k}).Keys == m.Keys - {k};
      }
      |m[k]| + TotalLength(m - {k})
  }

  /** The count can start from any key. */
  lemma {:induction false} TotalLengthRemove<K, V>(m: map<K, seq<V>>, x: K)
    requires x in m
    ensures TotalLength(m) == |m[x]| + TotalLength(m - {x})
    decreases |m.Keys|
  {
    var k := SomeKey(m);
    assert TotalLength(m) == |m[k]| + TotalLength(m - {k});
    if k != x {
      var mk, mx := m - {k}, m - {x};
      assert mk.Keys == m.Keys - {k};
      assert mx.Keys == m.Keys - {x};
      TotalLengthRemove(mk, x);
      TotalLengthRemove(mx, k);
      assert mk - {x} == mx - {k};
    }
  }

  /** Setting one key changes the count by the difference in that key's length. */
  lemma TotalLengthUpdate<K, V>(m: map<K, seq<V>>, x: K, v: seq<V>)
    ensures TotalLength(m[x := v]) == TotalLength(m) - (if x in m then |m[x]| else 0) + |v|
  {
    TotalLengthRemove(m[x := v], x);
    if x in m {
      TotalLengthRemove(m, x);
      assert m[x := v] - {x} == m - {x};
    } else {
      assert m[x := v] - {x} == m;
    }
  }

  /** The elements of a subsequence are elements of the sequence. */
  lemma {:induction false} SubseqMembers<T>(a: seq<T>, b: seq<T>, x: T)
    requires IsSubseq(a, b) && x in a
    ensures x in b
    decreases |b|
  {
    var init := b[..|b| - 1];
    assert b == init + [b[|b| - 1]];
    if a[|a| - 1] == b[|b| - 1] {
      if x != a[|a| - 1] {
        assert a == a[..|a| - 1] + [a[|a| - 1]];
        SubseqMembers(a[..|a| - 1], init, x);
      }
    } else {
      SubseqMembers(a, init, x);
    }
  }

  /** A filtered sequence is a subsequence of the original one. */
  lemma {:induction false} FilterIsSubseq<T>(s: seq<T>, p: T -> bool)
    ensures IsSubseq(Filter(s, p), s)
    decreases |s|
  {
    if s != [] {
      var init, last := s[..|s| - 1], s[|s| - 1];
      assert init + [last] == s;
      FilterSnoc(init, last, p);
      FilterIsSubseq(init, p);
      if p(last) {
        var r := Filter(init, p) + [last];
        assert r[..|r| - 1] == Filter(init, p);
        assert s[..|s| - 1] == init;
      } else {
        assert Filter(s, p) == Filter(init, p);
        SubseqSnoc(Filter(init, p), init, last);
      }
    }
  }

  /** The keys of the elements of `s`. */
  function KeysOf<T, K>(s: seq<T>, key: T -> K): set<K>
  {
    set i | 0 <= i < |s| :: key(s[i])
  }

  /** No two elements of `s` share a key. */
  predicate DistinctKeys<T, K(==)>(s: seq<T>, key: T -> K)
  {
    forall i, j :: 0 <= i < j < |s| ==> key(s[i]) != key(s[j])
  }

  /** There are at most as many keys as elements, and exactly as many iff the keys are distinct. */
  lemma {:induction false} KeysOfCard<T, K>(s: seq<T>, key: T -> K)
    ensures |KeysOf(s, key)| <= |s|
    ensures DistinctKeys(s, key) <==> |KeysOf(s, key)| == |s|
    decreases |s|
  {
    if s != [] {
      var init, last := s[..|s| - 1], s[|s| - 1];
      assert init + [last] == s;
      KeysOfCard(init, key);
      KeysOfSnoc(init, last, key);
      if key(last) in KeysOf(init, key) {
        var i :| 0 <= i < |init| && key(init[i]) == key(last);
        assert s[i] == init[i];
        assert !DistinctKeys(s, key);
      } else if DistinctKeys(init, key) {
        forall i, j | 0 <= i < j < |s| ensures key(s[i]) != key(s[j]) {
          assert s[i] == init[i];
          if j < |s| - 1 {
            assert s[j] == init[j];
          } else {
            assert key(init[i]) in KeysOf(init, key);
          }
        }
      } else {
        var i, j :| 0 <= i < j < |init| && key(init[i]) == key(init[j]);
        assert s[i] == init[i] && s[j] == init[j];
      }
    }
  }

  /** Filtering keeps keys distinct. */
  lemma {:induction false} FilterDistinctKeys<T, K>(s: seq<T>, p: T -> bool, key: T -> K)
    requires DistinctKeys(s, key)
    ensures DistinctKeys(Filter(s, p), key)
    decreases |s|
  {
    if s != [] {
      var rest := Filter(s[1..], p);
      assert DistinctKeys(s[1..], key) by {
        forall i, j | 0 <= i < j < |s[1..]| ensures key(s[1..][i]) != key(s[1..][j]) {
          assert s[1..][i] == s[i + 1] && s[1..][j] == s[j + 1];
        }
      }
      FilterDistinctKeys(s[1..], p, key);
      if p(s[0]) {
        var r := [s[0]] + rest;
        forall i, j | 0 <= i < j < |r| ensures key(r[i]) != key(r[j]) {
          if i == 0 {
            assert r[j] == rest[j - 1];
            assert r[j] in s[1..];
            var k :| 0 <= k < |s[1..]| && s[1..][k] == r[j];
            assert s[k + 1] == r[j];
          } else {
            assert r[i] == rest[i - 1] && r[j] == rest[j - 1];
          }
        }
      }
    }
  }

  /**
   * De-duplication by key with a `Set` of seen keys: the elements whose key
   * has not been seen before, in order; the first occurrence of a key wins.
   * Defined prefix by prefix, as a loop over the input visits it.
   */
  function KeepFirstBy<T, K(==)>(s: seq<T>, key: T -> K): (r: seq<T>)
    ensures |r| <= |s|
    ensures DistinctKeys(r, key)
    ensures KeysOf(r, key) == KeysOf(s, key)
    decreases |s|
  {
    if s == [] then []
    else
      var init, last := s[..|s| - 1], s[|s| - 1];
      assert s == init + [last];
      var r0 := KeepFirstBy(init, key);
      KeysOfSnoc(init, last, key);
      if key(last) in KeysOf(r0, key) then r0
      else KeysOfSnoc(r0, last, key); r0 + [last]
  }

  /** Appending an element adds its key. */
  lemma KeysOfSnoc<T, K>(s: seq<T>, x: T, key: T -> K)
    ensures KeysOf(s + [x], key) == KeysOf(s, key) + {key(x)}
  {
    var t := s + [x];
    forall k | k in KeysOf(t, key) ensures k in KeysOf(s, key) + {key(x)} {
      var i :| 0 <= i < |t| && key(t[i]) == k;
      if i < |s| { assert t[i] == s[i]; }
    }
    forall k | k in KeysOf(s, key) ensures k in KeysOf(t, key) {
      var i :| 0 <= i < |s| && key(s[i]) == k;
      assert t[i] == s[i];
    }
    assert t[|s|] == x;
  }

  /** De-duplication keeps the relative order of what it keeps. */
  lemma {:induction false} KeepFirstByIsSubseq<T, K>(s: seq<T>, key: T -> K)
    ensures IsSubseq(KeepFirstBy(s, key), s)
    decreases |s|
  {
    if s != [] {
      var init, last := s[..|s| - 1], s[|s| - 1];
      KeepFirstByIsSubseq(init, key);
      var r0 := KeepFirstBy(init, key);
      if key(last) in KeysOf(r0, key) {
        SubseqSnoc(r0, init, last);
        assert init + [last] == s;
      } else {
        var r := r0 + [last];
        assert r[..|r| - 1] == r0;
      }
    }
  }

  /** The first element carrying a given key is the one kept. */
  lemma {:induction false} KeepFirstByKeepsFirst<T, K>(s: seq<T>, key: T -> K, j: int)
    requires 0 <= j < |s|
    requires forall i :: 0 <= i < j ==> key(s[i]) != key(s[j])
    ensures s[j] in KeepFirstBy(s, key)
    decreases |s|
  {
    var init, last := s[..|s| - 1], s[|s| - 1];
    var r0 := KeepFirstBy(init, key);
    if j == |s| - 1 {
      assert key(last) !in KeysOf(init, key) by {
        forall i | 0 <= i < |init| ensures key(init[i]) != key(last) {
          assert init[i] == s[i];
        }
      }
    } else {
      assert init[j] == s[j];
      KeepFirstByKeepsFirst(init, key, j);
    }
  }

  /** `s.slice(0, n)`: the first `n` elements, or all of them when there are fewer. */
  function Take<T>(s: seq<T>, n: nat): (r: seq<T>)
    ensures |r| == if |s| < n then |s| else n
    ensures forall i :: 0 <= i < |r| ==> r[i] == s[i]
  {
    if |s| <= n then s else s[..n]
  }
}
