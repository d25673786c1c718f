/**
 * Stable descending sort by a numeric key: what
 * `xs.sort((a, b) => d3.descending(key(a), key(b)))` computes, since
 * `Array.prototype.sort` is stable. `SortDesc` is the insertion-sort
 * definition; `SortDescInPlace` is the in-place version on an array.
 * Stability is stated per key value: for every value `v`, the elements
 * whose key is `v` appear in the same order as in the input.
 */
module Ordering {
  import opened Common

  /** Places `x` in front of the first element whose key is not above `key(x)`. */
  function Insert<T>(x: T, t: seq<T>, key: T -> real): (r: seq<T>)
    ensures |r| == |t| + 1
  {
    if t == [] || key(x) >= key(t[0]) then [x] + t else [t[0]] + Insert(x, t[1..], key)
  }

  function SortDesc<T>(s: seq<T>, key: T -> real): (r: seq<T>)
    ensures |r| == |s|
  {
    if s == [] then [] else Insert(s[0], SortDesc(s[1..], key), key)
  }

  ghost predicate NonIncreasing<T>(s: seq<T>, key: T -> real) {
    forall i, j :: 0 <= i < j < |s| ==> key(s[i]) >= key(s[j])
  }

  /** The elements of `s` whose key is `v`, in their order in `s`. */
  function FilterKey<T>(s: seq<T>, key: T -> real, v: real): seq<T> {
    if s == [] then [] else (if key(s[0]) == v then [s[0]] else []) + FilterKey(s[1..], key, v)
  }

  lemma {:induction false} InsertSorted<T>(x: T, t: seq<T>, key: T -> real)
    requires NonIncreasing(t, key)
    ensures NonIncreasing(Insert(x, t, key), key)
    ensures forall i :: 0 <= i < |t| + 1 ==> Insert(x, t, key)[i] == x || Insert(x, t, key)[i] in t
  {
    if t == [] || key(x) >= key(t[0]) {
    } else {
      InsertSorted(x, t[1..], key);
      var r := Insert(x, t, key);
      forall i | 0 < i < |r| ensures key(r[0]) >= key(r[i]) {
        assert r[i] == x || r[i] in t[1..];
      }
    }
  }

  lemma {:induction false} InsertMultiset<T>(x: T, t: seq<T>, key: T -> real)
    ensures multiset(Insert(x, t, key)) == multiset{x} + multiset(t)
  {
    if t == [] || key(x) >= key(t[0]) {
    } else {
      InsertMultiset(x, t[1..], key);
      assert t == [t[0]] + t[1..];
    }
  }

  lemma FilterKeyCons<T>(y: T, u: seq<T>, key: T -> real, v: real)
    ensures FilterKey([y] + u, key, v) == (if key(y) == v then [y] else []) + FilterKey(u, key, v)
  {
    assert ([y] + u)[1..] == u;
  }

  lemma {:induction false} InsertFilterKey<T>(x: T, t: seq<T>, key: T -> real, v: real)
    ensures FilterKey(Insert(x, t, key), key, v)
         == (if key(x) == v then [x] else []) + FilterKey(t, key, v)
  {
    if t == [] || key(x) >= key(t[0]) {
      FilterKeyCons(x, t, key, v);
    } else {
      var u := Insert(x, t[1..], key);
      assert Insert(x, t, key) == [t[0]] + u;
      InsertFilterKey(x, t[1..], key, v);
      FilterKeyCons(t[0], u, key, v);
      FilterKeyCons(t[0], t[1..], key, v);
      assert t == [t[0]] + t[1..];
      var rest := FilterKey(t[1..], key, v);
      if key(t[0]) == v {
        assert key(x) != v;
        assert FilterKey(Insert(x, t, key), key, v) == [t[0]] + ([] + rest);
      } else {
        assert FilterKey(Insert(x, t, key), key, v) == [] + FilterKey(u, key, v);
      }
    }
  }

  lemma {:induction false} InsertSum<T>(x: T, t: seq<T>, key: T -> real, f: T -> real)
    ensures SumBy(Insert(x, t, key), f) == f(x) + SumBy(t, f)
  {
    if t == [] || key(x) >= key(t[0]) {
      assert ([x] + t)[1..] == t;
    } else {
      InsertSum(x, t[1..], key, f);
      assert ([t[0]] + Insert(x, t[1..], key))[1..] == Insert(x, t[1..], key);
    }
  }

  /** The result is ordered by non-increasing key. */
  lemma {:induction false} SortDescSorted<T>(s: seq<T>, key: T -> real)
    ensures NonIncreasing(SortDesc(s, key), key)
  {
    if s != [] {
      SortDescSorted(s[1..], key);
      InsertSorted(s[0], SortDesc(s[1..], key), key);
    }
  }

  /** The result is a permutation of the input. */
  lemma {:induction false} SortDescPermutation<T>(s: seq<T>, key: T -> real)
    ensures multiset(SortDesc(s, key)) == multiset(s)
  {
    if s != [] {
      SortDescPermutation(s[1..], key);
      InsertMultiset(s[0], SortDesc(s[1..], key), key);
      assert s == [s[0]] + s[1..];
    }
  }

  /** Elements with equal keys keep their input order. */
  lemma {:induction false} SortDescStable<T>(s: seq<T>, key: T -> real, v: real)
    ensures FilterKey(SortDesc(s, key), key, v) == FilterKey(s, key, v)
  {
    if s != [] {
      SortDescStable(s[1..], key, v);
      InsertFilterKey(s[0], SortDesc(s[1..], key), key, v);
    }
  }

  /** Sorting does not change a sum taken over the elements. */
  lemma {:induction false} SortDescSum<T>(s: seq<T>, key: T -> real, f: T -> real)
    ensures SumBy(SortDesc(s, key), f) == SumBy(s, f)
  {
    if s != [] {
      SortDescSum(s[1..], key, f);
      InsertSum(s[0], SortDesc(s[1..], key), key, f);
    }
  }

  lemma {:induction false} FilterKeyHas<T>(s: seq<T>, key: T -> real, v: real)
    requires FilterKey(s, key, v) != []
    ensures exists j :: 0 <= j < |s| && key(s[j]) == v
  {
    if key(s[0]) != v {
      FilterKeyHas(s[1..], key, v);
      var j :| 0 <= j < |s[1..]| && key(s[1..][j]) == v;
      assert key(s[j + 1]) == v;
    }
  }

  /**
   * Being ordered by non-increasing key and keeping the order of equal keys
   * determine a sequence: two such arrangements of the same elements agree.
   */
  lemma {:induction false} StableArrangementUnique<T>(r1: seq<T>, r2: seq<T>, key: T -> real)
    requires NonIncreasing(r1, key) && NonIncreasing(r2, key)
    requires forall v :: FilterKey(r1, key, v) == FilterKey(r2, key, v)
    ensures r1 == r2
  {
    if r1 == [] || r2 == [] {
      var r := if r1 == [] then r2 else r1;
      if r != [] {
        assert FilterKey(r1, key, key(r[0])) != FilterKey(r2, key, key(r[0]));
      }
    } else {
      var k1, k2 := key(r1[0]), key(r2[0]);
      assert FilterKey(r1, key, k1) != [];
      FilterKeyHas(r2, key, k1);
      assert FilterKey(r2, key, k2) != [];
      FilterKeyHas(r1, key, k2);
      assert k1 == k2;
      assert FilterKey(r1, key, k1) == [r1[0]] + FilterKey(r1[1..], key, k1);
      assert FilterKey(r2, key, k1) == [r2[0]] + FilterKey(r2[1..], key, k1);
      assert r1[0] == r2[0] by {
        assert FilterKey(r1, key, k1)[0] == r1[0];
        assert FilterKey(r2, key, k1)[0] == r2[0];
      }
      forall v ensures FilterKey(r1[1..], key, v) == FilterKey(r2[1..], key, v) {
        var a, b := FilterKey(r1[1..], key, v), FilterKey(r2[1..], key, v);
        assert FilterKey(r1, key, v) == FilterKey(r2, key, v);
        if key(r1[0]) == v {
          assert ([r1[0]] + a)[1..] == a && ([r2[0]] + b)[1..] == b;
        } else {
          assert [] + a == a && [] + b == b;
        }
      }
      StableArrangementUnique(r1[1..], r2[1..], key);
      assert r1 == [r1[0]] + r1[1..] && r2 == [r2[0]] + r2[1..];
    }
  }

  /**
   * `SortDesc` is the only arrangement of `s` that is ordered by
   * non-increasing key and stable: any such `r` equals it.
   */
  lemma SortDescCharacterised<T>(s: seq<T>, r: seq<T>, key: T -> real)
    requires NonIncreasing(r, key)
    requires forall v :: FilterKey(r, key, v) == FilterKey(s, key, v)
    ensures r == SortDesc(s, key)
  {
    SortDescSorted(s, key);
    forall v ensures FilterKey(r, key, v) == FilterKey(SortDesc(s, key), key, v) {
      SortDescStable(s, key, v);
    }
    StableArrangementUnique(r, SortDesc(s, key), key);
  }

  lemma {:induction false} InsertAt<T>(x: T, t: seq<T>, k: nat, key: T -> real)
    requires k <= |t|
    requires forall q :: 0 <= q < k ==> key(t[q]) > key(x)
    requires k == |t| || key(x) >= key(t[k])
    ensures Insert(x, t, key) == t[..k] + [x] + t[k..]
  {
    if k > 0 {
      InsertAt(x, t[1..], k - 1, key);
      assert t[1..][..k - 1] == t[1..k];
      assert t[1..][k - 1..] == t[k..];
      assert t[..k] == [t[0]] + t[1..k];
    }
  }

  function Reverse<T>(s: seq<T>): (r: seq<T>)
    ensures |r| == |s|
    ensures forall i :: 0 <= i < |s| ==> r[i] == s[|s| - 1 - i]
  {
    if s == [] then [] else Reverse(s[1..]) + [s[0]]
  }

  ghost predicate StrictlyIncreasing<T>(s: seq<T>, key: T -> real) {
    forall i, j :: 0 <= i < j < |s| ==> key(s[i]) < key(s[j])
  }

  ghost predicate Distinct<T>(s: seq<T>) {
    forall i, j :: 0 <= i < j < |s| ==> s[i] != s[j]
  }

  lemma {:induction false} DistinctCount<T>(s: seq<T>, x: T)
    requires Distinct(s)
    ensures multiset(s)[x] <= 1
  {
    if s != [] {
      assert Distinct(s[1..]) by {
        forall i, j | 0 <= i < j < |s[1..]| ensures s[1..][i] != s[1..][j] {
          assert s[1..][i] == s[i + 1] && s[1..][j] == s[j + 1];
        }
      }
      DistinctCount(s[1..], x);
      assert s == [s[0]] + s[1..];
      assert s[0] !in s[1..];
    }
  }

  /** A rearrangement of a sequence without repetitions has none either. */
  lemma PermutationDistinct<T>(a: seq<T>, b: seq<T>)
    requires multiset(a) == multiset(b) && Distinct(a)
    ensures Distinct(b)
  {
    forall i, j | 0 <= i < j < |b| ensures b[i] != b[j] {
      DistinctCount(a, b[i]);
      assert b == b[..j] + b[j..];
      assert b[i] in b[..j];
      assert multiset(b[j..])[b[i]] == 0;
      assert b[j] in b[j..];
    }
  }

  /** Sorting a sequence whose keys strictly increase reverses it. */
  lemma {:induction false} SortDescOfIncreasing<T>(s: seq<T>, key: T -> real)
    requires StrictlyIncreasing(s, key)
    ensures SortDesc(s, key) == Reverse(s)
  {
    if s != [] {
      SortDescOfIncreasing(s[1..], key);
      var t := Reverse(s[1..]);
      InsertAt(s[0], t, |t|, key);
      assert t[..|t|] == t && t[|t|..] == [];
    }
  }

  /**
   * Moves `a[i]` rightwards past the larger keys of the sorted suffix
   * `a[i + 1..]`, shifting them one place left.
   */
  method InsertInPlace<T>(a: array<T>, i: nat, key: T -> real)
    requires i < a.Length
    modifies a
    ensures a[..i] == old(a[..i])
    ensures a[i..] == Insert(old(a[i]), old(a[i + 1..]), key)
  {
    var x := a[i];
    ghost var t := a[i + 1..];
    var j := i;
    while j + 1 < a.Length && key(x) < key(a[j + 1])
      invariant i <= j < a.Length
      invariant a[..i] == old(a[..i])
      invariant forall q :: 0 <= q < j - i ==> a[i + q] == t[q]
      invariant forall q :: j - i <= q < |t| ==> a[i + 1 + q] == t[q]
      invariant forall q :: 0 <= q < j - i ==> key(t[q]) > key(x)
    {
      a[j] := a[j + 1];
      j := j + 1;
    }
    a[j] := x;
    InsertAt(x, t, j - i, key);
    PlacedAt(a[..], i, j, x, t);
    assert a[i..] == a[..][i..];
  }

  /**
   * The suffix from `i` holds `t` with `x` placed at `j`, when every
   * position before `j` holds its element of `t`, `j` holds `x`, and every
   * position after `j` holds the element of `t` one to its left.
   */
  lemma PlacedAt<T>(b: seq<T>, i: nat, j: nat, x: T, t: seq<T>)
    requires i <= j < |b| && |b| == i + 1 + |t|
    requires forall q :: 0 <= q < j - i ==> b[i + q] == t[q]
    requires b[j] == x
    requires forall q :: j - i <= q < |t| ==> b[i + 1 + q] == t[q]
    ensures b[i..] == t[..j - i] + [x] + t[j - i..]
  {
    var r := t[..j - i] + [x] + t[j - i..];
    forall q | 0 <= q < |r| ensures b[i + q] == r[q] {
      if q < j - i {
        assert r[q] == t[q];
      } else if q > j - i {
        assert r[q] == t[q - 1];
      }
    }
  }

  /** In-place stable descending sort of an array. */
  method SortDescInPlace<T>(a: array<T>, key: T -> real)
    modifies a
    ensures a[..] == SortDesc(old(a[..]), key)
  {
    ghost var s := a[..];
    var i := a.Length;
    while i > 0
      invariant 0 <= i <= a.Length
      invariant a[..i] == s[..i]
      invariant a[i..] == SortDesc(s[i..], key)
    {
      i := i - 1;
      assert s[i..] == [s[i]] + s[i + 1..];
      InsertInPlace(a, i, key);
    }
    assert a[..] == a[0..];
  }
}
