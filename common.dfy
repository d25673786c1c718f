/**
 * Small building blocks shared by the bubble-map model: an option type,
 * the JavaScript rounding functions, ASCII lower-casing, sums over
 * sequences and the keyed index that `d3.index` builds.
 */
module Common {

  datatype Option<+T> = None | Some(value: T)

  /** `Math.round`: the nearest integer, halves rounded toward +infinity. */
  function Round(x: real): (n: int)
    ensures x - 0.5 < n as real <= x + 0.5
  {
    (x + 0.5).Floor
  }

  /** `Math.ceil`: the least integer not below `x`. */
  function Ceil(x: real): (n: int)
    ensures x <= n as real < x + 1.0
  {
    -((-x).Floor)
  }

  function LowerChar(c: char): char {
    if 'A' <= c <= 'Z' then (c as int + 32) as char else c
  }

  /** `String.prototype.toLowerCase`, restricted to ASCII letters. */
  function Lower(s: string): (r: string)
    ensures |r| == |s|
    ensures forall i :: 0 <= i < |s| ==> r[i] == LowerChar(s[i])
  {
    if s == [] then [] else [LowerChar(s[0])] + Lower(s[1..])
  }

  /** `d3.sum(s, f)`: the sum of `f` over `s`, in order. */
  function SumBy<T>(s: seq<T>, f: T -> real): real {
    if s == [] then 0.0 else f(s[0]) + SumBy(s[1..], f)
  }

  lemma {:induction false} SumByAppend<T>(a: seq<T>, b: seq<T>, f: T -> real)
    ensures SumBy(a + b, f) == SumBy(a, f) + SumBy(b, f)
  {
    if a == [] {
      assert a + b == b;
    } else {
      assert (a + b)[1..] == a[1..] + b;
      SumByAppend(a[1..], b, f);
    }
  }

  ghost predicate KeysDistinct<T, K>(xs: seq<T>, key: T -> K) {
    forall i, j :: 0 <= i < j < |xs| ==> key(xs[i]) != key(xs[j])
  }

  lemma KeysDistinctCons<T, K>(x: T, t: seq<T>, key: T -> K)
    requires KeysDistinct([x] + t, key)
    ensures KeysDistinct(t, key)
    ensures forall y :: y in t ==> key(y) != key(x)
  {
    var s := [x] + t;
    forall i, j | 0 <= i < j < |t| ensures key(t[i]) != key(t[j]) {
      assert s[i + 1] == t[i] && s[j + 1] == t[j];
    }
    forall y | y in t ensures key(y) != key(x) {
      var j :| 0 <= j < |t| && t[j] == y;
      assert s[j + 1] == y && s[0] == x;
    }
  }

  /** A duplicate key in the tail is a duplicate key of the whole sequence. */
  lemma DuplicateInTail<T, K>(xs: seq<T>, key: T -> K)
    requires xs != [] && !KeysDistinct(xs[1..], key)
    ensures !KeysDistinct(xs, key)
  {
    var i, j :| 0 <= i < j < |xs[1..]| && key(xs[1..][i]) == key(xs[1..][j]);
    assert key(xs[i + 1]) == key(xs[j + 1]);
  }

  /** A head whose key occurs in the tail makes a duplicate key. */
  lemma DuplicateOfHead<T, K>(xs: seq<T>, key: T -> K)
    requires xs != [] && key(xs[0]) in (set x | x in xs[1..] :: key(x))
    ensures !KeysDistinct(xs, key)
  {
    var y :| y in xs[1..] && key(y) == key(xs[0]);
    var j :| 0 <= j < |xs[1..]| && xs[1..][j] == y;
    assert key(xs[0]) == key(xs[j + 1]);
  }

  /** Adding a head with a fresh key to an index of the tail indexes the whole sequence. */
  lemma IndexCons<T, K>(xs: seq<T>, key: T -> K, rest: map<K, T>)
    requires xs != [] && KeysDistinct(xs[1..], key)
    requires rest.Keys == set x | x in xs[1..] :: key(x)
    requires forall i :: 0 <= i < |xs[1..]| ==> rest[key(xs[1..][i])] == xs[1..][i]
    requires key(xs[0]) !in rest
    ensures KeysDistinct(xs, key)
    ensures var m := rest[key(xs[0]) := xs[0]];
      && m.Keys == (set x | x in xs :: key(x))
      && forall i :: 0 <= i < |xs| ==> m[key(xs[i])] == xs[i]
  {
    forall i, j | 0 <= i < j < |xs|
      ensures key(xs[i]) != key(xs[j])
    {
      if i == 0 {
        assert xs[j] == xs[1..][j - 1];
      } else {
        assert xs[i] == xs[1..][i - 1] && xs[j] == xs[1..][j - 1];
      }
    }
    var m := rest[key(xs[0]) := xs[0]];
    assert m.Keys == set x | x in xs :: key(x) by {
      assert xs == [xs[0]] + xs[1..];
    }
    forall i | 0 <= i < |xs| ensures m[key(xs[i])] == xs[i] {
      if i > 0 {
        assert xs[i] == xs[1..][i - 1];
      }
    }
  }

  /**
   * `d3.index(xs, key)`: a map from each element's key to the element.
   * `d3.index` throws on a duplicate key; that outcome is `None`.
   */
  function IndexBy<T, K>(xs: seq<T>, key: T -> K): (r: Option<map<K, T>>)
    ensures r.Some? <==> KeysDistinct(xs, key)
    ensures r.Some? ==> r.value.Keys == set x | x in xs :: key(x)
    ensures r.Some? ==> forall i :: 0 <= i < |xs| ==> r.value[key(xs[i])] == xs[i]
  {
    if xs == [] then Some(map[])
    else
      var rest := IndexBy(xs[1..], key);
      if rest.None? then
        DuplicateInTail(xs, key);
        None
      else if key(xs[0]) in rest.value then
        DuplicateOfHead(xs, key);
        None
      else
        IndexCons(xs, key, rest.value);
        Some(rest.value[key(xs[0]) := xs[0]])
  }
}
