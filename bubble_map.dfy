/**
 * The bubble map component (js/vis-bubble-map.js): it prepares the world
 * features and the master table once, aggregates the brand table per
 * country for the selected category, and keeps the country paths, the
 * bubbles, the size legend and the tooltip in step with the aggregate, the
 * container size, the zoom level and the pointer.
 *
 * Drawing is modelled by the state it leaves: one path per feature with its
 * `is-active` class and whether pointer listeners are attached, the
 * stacking order of the paths, and one bubble per aggregated country with
 * its anchor, total, `is-active` class and radius.
 */
module BubbleMap {
  import opened Common
  import opened Ordering
  import opened Categories
  import opened Geo
  import opened Aggregation
  import opened SizeLegendView
  import opened TooltipView

  const MarginTop := 32
  const MarginRight := 16
  const MarginBottom := 32
  const MarginLeft := 16
  /** The zoom behaviour's scale extent. */
  const MinZoom := 1.0
  const MaxZoom := 32.0

  /** The radius scale `this.r`: a square-root scale from [0, `domainMax`] to [0, `rangeMax`]. */
  datatype SqrtScale = SqrtScale(domainMax: Option<int>, rangeMax: int)

  /** A country path: its feature's id and code, its `is-active` class, and whether it has pointer listeners. */
  datatype CountryPath = CountryPath(id: string, code: string, active: bool, listening: bool)

  /** A bubble: its country, the country's total, its `is-active` class, its anchor and its radius. */
  datatype Bubble = Bubble(code: string, total: real, active: bool, center: Point, radius: real)

  /** What the tooltip shows for a country: its name, its total and its rows. */
  datatype Content = Content(countryName: string, total: real, topBrands: seq<Row>)

  function Max(a: int, b: int): int {
    if a >= b then a else b
  }

  /** The sort key of the bubble data: a country's total. */
  function TotalKey(m: map<string, CountryValue>): string -> real {
    c => if c in m then m[c].total else 0.0
  }

  /** The bubble data in join order: the rollup's keys sorted by descending total, stably. */
  function BubbleData(m: map<string, CountryValue>, keys: seq<string>): seq<string> {
    SortDesc(keys, TotalKey(m))
  }

  /**
   * Sorting the rollup's keys by total keeps each key once and orders the
   * keys from the largest total to the smallest.
   */
  lemma SortedKeys(m: map<string, CountryValue>, keys: seq<string>)
    requires Distinct(keys)
    ensures var data := BubbleData(m, keys);
      && (forall c :: c in data <==> c in keys)
      && Distinct(data)
      && (forall i, j :: 0 <= i < j < |data| ==> TotalKey(m)(data[i]) >= TotalKey(m)(data[j]))
  {
    var data := BubbleData(m, keys);
    SortDescPermutation(keys, TotalKey(m));
    SortDescSorted(keys, TotalKey(m));
    PermutationDistinct(keys, data);
    forall c ensures c in data <==> c in keys {
      assert c in data <==> c in multiset(data);
    }
  }

  /**
   * Bubble data built from a key order that lists each aggregated country
   * once, where every aggregated country has an anchored feature.
   */
  lemma DrawableData(m: map<string, CountryValue>, keys: seq<string>, fbc: map<string, Feature>)
    requires Distinct(keys) && forall c :: c in keys <==> c in m
    requires forall c :: c in m ==> c in fbc && fbc[c].center.Some?
    ensures var data := BubbleData(m, keys);
      && (forall c :: c in data <==> c in m)
      && Distinct(data)
      && (forall i, j :: 0 <= i < j < |data| ==> m[data[i]].total >= m[data[j]].total)
      && (forall i :: 0 <= i < |data| ==> data[i] in fbc && fbc[data[i]].center.Some?)
  {
    var data := BubbleData(m, keys);
    SortedKeys(m, keys);
    forall i, j | 0 <= i < j < |data| ensures m[data[i]].total >= m[data[j]].total {
      assert data[i] in data && data[j] in data;
      assert TotalKey(m)(data[i]) >= TotalKey(m)(data[j]);
    }
    forall i | 0 <= i < |data| ensures data[i] in fbc && fbc[data[i]].center.Some? {
      assert data[i] in data;
    }
  }

  /**
   * The bubbles are the aggregated countries, each once, from the largest
   * total to the smallest (so smaller bubbles are drawn over larger ones),
   * ties in the rollup's order; every one of them has a feature with an
   * anchor.
   */
  lemma BubbleLayout(fs: seq<Feature>, brands: seq<BrandRecord>, brandById: map<string, MasterRecord>, selected: string)
    requires Indexable(fs)
    ensures var fbc := GeoIndex(fs);
      var m := Aggregate(brands, fbc.Keys, brandById, selected);
      var data := BubbleData(m, FirstAppearance(Kept(brands, fbc.Keys, brandById, selected)));
      && (forall c :: c in data <==> c in m)
      && Distinct(data)
      && (forall i, j :: 0 <= i < j < |data| ==> m[data[i]].total >= m[data[j]].total)
      && (forall i :: 0 <= i < |data| ==> data[i] in fbc && fbc[data[i]].center.Some?)
  {
    var fbc := GeoIndex(fs);
    var m := Aggregate(brands, fbc.Keys, brandById, selected);
    var keys := FirstAppearance(Kept(brands, fbc.Keys, brandById, selected));
    AggregateKeyOrder(brands, fbc.Keys, brandById, selected);
    IndexedCentres(fs);
    assert m.Keys <= fbc.Keys;
    DrawableData(m, keys, fbc);
  }

  function Indices(n: nat): (r: seq<nat>)
    ensures |r| == n
    ensures forall i :: 0 <= i < n ==> r[i] == i
  {
    seq(n, i requires 0 <= i < n => i)
  }

  /** A stacking order of `n` paths: every path index exactly once. */
  ghost predicate IsStacking(s: seq<nat>, n: nat) {
    multiset(s) == multiset(Indices(n))
  }

  /** A stacking order of `n` paths has `n` entries. */
  lemma StackingLength(s: seq<nat>, n: nat)
    requires IsStacking(s, n)
    ensures |s| == n
  {
    assert |s| == |multiset(s)| == |multiset(Indices(n))| == n;
  }

  /**
   * The entries `x` of `s`, in their order, for which whether path `x` has
   * code `c` is `matching`.
   */
  function Select(s: seq<nat>, paths: seq<CountryPath>, c: string, matching: bool): (r: seq<nat>)
    ensures forall x :: x in r <==> x in s && x < |paths| && (paths[x].code == c) == matching
  {
    if s == [] then []
    else
      (if s[0] < |paths| && (paths[s[0]].code == c) == matching then [s[0]] else [])
      + Select(s[1..], paths, c, matching)
  }

  lemma {:induction false} SelectCount(s: seq<nat>, paths: seq<CountryPath>, c: string, matching: bool, x: nat)
    ensures multiset(Select(s, paths, c, matching))[x]
         == if x < |paths| && (paths[x].code == c) == matching then multiset(s)[x] else 0
  {
    if s != [] {
      var keep := s[0] < |paths| && (paths[s[0]].code == c) == matching;
      var t := Select(s[1..], paths, c, matching);
      SelectCount(s[1..], paths, c, matching, x);
      assert s == [s[0]] + s[1..];
      assert multiset(s) == multiset([s[0]]) + multiset(s[1..]);
      if keep {
        assert Select(s, paths, c, matching) == [s[0]] + t;
        assert multiset(Select(s, paths, c, matching)) == multiset([s[0]]) + multiset(t);
      } else {
        assert Select(s, paths, c, matching) == [] + t;
      }
    }
  }

  /**
   * The stacking order after `raise()` is applied, in data order, to every
   * path whose code is `c`: the other paths keep their order and the
   * matching ones come last.
   */
  function Raise(stacking: seq<nat>, paths: seq<CountryPath>, c: string): seq<nat> {
    Select(stacking, paths, c, false) + Select(Indices(|paths|), paths, c, true)
  }

  /** Sets `is-active` on exactly the paths whose code is `c` (none for `None`). */
  function Highlight(paths: seq<CountryPath>, c: Option<string>): (r: seq<CountryPath>)
    ensures |r| == |paths|
    ensures forall i :: 0 <= i < |paths| ==> r[i] == paths[i].(active := c == Some(paths[i].code))
  {
    seq(|paths|, i requires 0 <= i < |paths| => paths[i].(active := c == Some(paths[i].code)))
  }

  function HighlightBubbles(bs: seq<Bubble>, c: Option<string>): (r: seq<Bubble>)
    ensures |r| == |bs|
    ensures forall i :: 0 <= i < |bs| ==> r[i] == bs[i].(active := c == Some(bs[i].code))
  {
    seq(|bs|, i requires 0 <= i < |bs| => bs[i].(active := c == Some(bs[i].code)))
  }

  /** Raising keeps a stacking order a stacking order. */
  lemma RaisePermutation(stacking: seq<nat>, paths: seq<CountryPath>, c: string)
    requires IsStacking(stacking, |paths|)
    ensures IsStacking(Raise(stacking, paths, c), |paths|)
  {
    var n := |paths|;
    var a, b := Select(stacking, paths, c, false), Select(Indices(n), paths, c, true);
    forall x: nat ensures multiset(a + b)[x] == multiset(stacking)[x] {
      SelectCount(stacking, paths, c, false, x);
      SelectCount(Indices(n), paths, c, true, x);
      assert x >= n ==> x !in Indices(n);
    }
    assert multiset(a + b) == multiset(stacking);
  }

  lemma {:induction false} SelectAppend(a: seq<nat>, b: seq<nat>, paths: seq<CountryPath>, c: string, matching: bool)
    ensures Select(a + b, paths, c, matching) == Select(a, paths, c, matching) + Select(b, paths, c, matching)
  {
    if a == [] {
      assert a + b == b;
    } else {
      var h := if a[0] < |paths| && (paths[a[0]].code == c) == matching then [a[0]] else [];
      var ra, rb := Select(a[1..], paths, c, matching), Select(b, paths, c, matching);
      assert (a + b)[0] == a[0] && (a + b)[1..] == a[1..] + b;
      assert Select(a + b, paths, c, matching) == h + Select(a[1..] + b, paths, c, matching);
      SelectAppend(a[1..], b, paths, c, matching);
      assert Select(a, paths, c, matching) == h + ra;
      AppendAssociative(h, ra, rb);
    }
  }

  lemma AppendAssociative<T>(x: seq<T>, y: seq<T>, z: seq<T>)
    ensures x + (y + z) == (x + y) + z
  {
  }

  /** Selecting again with the same test keeps everything; with the opposite test, nothing. */
  lemma {:induction false} SelectAgain(s: seq<nat>, paths: seq<CountryPath>, c: string, matching: bool)
    ensures Select(Select(s, paths, c, matching), paths, c, matching) == Select(s, paths, c, matching)
    ensures Select(Select(s, paths, c, matching), paths, c, !matching) == []
  {
    if s != [] {
      SelectAgain(s[1..], paths, c, matching);
      var t := Select(s[1..], paths, c, matching);
      if s[0] < |paths| && (paths[s[0]].code == c) == matching {
        assert Select(s, paths, c, matching) == [s[0]] + t;
        SelectAppend([s[0]], t, paths, c, matching);
        SelectAppend([s[0]], t, paths, c, !matching);
      } else {
        assert Select(s, paths, c, matching) == t;
      }
    }
  }

  /**
   * Raising keeps the other paths in their relative stacking order, and the
   * raised paths end up above them in data order.
   */
  lemma RaiseKeepsOthers(stacking: seq<nat>, paths: seq<CountryPath>, c: string)
    ensures Select(Raise(stacking, paths, c), paths, c, false) == Select(stacking, paths, c, false)
    ensures Select(Raise(stacking, paths, c), paths, c, true) == Select(Indices(|paths|), paths, c, true)
  {
    var a, b := Select(stacking, paths, c, false), Select(Indices(|paths|), paths, c, true);
    SelectAppend(a, b, paths, c, false);
    SelectAppend(a, b, paths, c, true);
    SelectAgain(stacking, paths, c, false);
    SelectAgain(Indices(|paths|), paths, c, true);
  }

  /** Every path index occurs once in `Indices(n)`. */
  lemma {:induction false} IndicesCount(n: nat, x: nat)
    ensures multiset(Indices(n))[x] == if x < n then 1 else 0
  {
    if n > 0 {
      IndicesCount(n - 1, x);
      assert Indices(n) == Indices(n - 1) + [n - 1];
    }
  }

  /**
   * When path `k` is the only one with code `c`, raising puts it last,
   * above the other paths in their old stacking order.
   */
  lemma RaiseTop(stacking: seq<nat>, paths: seq<CountryPath>, c: string, k: nat)
    requires k < |paths| && paths[k].code == c
    requires forall i :: 0 <= i < |paths| && paths[i].code == c ==> i == k
    ensures Raise(stacking, paths, c) == Select(stacking, paths, c, false) + [k]
    ensures var r := Raise(stacking, paths, c); |r| > 0 && r[|r| - 1] == k
  {
    var b := Select(Indices(|paths|), paths, c, true);
    forall x: nat ensures multiset(b)[x] == multiset([k])[x] {
      SelectCount(Indices(|paths|), paths, c, true, x);
      IndicesCount(|paths|, x);
    }
    assert multiset(b) == multiset([k]);
    assert |b| == |multiset(b)| == 1;
    assert b[0] in multiset(b);
    assert b == [k];
  }

  /** The path of the feature indexed under `c` is the only path with code `c`. */
  lemma OnlyPathOf(fs: seq<Feature>, paths: seq<CountryPath>, c: string) returns (k: nat)
    requires Indexable(fs) && c in GeoIndex(fs)
    requires |paths| == |fs| && forall i :: 0 <= i < |paths| ==> paths[i].code == Code(fs[i])
    ensures k < |fs| && fs[k] == GeoIndex(fs)[c]
    ensures forall i :: 0 <= i < |paths| ==> (paths[i].code == c <==> i == k)
  {
    IndexedCodeUnique(fs, c);
    k :| 0 <= k < |fs| && fs[k] == GeoIndex(fs)[c] && forall i :: 0 <= i < |fs| ==> (Code(fs[i]) == c <==> i == k);
  }

  /** When path `k` is the only one with code `c`, highlighting `c` makes exactly path `k` active. */
  lemma HighlightOnly(paths: seq<CountryPath>, c: string, k: nat)
    requires forall i :: 0 <= i < |paths| ==> (paths[i].code == c <==> i == k)
    ensures forall i :: 0 <= i < |paths| ==> (Highlight(paths, Some(c))[i].active <==> i == k)
  {
    var h := Highlight(paths, Some(c));
    forall i | 0 <= i < |paths| ensures h[i].active <==> i == k {
      assert h[i].active == (Some(c) == Some(paths[i].code));
    }
  }

  /**
   * Entering a country with a code highlights exactly one path, the one of
   * its feature, and raises that path to the top of the stacking order,
   * which stays a stacking order.
   */
  lemma EnteredHighlightsOne(fs: seq<Feature>, paths: seq<CountryPath>, stacking: seq<nat>, c: string) returns (k: nat)
    requires Indexable(fs) && c in GeoIndex(fs)
    requires |paths| == |fs| && forall i :: 0 <= i < |paths| ==> paths[i].code == Code(fs[i])
    requires IsStacking(stacking, |paths|)
    ensures IsStacking(Raise(stacking, paths, c), |paths|)
    ensures |Raise(stacking, paths, c)| == |paths|
    ensures k < |fs| && fs[k] == GeoIndex(fs)[c]
    ensures forall i :: 0 <= i < |paths| ==> (Highlight(paths, Some(c))[i].active <==> i == k)
    ensures Raise(stacking, paths, c)[|paths| - 1] == k
  {
    RaisePermutation(stacking, paths, c);
    StackingLength(Raise(stacking, paths, c), |paths|);
    k := OnlyPathOf(fs, paths, c);
    HighlightOnly(paths, c, k);
    RaiseTop(stacking, paths, c, k);
  }

  /**
   * The paths after a join with the features: the ones already drawn stay
   * as they are; a new path is inactive and gets pointer listeners only
   * when its country is in the aggregate `m`.
   */
  function JoinPaths(prev: seq<CountryPath>, fs: seq<Feature>, m: map<string, CountryValue>): (r: seq<CountryPath>)
    ensures |r| == |fs|
  {
    seq(|fs|, i requires 0 <= i < |fs| =>
      if i < |prev| then prev[i] else CountryPath(fs[i].id, Code(fs[i]), false, Code(fs[i]) in m))
  }

  /**
   * Listeners are attached at the first join only: the paths of the first
   * render listen exactly when their country was aggregated then, and a
   * later join with another aggregate leaves every path as it was.
   */
  lemma ListenersFixedAtFirstRender(fs: seq<Feature>, m: map<string, CountryValue>, later: map<string, CountryValue>)
    ensures var first := JoinPaths([], fs, m);
      && (forall i :: 0 <= i < |fs| ==> !first[i].active && (first[i].listening <==> Code(fs[i]) in m))
      && JoinPaths(first, fs, later) == first
  {
  }

  /** `this.r(total) / k` for each bubble, keeping the class of a bubble already drawn for the same country. */
  function WasActive(bs: seq<Bubble>, c: string): bool {
    exists i :: 0 <= i < |bs| && bs[i].code == c && bs[i].active
  }

  /** Each bubble of `bs` is active exactly when a bubble of `prev` for its country was. */
  ghost predicate KeepsClasses(prev: seq<Bubble>, bs: seq<Bubble>) {
    forall i :: 0 <= i < |bs| ==> (bs[i].active <==> WasActive(prev, bs[i].code))
  }

  function JoinBubbles(data: seq<string>, m: map<string, CountryValue>, fbc: map<string, Feature>, prev: seq<Bubble>, scale: Scale, k: real): (r: seq<Bubble>)
    requires forall i :: 0 <= i < |data| ==> data[i] in m && data[i] in fbc && fbc[data[i]].center.Some?
    requires k >= MinZoom
    ensures |r| == |data|
  {
    seq(|data|, i requires 0 <= i < |data| =>
      Bubble(data[i], m[data[i]].total, WasActive(prev, data[i]), fbc[data[i]].center.value, scale.eval(m[data[i]].total) / k))
  }

  /**
   * The drawn bubbles agree with the bubble data: the same countries in the
   * same order, each at its feature's anchor with its country's total, and
   * a radius that, multiplied by the zoom factor, is the scale's value for
   * the total, so that bubbles keep their size on screen at every zoom.
   */
  ghost predicate BubblesAgree(bs: seq<Bubble>, data: seq<string>, m: map<string, CountryValue>, fbc: map<string, Feature>, scale: Scale, k: real) {
    && |bs| == |data|
    && forall i :: 0 <= i < |bs| ==>
      && bs[i].code == data[i]
      && data[i] in m && data[i] in fbc && fbc[data[i]].center.Some?
      && bs[i].total == m[data[i]].total
      && bs[i].center == fbc[data[i]].center.value
      && bs[i].radius * k == scale.eval(bs[i].total)
  }

  lemma DivMul(e: real, k: real)
    requires k != 0.0
    ensures (e / k) * k == e
  {
  }

  /**
   * A join yields bubbles that agree with the data, and for data without
   * repetitions each bubble keeps the class of the bubble drawn at the same
   * place when the previous bubbles had the same data.
   */
  lemma JoinBubblesAgree(data: seq<string>, m: map<string, CountryValue>, fbc: map<string, Feature>, prev: seq<Bubble>, scale: Scale, k: real)
    requires forall i :: 0 <= i < |data| ==> data[i] in m && data[i] in fbc && fbc[data[i]].center.Some?
    requires k >= MinZoom
    ensures BubblesAgree(JoinBubbles(data, m, fbc, prev, scale, k), data, m, fbc, scale, k)
    ensures KeepsClasses(prev, JoinBubbles(data, m, fbc, prev, scale, k))
    ensures Distinct(data) && |prev| == |data| && (forall i :: 0 <= i < |prev| ==> prev[i].code == data[i]) ==>
      forall i :: 0 <= i < |data| ==> JoinBubbles(data, m, fbc, prev, scale, k)[i].active == prev[i].active
  {
    var r := JoinBubbles(data, m, fbc, prev, scale, k);
    forall i | 0 <= i < |data| ensures r[i].radius * k == scale.eval(r[i].total) {
      DivMul(scale.eval(r[i].total), k);
    }
  }

  /** Changing classes leaves the bubbles in agreement with their data. */
  lemma HighlightKeepsAgree(bs: seq<Bubble>, data: seq<string>, m: map<string, CountryValue>, fbc: map<string, Feature>, scale: Scale, k: real, c: Option<string>)
    requires BubblesAgree(bs, data, m, fbc, scale, k)
    ensures BubblesAgree(HighlightBubbles(bs, c), data, m, fbc, scale, k)
  {
  }

  /** The features as `wrangleGeo` leaves them, and their index by code. */
  ghost predicate MappedState(fs: seq<Feature>, fbc: map<string, Feature>) {
    Indexable(fs) && fbc == GeoIndex(fs)
  }

  /** The master index and the category options, as `wrangleData` leaves them. */
  ghost predicate IndexedState(master: seq<MasterRecord>, byId: map<string, MasterRecord>, categories: seq<string>) {
    && KeysDistinct(master, MasterId)
    && byId == IndexBy(master, MasterId).value
    && categories == CategoryOptions(master)
  }

  /** The rollup and its key order are those of the brands kept by the filter. */
  ghost predicate AggregatedState(brands: seq<BrandRecord>, fbc: map<string, Feature>, byId: map<string, MasterRecord>,
                                  selected: string, value: Option<map<string, CountryValue>>, order: seq<string>)
  {
    && value == Some(Aggregate(brands, fbc.Keys, byId, selected))
    && order == FirstAppearance(Kept(brands, fbc.Keys, byId, selected))
  }

  /** The paths drawn so far follow the features, and a path listens only when its country has a feature with a code. */
  ghost predicate PathsState(paths: seq<CountryPath>, fs: seq<Feature>, fbc: map<string, Feature>) {
    && |paths| <= |fs|
    && forall i :: 0 <= i < |paths| ==>
      && paths[i].id == fs[i].id
      && paths[i].code == Code(fs[i])
      && (paths[i].listening ==> paths[i].code in fbc)
  }

  /** Bubble data that can be drawn: each country once, each with a rollup value and an anchored feature. */
  ghost predicate Drawable(data: seq<string>, m: map<string, CountryValue>, fbc: map<string, Feature>) {
    && Distinct(data)
    && forall i :: 0 <= i < |data| ==> data[i] in m && data[i] in fbc && fbc[data[i]].center.Some?
  }

  /** There is a rollup, every country in it has a feature, and its bubble data can be drawn. */
  ghost predicate Ready(value: Option<map<string, CountryValue>>, order: seq<string>, fbc: map<string, Feature>) {
    && value.Some?
    && value.value.Keys <= fbc.Keys
    && Drawable(BubbleData(value.value, order), value.value, fbc)
  }

  /** There is a rollup and the bubbles agree with its bubble data. */
  ghost predicate BubblesState(bs: seq<Bubble>, value: Option<map<string, CountryValue>>, order: seq<string>,
                               fbc: map<string, Feature>, scale: Scale, k: real)
  {
    && value.Some?
    && BubblesAgree(bs, BubbleData(value.value, order), value.value, fbc, scale, k)
  }

  /** The aggregate of prepared inputs is ready to be drawn. */
  lemma AggregateReady(fs: seq<Feature>, fbc: map<string, Feature>, byId: map<string, MasterRecord>,
                       brands: seq<BrandRecord>, selected: string,
                       value: Option<map<string, CountryValue>>, order: seq<string>)
    requires MappedState(fs, fbc)
    requires AggregatedState(brands, fbc, byId, selected, value, order)
    ensures Ready(value, order, fbc)
  {
    BubbleLayout(fs, brands, byId, selected);
  }

  /**
   * `bs` is `prev` redrawn at zoom factor `k`: the same countries in the
   * same order with the same classes, and radii that, multiplied by `k`,
   * are the scale's values for the totals.
   */
  ghost predicate Rescaled(prev: seq<Bubble>, bs: seq<Bubble>, scale: Scale, k: real) {
    && |bs| == |prev|
    && forall i :: 0 <= i < |bs| ==>
      && bs[i].code == prev[i].code
      && bs[i].active == prev[i].active
      && bs[i].radius * k == scale.eval(bs[i].total)
  }

  /**
   * Redrawing the bubbles at zoom factor `k` keeps them in agreement with
   * their data, in the same order and with the same classes, with radii for
   * the new factor.
   */
  lemma RezoomKeeps(bs: seq<Bubble>, value: Option<map<string, CountryValue>>, order: seq<string>,
                    fbc: map<string, Feature>, scale: Scale, k0: real, k: real)
    requires Ready(value, order, fbc) && BubblesState(bs, value, order, fbc, scale, k0) && k >= MinZoom
    ensures var r := JoinBubbles(BubbleData(value.value, order), value.value, fbc, bs, scale, k);
      BubblesState(r, value, order, fbc, scale, k) && Rescaled(bs, r, scale, k)
  {
    JoinBubblesAgree(BubbleData(value.value, order), value.value, fbc, bs, scale, k);
  }

  /** Changing classes keeps the paths following the features. */
  lemma HighlightKeepsPaths(paths: seq<CountryPath>, fs: seq<Feature>, fbc: map<string, Feature>, c: Option<string>)
    requires PathsState(paths, fs, fbc)
    ensures PathsState(Highlight(paths, c), fs, fbc)
  {
  }

  /** Changing classes keeps the bubbles in agreement with the bubble data. */
  lemma HighlightKeepsBubbles(bs: seq<Bubble>, value: Option<map<string, CountryValue>>, order: seq<string>,
                              fbc: map<string, Feature>, scale: Scale, k: real, c: Option<string>)
    requires BubblesState(bs, value, order, fbc, scale, k)
    ensures BubblesState(HighlightBubbles(bs, c), value, order, fbc, scale, k)
  {
    HighlightKeepsAgree(bs, BubbleData(value.value, order), value.value, fbc, scale, k, c);
  }

  /** The code patch of `wrangleGeo`, feature by feature. */
  method PatchCodes(world: WorldData)
    modifies world
    ensures |world.features| == |old(world.features)|
    ensures forall j :: 0 <= j < |world.features| ==> world.features[j] == PatchCode(old(world.features)[j])
  {
    ghost var w := world.features;
    var i := 0;
    while i < |world.features|
      invariant 0 <= i <= |world.features| == |w|
      invariant forall j :: 0 <= j < i ==> world.features[j] == PatchCode(w[j])
      invariant forall j :: i <= j < |w| ==> world.features[j] == w[j]
    {
      var f := world.features[i];
      if f.id == FranceId {
        world.features := world.features[i := f.(isoA2 := "FR")];
      } else if f.id == NorwayId {
        world.features := world.features[i := f.(isoA2 := "NO")];
      }
      i := i + 1;
    }
  }

  /** The anchor of one feature, as the anchor pass computes it. */
  method AnchorOf(f: Feature, turf: Turf) returns (center: Option<Point>)
    ensures center == Anchor(f, turf)
  {
    if f.id == RussiaId {
      center := Some(turf.centroid(f.geometry));
    } else if f.geometry.MultiPolygon? {
      var best := SelectLargestPart(f.geometry.polygons, turf.area);
      center := if best.Some? then Some(turf.centerOfMass(Polygon(f.geometry.polygons[best.value]))) else None;
    } else {
      center := Some(turf.centerOfMass(f.geometry));
    }
  }

  /** The anchor pass of `wrangleGeo`, feature by feature. */
  method AnchorFeatures(world: WorldData, turf: Turf)
    modifies world
    ensures |world.features| == |old(world.features)|
    ensures forall j :: 0 <= j < |world.features| ==> world.features[j] == Anchored(old(world.features)[j], turf)
  {
    ghost var w := world.features;
    var i := 0;
    while i < |world.features|
      invariant 0 <= i <= |world.features| == |w|
      invariant forall j :: 0 <= j < i ==> world.features[j] == Anchored(w[j], turf)
      invariant forall j :: i <= j < |w| ==> world.features[j] == w[j]
    {
      var f := world.features[i];
      var center := AnchorOf(f, turf);
      world.features := world.features[i := f.(center := center)];
      i := i + 1;
    }
  }

  /**
   * `wrangleGeo`: drops Antarctica, patches the codes of France and
   * Norway, anchors every feature, and indexes the features with a code.
   */
  method WrangleGeo(world: WorldData, turf: Turf) returns (featureByCode: map<string, Feature>)
    requires GeoReady(world.features, turf)
    modifies world
    ensures world.features == WrangledFeatures(old(world.features), turf)
    ensures MappedState(world.features, featureByCode)
  {
    ghost var raw := world.features;
    world.features := WithoutAntarctica(world.features);
    PatchCodes(world);
    AnchorFeatures(world, turf);
    assert world.features == WrangledFeatures(raw, turf);
    featureByCode := GeoIndex(world.features);
  }

  /**
   * `wrangleData`: the master records indexed by id, and the category
   * options. `d3.index` throws on a duplicate id, which the precondition
   * excludes.
   */
  method WrangleData(master: seq<MasterRecord>) returns (brandById: map<string, MasterRecord>, categories: seq<string>)
    requires KeysDistinct(master, MasterId)
    ensures IndexedState(master, brandById, categories)
    ensures brandById.Keys == set r | r in master :: MasterId(r)
    ensures forall r :: r in master ==> brandById[MasterId(r)] == r
  {
    brandById := IndexBy(master, MasterId).value;
    categories := CategoryOptions(master);
  }

  /**
   * The bubble map. The constants are the inputs of its constructor
   * (`brandsData`, `masterData`, `worldData`), the turf.js functions, the
   * d3 square-root scale, the legend and tooltip it creates, and what
   * `setup`, `wrangleGeo` and `wrangleData` compute once: the radius
   * domain, the features by code, the master records by id and the
   * category options.
   */
  class BubbleMap {
    const brands: seq<BrandRecord>
    const master: seq<MasterRecord>
    const world: WorldData
    const turf: Turf
    /** What d3 makes of a square-root scale with a given domain and range. */
    const sqrtScale: SqrtScale -> Scale
    /** The upper end of the radius scale's domain: the largest rounded country total, if any. */
    const radiusDomain: Option<int>
    const legend: SizeLegend
    const tooltip: Tooltip<Content>
    const featureByCode: map<string, Feature>
    const brandById: map<string, MasterRecord>
    const categories: seq<string>

    /** `filterState.category.selected`. */
    var selected: string
    var valueByCountryCode: Option<map<string, CountryValue>>
    /** The key order of `valueByCountryCode`. */
    var countryOrder: seq<string>
    /** The upper end of the radius scale's range. */
    var radiusRange: int
    var width: int
    var boundedWidth: int
    var boundedHeight: int
    var height: int
    /** The scale factor of the current zoom transform. */
    var zoomK: real
    /** The country paths, in data order (the order of the features). */
    var paths: seq<CountryPath>
    /** The document order of the paths, as indices into `paths`; later is drawn on top. */
    var stacking: seq<nat>
    /** The bubbles, in document order. */
    var bubbles: seq<Bubble>

    /** The radius scale `this.r`. */
    function Radius(): Scale
      reads this`radiusRange
    {
      sqrtScale(SqrtScale(radiusDomain, radiusRange))
    }

    /** What `wrangleGeo` establishes. */
    ghost predicate Mapped()
      reads world`features
    {
      MappedState(world.features, featureByCode)
    }

    /** What `wrangleGeo` and `wrangleData` establish. */
    ghost predicate Wrangled()
      reads world`features
    {
      Mapped() && IndexedState(master, brandById, categories)
    }

    /** The aggregate and its key order are those of the current filter. */
    ghost predicate Filtered()
      reads this`selected, this`valueByCountryCode, this`countryOrder
    {
      AggregatedState(brands, featureByCode, brandById, selected, valueByCountryCode, countryOrder)
    }

    /**
     * The data invariant: the prepared inputs, and the aggregate and its key
     * order for the current filter. Only the constructor, `FilterData` and
     * `SetFilter` change what it reads; every other method leaves it alone
     * by its `modifies` clause.
     */
    ghost predicate Aggregated()
      reads world`features, this`selected, this`valueByCountryCode, this`countryOrder
    {
      Wrangled() && Filtered()
    }

    /** The paths drawn so far follow the features, and a path listens only when its country has a code. */
    ghost predicate PathsFit()
      reads world`features, this`paths
    {
      PathsState(paths, world.features, featureByCode)
    }

    /** The stacking order lists every path exactly once. */
    ghost predicate StackingFits()
      reads this`stacking, this`paths
    {
      IsStacking(stacking, |paths|)
    }

    /** There is an aggregate and it can be drawn. */
    ghost predicate ReadyToDraw()
      reads this`valueByCountryCode, this`countryOrder
    {
      Ready(valueByCountryCode, countryOrder, featureByCode)
    }

    /** The bubbles agree with the bubble data of the aggregate, at the current zoom. */
    ghost predicate BubblesFit()
      reads this`bubbles, this`valueByCountryCode, this`countryOrder, this`radiusRange, this`zoomK
    {
      BubblesState(bubbles, valueByCountryCode, countryOrder, featureByCode, Radius(), zoomK)
    }

    /**
     * The drawing invariant: one path per feature, a stacking order of the
     * paths, a zoom factor in the scale extent, the legend on the radius
     * scale, and bubbles in agreement with an aggregate that can be drawn.
     */
    ghost predicate Valid()
      reads this, world`features, legend`scale
    {
      && PathsFit() && |paths| == |world.features|
      && StackingFits()
      && MinZoom <= zoomK <= MaxZoom
      && legend.scale == Some(Radius())
      && ReadyToDraw()
      && BubblesFit()
    }

    /** `init`: setup, scaffold, wrangleGeo, wrangleData, resize, filterData. */
    constructor (brands: seq<BrandRecord>, master: seq<MasterRecord>, world: WorldData, turf: Turf,
                 sqrtScale: SqrtScale -> Scale, clientWidth: int, clientHeight: int, fitHeight: real)
      requires GeoReady(world.features, turf)
      requires KeysDistinct(master, MasterId)
      modifies world
      ensures Aggregated() && Valid() && legend.Valid()
      ensures radiusDomain == DomainMax(brands)
      ensures world.features == WrangledFeatures(old(world.features), turf)
      ensures paths == JoinPaths([], world.features, valueByCountryCode.value)
      ensures forall i :: 0 <= i < |bubbles| ==> !bubbles[i].active
      ensures legend.toggleHidden && !legend.legendHidden && !tooltip.visible
    {
      this.brands := brands;
      this.master := master;
      this.world := world;
      this.turf := turf;
      this.sqrtScale := sqrtScale;
      radiusDomain := DomainMax(brands);
      legend := new SizeLegend();
      tooltip := new Tooltip<Content>();
      var byCode := WrangleGeo(world, turf);
      var byId, options := WrangleData(master);
      featureByCode, brandById, categories := byCode, byId, options;
      selected := "ALL";
      radiusRange := 1;
      zoomK := MinZoom;
      valueByCountryCode := None;
      countryOrder := [];
      width, boundedWidth, boundedHeight, height := 0, 0, 0, 0;
      paths, stacking, bubbles := [], [], [];
      new;
      Start(clientWidth, clientHeight, fitHeight);
    }

    /** The first `resize`, before there is an aggregate, and the first `filterData`. */
    method Start(clientWidth: int, clientHeight: int, fitHeight: real)
      requires Mapped() && legend.Valid()
      requires valueByCountryCode.None? && paths == [] && bubbles == [] && zoomK == MinZoom
      modifies this`width, this`boundedWidth, this`boundedHeight, this`height, this`radiusRange, legend
      modifies this`zoomK, this`valueByCountryCode, this`countryOrder, this`paths, this`stacking, this`bubbles
      ensures Filtered() && Valid() && legend.Valid()
      ensures paths == JoinPaths([], world.features, valueByCountryCode.value)
      ensures forall i :: 0 <= i < |bubbles| ==> !bubbles[i].active
      ensures legend.toggleHidden == old(legend.toggleHidden) && legend.legendHidden == old(legend.legendHidden)
    {
      Resize(clientWidth, clientHeight, fitHeight);
      FilterData();
    }

    /** `filterData`: aggregates the brands for the current filter and renders. */
    method FilterData()
      requires Mapped() && PathsFit() && MinZoom <= zoomK <= MaxZoom
      requires legend.scale == Some(Radius())
      modifies this`valueByCountryCode, this`countryOrder, this`paths, this`stacking, this`bubbles
      ensures Filtered() && Valid()
      ensures valueByCountryCode == Some(Aggregate(brands, featureByCode.Keys, brandById, selected))
      ensures paths == JoinPaths(old(paths), world.features, valueByCountryCode.value)
      ensures stacking == Indices(|paths|)
      ensures KeepsClasses(old(bubbles), bubbles)
    {
      Rollup();
      Render();
    }

    /** The rollup of `filterData`: the kept brands grouped by country, in order of first appearance. */
    method Rollup()
      requires Mapped()
      modifies this`valueByCountryCode, this`countryOrder
      ensures Filtered() && ReadyToDraw()
    {
      valueByCountryCode := Some(Aggregate(brands, featureByCode.Keys, brandById, selected));
      countryOrder := FirstAppearance(Kept(brands, featureByCode.Keys, brandById, selected));
      AggregateReady(world.features, featureByCode, brandById, brands, selected,
                     valueByCountryCode, countryOrder);
    }

    /** The `filterchange` event: a new category filter. */
    method SetFilter(value: string)
      requires Aggregated() && Valid()
      modifies this`selected, this`valueByCountryCode, this`countryOrder, this`paths, this`stacking, this`bubbles
      ensures Aggregated() && Valid()
      ensures selected == value
      ensures valueByCountryCode == Some(Aggregate(brands, featureByCode.Keys, brandById, value))
      ensures paths == old(paths) && stacking == Indices(|paths|)
      ensures KeepsClasses(old(bubbles), bubbles)
    {
      selected := value;
      FilterData();
    }

    /**
     * `resize`: the layout for the container's size (`fitHeight` is the
     * height of the projected world at the bounded width), the radius range,
     * the legend, and, once there is an aggregate, a zoom reset and a render.
     */
    method Resize(clientWidth: int, clientHeight: int, fitHeight: real)
      requires PathsFit() && legend.Valid() && MinZoom <= zoomK <= MaxZoom
      requires valueByCountryCode.Some? ==> ReadyToDraw()
      modifies this`width, this`boundedWidth, this`boundedHeight, this`height, this`radiusRange
      modifies this`zoomK, this`paths, this`stacking, this`bubbles, legend
      ensures width == clientWidth && boundedWidth == clientWidth - MarginLeft - MarginRight
      ensures boundedHeight == Ceil(fitHeight)
      ensures height == Max(boundedHeight + MarginTop + MarginBottom, clientHeight)
      ensures radiusRange == Round(boundedWidth as real / 8.0)
      ensures PathsFit() && MinZoom <= zoomK <= MaxZoom
      ensures legend.Valid() && legend.scale == Some(Radius())
      ensures legend.toggleHidden == old(legend.toggleHidden) && legend.legendHidden == old(legend.legendHidden)
      ensures valueByCountryCode.Some? ==> Valid() && zoomK == MinZoom && stacking == Indices(|paths|)
      ensures valueByCountryCode.Some? ==> KeepsClasses(old(bubbles), bubbles)
      ensures valueByCountryCode.None? ==>
        zoomK == old(zoomK) && paths == old(paths) && stacking == old(stacking) && bubbles == old(bubbles)
    {
      Layout(clientWidth, clientHeight, fitHeight);
      if valueByCountryCode.Some? {
        zoomK := MinZoom;
        Render();
      }
    }

    /** The sizes, the radius range and the legend scale of `resize`. */
    method Layout(clientWidth: int, clientHeight: int, fitHeight: real)
      requires legend.Valid()
      modifies this`width, this`boundedWidth, this`boundedHeight, this`height, this`radiusRange, legend
      ensures width == clientWidth && boundedWidth == clientWidth - MarginLeft - MarginRight
      ensures boundedHeight == Ceil(fitHeight)
      ensures height == Max(boundedHeight + MarginTop + MarginBottom, clientHeight)
      ensures radiusRange == Round(boundedWidth as real / 8.0)
      ensures legend.Valid() && legend.scale == Some(Radius())
      ensures legend.toggleHidden == old(legend.toggleHidden) && legend.legendHidden == old(legend.legendHidden)
    {
      width := clientWidth;
      boundedWidth := width - MarginLeft - MarginRight;
      boundedHeight := Ceil(fitHeight);
      height := Max(boundedHeight + MarginTop + MarginBottom, clientHeight);
      radiusRange := Round(boundedWidth as real / 8.0);
      legend.UpdateScale(Radius());
    }

    /** `render`: the map, then the bubbles. */
    method Render()
      requires PathsFit() && ReadyToDraw() && MinZoom <= zoomK <= MaxZoom
      requires legend.scale == Some(Radius())
      modifies this`paths, this`stacking, this`bubbles
      ensures Valid()
      ensures paths == JoinPaths(old(paths), world.features, valueByCountryCode.value)
      ensures stacking == Indices(|paths|)
      ensures bubbles == JoinBubbles(BubbleData(valueByCountryCode.value, countryOrder), valueByCountryCode.value,
                                     featureByCode, old(bubbles), Radius(), zoomK)
      ensures KeepsClasses(old(bubbles), bubbles)
    {
      RenderMap();
      RenderBubbles();
    }

    /**
     * `renderMap`: joins the features; the join puts the paths back in data
     * order, so the stacking order is reset.
     */
    method RenderMap()
      requires PathsFit() && ReadyToDraw()
      modifies this`paths, this`stacking
      ensures PathsFit() && |paths| == |world.features|
      ensures paths == JoinPaths(old(paths), world.features, valueByCountryCode.value)
      ensures stacking == Indices(|paths|) && StackingFits()
    {
      paths := JoinPaths(paths, world.features, valueByCountryCode.value);
      stacking := Indices(|paths|);
    }

    /** `renderBubbles`: joins the bubble data and sets every radius for the current zoom. */
    method RenderBubbles()
      requires ReadyToDraw() && MinZoom <= zoomK <= MaxZoom
      modifies this`bubbles
      ensures BubblesFit() && KeepsClasses(old(bubbles), bubbles)
      ensures bubbles == JoinBubbles(BubbleData(valueByCountryCode.value, countryOrder), valueByCountryCode.value,
                                     featureByCode, old(bubbles), Radius(), zoomK)
    {
      var m := valueByCountryCode.value;
      var data := SortDesc(countryOrder, TotalKey(m));
      JoinBubblesAgree(data, m, featureByCode, bubbles, Radius(), zoomK);
      bubbles := JoinBubbles(data, m, featureByCode, bubbles, Radius(), zoomK);
    }

    /**
     * `zoomed`: a new zoom factor within the scale extent; the bubbles are
     * redrawn with the same data, so they keep their order and classes.
     */
    method Zoomed(k: real)
      requires Valid() && MinZoom <= k <= MaxZoom
      modifies this`zoomK, this`bubbles
      ensures Valid() && zoomK == k
      ensures Rescaled(old(bubbles), bubbles, Radius(), k)
    {
      ghost var scale := Radius();
      RezoomKeeps(bubbles, valueByCountryCode, countryOrder, featureByCode, scale, zoomK, k);
      zoomK := k;
      RenderBubbles();
      assert Radius() == scale;
    }

    /**
     * `entered`: highlights the country's path and bubble, raises its path,
     * and shows its figures in the tooltip when it is aggregated.
     */
    method Entered(c: string, container: Rect, box: Rect)
      requires Valid() && c in featureByCode
      modifies this`paths, this`stacking, this`bubbles, tooltip
      ensures Valid()
      ensures paths == Highlight(old(paths), Some(c))
      ensures stacking == Raise(old(stacking), old(paths), c)
      ensures bubbles == HighlightBubbles(old(bubbles), Some(c))
      ensures var m := valueByCountryCode.value;
        c in m ==>
          && tooltip.visible && tooltip.containerRect == Some(container) && tooltip.tooltipRect == Some(box)
          && tooltip.content == Some(Content(featureByCode[c].name, m[c].total, m[c].topBrands))
      ensures c !in valueByCountryCode.value ==> unchanged(tooltip)
      ensures tooltip.position == old(tooltip.position)
    {
      RaiseCountry(c);
      SetActive(Some(c));
      var m := valueByCountryCode.value;
      var countryName := featureByCode[c].name;
      if c in m {
        tooltip.Show(Content(countryName, m[c].total, m[c].topBrands), container, box);
      }
    }

    /** `raise()` on the paths of country `c`, in data order. */
    method RaiseCountry(c: string)
      requires Valid()
      modifies this`stacking
      ensures Valid()
      ensures stacking == Raise(old(stacking), paths, c)
    {
      RaisePermutation(stacking, paths, c);
      stacking := Raise(stacking, paths, c);
    }

    /** The `is-active` classes of `entered` (for `Some(c)`) and `left` (for `None`). */
    method SetActive(c: Option<string>)
      requires Valid()
      modifies this`paths, this`bubbles
      ensures Valid()
      ensures paths == Highlight(old(paths), c)
      ensures bubbles == HighlightBubbles(old(bubbles), c)
    {
      HighlightKeepsPaths(paths, world.features, featureByCode, c);
      HighlightKeepsBubbles(bubbles, valueByCountryCode, countryOrder, featureByCode, Radius(), zoomK, c);
      paths := Highlight(paths, c);
      bubbles := HighlightBubbles(bubbles, c);
    }

    /** `moved`: places the tooltip for the pointer. */
    method Moved(px: real, py: real) returns (ok: bool)
      modifies tooltip`position
      ensures ok <==> tooltip.containerRect.Some? && tooltip.tooltipRect.Some?
      ensures ok ==> tooltip.position == Some((
        HorizontalPosition(px, tooltip.tooltipRect.value.width, tooltip.containerRect.value.width),
        VerticalPosition(py, tooltip.tooltipRect.value.height)))
      ensures !ok ==> tooltip.position == old(tooltip.position)
    {
      ok := tooltip.Move(px, py);
    }

    /** `left`: no path or bubble is active and the tooltip is hidden; the stacking order stays. */
    method Left()
      requires Valid()
      modifies this`paths, this`bubbles, tooltip`visible
      ensures Valid()
      ensures paths == Highlight(old(paths), None)
      ensures bubbles == HighlightBubbles(old(bubbles), None)
      ensures !tooltip.visible
    {
      SetActive(None);
      tooltip.Hide();
    }
  }
}
