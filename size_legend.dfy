/**
 * The size legend of the bubble map (js/vis-size-legend.js): a collapsible
 * panel that draws one circle per tick value of the radius scale, with
 * labels pushed apart so that neighbouring labels are at least 12 pixels
 * apart vertically.
 */
module SizeLegendView {
  import opened Common
  import opened Ordering

  /** What the legend uses of a d3 scale: its value at a point and `scale.ticks(5)`. */
  datatype Scale = Scale(eval: real -> real, ticks: seq<real>)

  /** One legend item: its value, its circle's radius and centre height, and its label height. */
  datatype Tick = Tick(value: real, circleR: real, circleY: real, labelY: real)

  /** The values always drawn: one, five and ten million. */
  const FixedValues: seq<real> := [1000000.0, 5000000.0, 10000000.0]
  /** Scale ticks from fifty million up are drawn as well. */
  const Threshold := 50000000.0
  /** The least vertical distance between two neighbouring labels. */
  const LabelGap := 12.0

  ghost predicate Ascending(s: seq<real>) {
    forall i, j :: 0 <= i < j < |s| ==> s[i] < s[j]
  }

  /** The elements of `s` that are at least `lo`, in their order. */
  function AtLeast(s: seq<real>, lo: real): (r: seq<real>)
    ensures forall x :: x in r <==> x in s && x >= lo
  {
    if s == [] then [] else (if s[0] >= lo then [s[0]] else []) + AtLeast(s[1..], lo)
  }

  lemma {:induction false} AtLeastAscending(s: seq<real>, lo: real)
    requires Ascending(s)
    ensures Ascending(AtLeast(s, lo))
  {
    if s != [] {
      AtLeastAscending(s[1..], lo);
      var r := AtLeast(s, lo);
      forall i, j | 0 <= i < j < |r| ensures r[i] < r[j] {
        if i == 0 && s[0] >= lo {
          assert r[j] in AtLeast(s[1..], lo);
        }
      }
    }
  }

  /** `idx` with every entry increased by one. */
  function Shifted(idx: seq<nat>): (r: seq<nat>)
    ensures |r| == |idx| && forall j :: 0 <= j < |idx| ==> r[j] == idx[j] + 1
  {
    seq(|idx|, j requires 0 <= j < |idx| => idx[j] + 1)
  }

  /** Reading `s` at the positions `idx` gives `r`. */
  ghost predicate Picks(r: seq<real>, s: seq<real>, idx: seq<nat>) {
    |idx| == |r| && forall j :: 0 <= j < |idx| ==> idx[j] < |s| && r[j] == s[idx[j]]
  }

  ghost predicate IncreasingPositions(idx: seq<nat>) {
    forall j, k :: 0 <= j < k < |idx| ==> idx[j] < idx[k]
  }

  /** The positions `idx` include every element of `s` of at least `lo`. */
  ghost predicate Covers(s: seq<real>, idx: seq<nat>, lo: real) {
    forall i :: 0 <= i < |s| && s[i] >= lo ==> i in idx
  }

  /** `r` is `s` read at increasing positions `idx`, which include every element of at least `lo`. */
  ghost predicate ReadsAt(r: seq<real>, s: seq<real>, idx: seq<nat>, lo: real) {
    Picks(r, s, idx) && IncreasingPositions(idx) && Covers(s, idx, lo)
  }

  lemma ShiftedPicks(r: seq<real>, s: seq<real>, rest: seq<nat>)
    requires |s| > 0 && Picks(r, s[1..], rest)
    ensures Picks(r, s, Shifted(rest)) && Picks([s[0]] + r, s, [0] + Shifted(rest))
  {
    var sh := Shifted(rest);
    forall j | 0 <= j < |sh| ensures sh[j] < |s| && r[j] == s[sh[j]] {
      assert s[1..][rest[j]] == s[rest[j] + 1];
    }
  }

  lemma ShiftedIncreasing(rest: seq<nat>)
    requires IncreasingPositions(rest)
    ensures IncreasingPositions(Shifted(rest)) && IncreasingPositions([0] + Shifted(rest))
  {
  }

  lemma ShiftedCovers(s: seq<real>, rest: seq<nat>, lo: real)
    requires |s| > 0 && Covers(s[1..], rest, lo)
    ensures s[0] < lo ==> Covers(s, Shifted(rest), lo)
    ensures s[0] >= lo ==> Covers(s, [0] + Shifted(rest), lo)
  {
    var sh := Shifted(rest);
    forall i | 1 <= i < |s| && s[i] >= lo ensures i in sh {
      assert s[1..][i - 1] == s[i];
      assert i - 1 in rest;
      var j :| 0 <= j < |rest| && rest[j] == i - 1;
      assert sh[j] == i;
    }
    if s[0] >= lo {
      var idx := [0] + sh;
      forall i | 0 <= i < |s| && s[i] >= lo ensures i in idx {
        if i > 0 {
          assert i in sh;
        }
      }
    }
  }

  /** Positions read in the tail of `s`, shifted by one, are positions read in `s` itself. */
  lemma ShiftedReads(r: seq<real>, s: seq<real>, rest: seq<nat>, lo: real)
    requires |s| > 0 && ReadsAt(r, s[1..], rest, lo)
    ensures s[0] >= lo ==> ReadsAt([s[0]] + r, s, [0] + Shifted(rest), lo)
    ensures s[0] < lo ==> ReadsAt(r, s, Shifted(rest), lo)
  {
    ShiftedPicks(r, s, rest);
    ShiftedIncreasing(rest);
    ShiftedCovers(s, rest, lo);
  }

  /**
   * `AtLeast` keeps the elements of at least `lo` in their order and with
   * their repetitions: its result is `s` read at strictly increasing
   * positions `idx`, and those positions include every element of at least
   * `lo`.
   */
  lemma {:induction false} AtLeastSubsequence(s: seq<real>, lo: real) returns (idx: seq<nat>)
    ensures ReadsAt(AtLeast(s, lo), s, idx, lo)
  {
    if s == [] {
      idx := [];
    } else {
      var rest := AtLeastSubsequence(s[1..], lo);
      var r := AtLeast(s[1..], lo);
      ShiftedReads(r, s, rest, lo);
      if s[0] >= lo {
        assert AtLeast(s, lo) == [s[0]] + r;
        idx := [0] + Shifted(rest);
      } else {
        assert AtLeast(s, lo) == r;
        idx := Shifted(rest);
      }
    }
  }

  /** The legend's values: the three fixed values, then the scale's ticks from fifty million up. */
  function TickValues(scaleTicks: seq<real>): (vs: seq<real>)
    ensures |vs| >= 3 && vs[..3] == FixedValues
    ensures forall x :: x in vs[3..] <==> x in scaleTicks && x >= Threshold
  {
    var r := FixedValues + AtLeast(scaleTicks, Threshold);
    assert r[3..] == AtLeast(scaleTicks, Threshold);
    r
  }

  /**
   * After the fixed values come the scale's ticks from fifty million up, in
   * their original order and with their repetitions: they are the scale's
   * ticks read at strictly increasing positions `idx`, which include every
   * tick from fifty million up.
   */
  lemma TickValuesInOrder(scaleTicks: seq<real>) returns (idx: seq<nat>)
    ensures TickValues(scaleTicks)[..3] == FixedValues
    ensures ReadsAt(TickValues(scaleTicks)[3..], scaleTicks, idx, Threshold)
  {
    idx := AtLeastSubsequence(scaleTicks, Threshold);
    var vs := TickValues(scaleTicks);
    assert vs == FixedValues + AtLeast(scaleTicks, Threshold);
    assert vs[3..] == AtLeast(scaleTicks, Threshold);
  }

  /** For ascending scale ticks, the legend's values ascend strictly. */
  lemma TickValuesAscending(scaleTicks: seq<real>)
    requires Ascending(scaleTicks)
    ensures Ascending(TickValues(scaleTicks))
  {
    var vs := TickValues(scaleTicks);
    AtLeastAscending(scaleTicks, Threshold);
    assert vs[3..] == AtLeast(scaleTicks, Threshold);
    forall i, j | 0 <= i < j < |vs| ensures vs[i] < vs[j] {
      if j >= 3 {
        assert vs[j] in vs[3..];
      }
    }
  }

  /** A tick before the labels are separated: the label sits at the top of its circle. */
  function InitialTick(v: real, eval: real -> real): Tick {
    Tick(v, eval(v), -eval(v), -eval(v) * 2.0)
  }

  function InitialTicks(values: seq<real>, eval: real -> real): (t: seq<Tick>)
    ensures |t| == |values|
    ensures forall i :: 0 <= i < |values| ==> t[i] == InitialTick(values[i], eval)
  {
    seq(|values|, i requires 0 <= i < |values| => InitialTick(values[i], eval))
  }

  /** One step of the `d3.pairs` pass: `b`'s label is raised to 12 pixels above `a`'s if it is closer. */
  function Lift(a: Tick, b: Tick): Tick {
    if a.labelY - b.labelY < LabelGap then b.(labelY := a.labelY - LabelGap) else b
  }

  function Min(x: real, y: real): real {
    if x <= y then x else y
  }

  /**
   * The `d3.pairs` pass over the ticks, where each pair sees the label its
   * first member was given by the previous pair. Only label heights change;
   * the first stays; every other label is its own height or 12 pixels
   * above its (already moved) predecessor, whichever is higher on screen.
   */
  function Separate(t: seq<Tick>): (r: seq<Tick>)
    ensures |r| == |t|
    ensures forall i :: 0 <= i < |t| ==> r[i] == t[i].(labelY := r[i].labelY)
    ensures |t| > 0 ==> r[0] == t[0]
    ensures forall i :: 1 <= i < |t| ==> r[i].labelY == Min(t[i].labelY, r[i - 1].labelY - LabelGap)
  {
    if |t| <= 1 then t
    else
      var n := |t| - 1;
      var p := Separate(t[..n]);
      p + [Lift(p[n - 1], t[n])]
  }

  /**
   * After the pass every label is at least 12 pixels above its predecessor
   * and no label has moved down.
   */
  lemma {:induction false} SeparateSpacing(t: seq<Tick>)
    ensures var r := Separate(t);
      && (forall i :: 1 <= i < |t| ==> r[i - 1].labelY - r[i].labelY >= LabelGap)
      && (forall i :: 0 <= i < |t| ==> r[i].labelY <= t[i].labelY)
  {
    var r := Separate(t);
    forall i | 1 <= i < |t|
      ensures r[i - 1].labelY - r[i].labelY >= LabelGap && r[i].labelY <= t[i].labelY
    {
      assert r[i].labelY == Min(t[i].labelY, r[i - 1].labelY - LabelGap);
    }
    if |t| > 0 {
      assert r[0] == t[0];
    }
  }

  /** The `d3.pairs` pass, in place. */
  method SpreadLabels(a: array<Tick>)
    modifies a
    ensures a[..] == Separate(old(a[..]))
  {
    ghost var s := a[..];
    ghost var r := Separate(s);
    var i := 0;
    while i + 1 < a.Length
      invariant 0 <= i && (a.Length == 0 || i < a.Length)
      invariant forall q :: 0 <= q <= i && q < a.Length ==> a[q] == r[q]
      invariant forall q :: i < q < a.Length ==> a[q] == s[q]
    {
      if a[i].labelY - a[i + 1].labelY < LabelGap {
        a[i + 1] := a[i + 1].(labelY := a[i].labelY - LabelGap);
      }
      i := i + 1;
    }
    assert a[..] == r;
  }

  function TickValue(t: Tick): real {
    t.value
  }

  /** The ticks once their labels are separated, in ascending value order. */
  function LegendTicks(s: Scale): (t: seq<Tick>)
    ensures |t| >= 3
  {
    Separate(InitialTicks(TickValues(s.ticks), s.eval))
  }

  /** The legend items in drawing order: sorted by descending value. */
  function LegendItems(s: Scale): seq<Tick> {
    SortDesc(LegendTicks(s), TickValue)
  }

  /** `maxR`: the radius of the last tick before sorting. */
  function LegendMaxR(s: Scale): real {
    LegendTicks(s)[|LegendTicks(s)| - 1].circleR
  }

  /**
   * The ticks follow the values `vs` in their order, each with the scale's
   * radius for its value and its circle resting on the baseline.
   */
  ghost predicate TicksFollow(t: seq<Tick>, vs: seq<real>, eval: real -> real) {
    && |t| == |vs|
    && forall i :: 0 <= i < |t| ==> t[i].value == vs[i] && t[i].circleR == eval(vs[i]) && t[i].circleY == -t[i].circleR
  }

  /** Each label is at least 12 pixels above the label before it. */
  ghost predicate LabelsRise(t: seq<Tick>) {
    forall i :: 1 <= i < |t| ==> t[i - 1].labelY - t[i].labelY >= LabelGap
  }

  /**
   * The items follow the values `vs` from the last to the first, each with
   * the scale's radius for its value and its circle resting on the baseline.
   */
  ghost predicate ItemsFollow(items: seq<Tick>, vs: seq<real>, eval: real -> real) {
    && |items| == |vs|
    && forall i :: 0 <= i < |items| ==>
      items[i].value == vs[|vs| - 1 - i] && items[i].circleR == eval(items[i].value) && items[i].circleY == -items[i].circleR
  }

  /** Each label is at least 12 pixels below the label before it. */
  ghost predicate LabelsFall(items: seq<Tick>) {
    forall i :: 0 <= i < |items| - 1 ==> items[i + 1].labelY - items[i].labelY >= LabelGap
  }

  /**
   * Separating the labels of the initial ticks keeps each tick's value,
   * radius and circle, and leaves consecutive labels at least 12 apart.
   */
  lemma SeparatedTicks(vs: seq<real>, eval: real -> real)
    ensures TicksFollow(Separate(InitialTicks(vs, eval)), vs, eval)
    ensures LabelsRise(Separate(InitialTicks(vs, eval)))
  {
    SeparateSpacing(InitialTicks(vs, eval));
  }

  /** Ticks that follow strictly ascending values have strictly increasing values. */
  lemma FollowAscending(t: seq<Tick>, vs: seq<real>, eval: real -> real)
    requires TicksFollow(t, vs, eval) && Ascending(vs)
    ensures StrictlyIncreasing(t, TickValue)
  {
  }

  /**
   * Before sorting, the ticks follow the legend's values in ascending order,
   * with the scale's radius for each value and labels at least 12 pixels
   * apart.
   */
  lemma LegendTicksShape(s: Scale)
    requires Ascending(s.ticks)
    ensures TicksFollow(LegendTicks(s), TickValues(s.ticks), s.eval)
    ensures StrictlyIncreasing(LegendTicks(s), TickValue)
    ensures LabelsRise(LegendTicks(s))
  {
    var vs := TickValues(s.ticks);
    TickValuesAscending(s.ticks);
    SeparatedTicks(vs, s.eval);
    FollowAscending(LegendTicks(s), vs, s.eval);
  }

  /**
   * Reversing ticks that follow ascending values, with labels at least 12
   * apart, gives items that follow the values from the last to the first,
   * each label at least 12 below the label of the item before it.
   */
  lemma ReversedTicks(t: seq<Tick>, vs: seq<real>, eval: real -> real)
    requires TicksFollow(t, vs, eval) && LabelsRise(t)
    ensures ItemsFollow(Reverse(t), vs, eval) && LabelsFall(Reverse(t))
  {
    var items := Reverse(t);
    forall i | 0 <= i < |items| - 1 ensures items[i + 1].labelY - items[i].labelY >= LabelGap {
      var j := |t| - 1 - i;
      assert items[i] == t[j] && items[i + 1] == t[j - 1];
    }
  }

  /**
   * For a scale whose ticks ascend, the items are drawn from the largest
   * value to the smallest, each circle has the scale's radius for its value
   * and sits on the baseline, each label is at least 12 pixels below the
   * label of the next larger item, and `maxR` is the radius of the first
   * (largest) item.
   */
  lemma LegendLayout(s: Scale)
    requires Ascending(s.ticks)
    ensures ItemsFollow(LegendItems(s), TickValues(s.ticks), s.eval)
    ensures LabelsFall(LegendItems(s))
    ensures LegendMaxR(s) == LegendItems(s)[0].circleR
  {
    var t := LegendTicks(s);
    LegendTicksShape(s);
    SortDescOfIncreasing(t, TickValue);
    assert LegendItems(s) == Reverse(t);
    ReversedTicks(t, TickValues(s.ticks), s.eval);
  }

  /**
   * `renderLegendItems`: builds the ticks in an array, separates their
   * labels in place, takes `maxR` from the last tick, and sorts the array
   * in place by descending value.
   */
  method RenderLegendItems(s: Scale) returns (items: seq<Tick>, maxR: real)
    ensures items == LegendItems(s) && maxR == LegendMaxR(s)
  {
    var values := TickValues(s.ticks);
    var ticks := new Tick[|values|](i requires 0 <= i < |values| => InitialTick(values[i], s.eval));
    assert ticks[..] == InitialTicks(values, s.eval);
    SpreadLabels(ticks);
    maxR := ticks[ticks.Length - 1].circleR;
    SortDescInPlace(ticks, TickValue);
    items := ticks[..];
  }

  /** Once there is a scale, the items and `maxR` are the ones it determines. */
  ghost predicate ShowsScale(scale: Option<Scale>, items: seq<Tick>, maxR: real) {
    scale.Some? ==> items == LegendItems(scale.value) && maxR == LegendMaxR(scale.value)
  }

  /**
   * The legend panel. `toggleHidden` and `legendHidden` are the `is-hidden`
   * classes of the open button's container and of the legend container;
   * `items` are the drawn items in document order.
   */
  class SizeLegend {
    var toggleHidden: bool
    var legendHidden: bool
    var scale: Option<Scale>
    var items: seq<Tick>
    var maxR: real

    /** Exactly one of the two containers is hidden, and the items follow the scale. */
    ghost predicate Valid()
      reads this
    {
      && toggleHidden != legendHidden
      && ShowsScale(scale, items, maxR)
    }

    /** The legend starts open, with the open button hidden. */
    constructor ()
      ensures Valid()
      ensures toggleHidden && !legendHidden
      ensures scale.None? && items == []
    {
      toggleHidden := true;
      legendHidden := false;
      scale := None;
      items := [];
      maxR := 0.0;
    }

    /** A click on the open button's container. */
    method Open()
      requires Valid()
      modifies this`toggleHidden, this`legendHidden
      ensures Valid()
      ensures toggleHidden && !legendHidden
    {
      toggleHidden := true;
      legendHidden := false;
    }

    /** A click on the close button. */
    method Close()
      requires Valid()
      modifies this`toggleHidden, this`legendHidden
      ensures Valid()
      ensures !toggleHidden && legendHidden
    {
      toggleHidden := false;
      legendHidden := true;
    }

    /** `updateScale`: stores the scale and redraws the items. */
    method UpdateScale(s: Scale)
      requires Valid()
      modifies this`scale, this`items, this`maxR
      ensures Valid()
      ensures scale == Some(s)
      ensures items == LegendItems(s) && maxR == LegendMaxR(s)
    {
      scale := Some(s);
      items, maxR := RenderLegendItems(s);
    }
  }
}
