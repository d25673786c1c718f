/**
 * Country features of the world map and the rules `wrangleGeo`
 * (js/vis-bubble-map.js) applies to them: Antarctica is dropped, two
 * missing ISO codes are patched, every feature gets an anchor point for its
 * bubble, and the features that carry a code are indexed by it.
 *
 * Planar geometry is not modelled: the turf.js area, centroid and centre of
 * mass are inputs (`Turf`), and only the choice of what they are applied to
 * is.
 */
module Geo {
  import opened Common

  datatype Point = Point(x: real, y: real)
  type Ring = seq<Point>
  type PolygonCoords = seq<Ring>

  datatype Geometry =
    | Polygon(coordinates: PolygonCoords)
    | MultiPolygon(polygons: seq<PolygonCoords>)

  /**
   * A country feature: its numeric `id`, `properties.iso_a2`,
   * `properties.name`, its geometry, and `properties.center`, which is
   * absent until the anchor pass sets it.
   */
  datatype Feature = Feature(id: string, isoA2: string, name: string, geometry: Geometry, center: Option<Point>)

  /** The turf.js functions the anchor rule applies: `area`, `centroid`, `centerOfMass`. */
  datatype Turf = Turf(area: Geometry -> real, centroid: Geometry -> Point, centerOfMass: Geometry -> Point)

  const AntarcticaId := "010"
  const FranceId := "250"
  const NorwayId := "578"
  const RussiaId := "643"
  /** The `iso_a2` value of features that have no ISO code. */
  const NoCode := "-99"

  /** `accessor.geo.code`: the lower-cased ISO code, the join key of the map. */
  function Code(f: Feature): string {
    Lower(f.isoA2)
  }

  /** The features whose id is not Antarctica's, in their order. */
  function WithoutAntarctica(fs: seq<Feature>): (r: seq<Feature>)
    ensures forall f :: f in r <==> f in fs && f.id != AntarcticaId
  {
    if fs == [] then []
    else (if fs[0].id == AntarcticaId then [] else [fs[0]]) + WithoutAntarctica(fs[1..])
  }

  /** The code patch: France and Norway get the codes the data set lacks. */
  function PatchCode(f: Feature): (g: Feature)
    ensures g.id == f.id && g.name == f.name && g.geometry == f.geometry && g.center == f.center
    ensures f.id == FranceId ==> Code(g) == "fr"
    ensures f.id == NorwayId ==> Code(g) == "no"
    ensures f.id != FranceId && f.id != NorwayId ==> g == f
  {
    if f.id == FranceId then f.(isoA2 := "FR")
    else if f.id == NorwayId then f.(isoA2 := "NO")
    else f
  }

  function PartArea(polys: seq<PolygonCoords>, j: nat, area: Geometry -> real): real
    requires j < |polys|
  {
    area(Polygon(polys[j]))
  }

  /**
   * The sub-polygon the anchor pass picks in a multi-polygon: scanning in
   * order, a part replaces the current choice only when its area is strictly
   * greater than the best so far (which starts at 0). The result is the
   * earliest part of maximal area, and there is none when no part has a
   * positive area.
   */
  function LargestPart(polys: seq<PolygonCoords>, area: Geometry -> real): (r: Option<nat>)
    ensures r.None? <==> forall j :: 0 <= j < |polys| ==> PartArea(polys, j, area) <= 0.0
    ensures r.Some? ==> r.value < |polys| && PartArea(polys, r.value, area) > 0.0
    ensures r.Some? ==> forall j :: 0 <= j < |polys| ==> PartArea(polys, j, area) <= PartArea(polys, r.value, area)
    ensures r.Some? ==> forall j :: 0 <= j < r.value ==> PartArea(polys, j, area) < PartArea(polys, r.value, area)
  {
    if polys == [] then None
    else
      var n := |polys| - 1;
      var init := polys[..n];
      var prev := LargestPart(init, area);
      assert forall j :: 0 <= j < n ==> PartArea(init, j, area) == PartArea(polys, j, area);
      var best := if prev.Some? then PartArea(init, prev.value, area) else 0.0;
      if PartArea(polys, n, area) > best then Some(n) else prev
  }

  /** The `maxArea` / `maxAreaPolygon` loop of the anchor pass. */
  method SelectLargestPart(polys: seq<PolygonCoords>, area: Geometry -> real) returns (best: Option<nat>)
    ensures best == LargestPart(polys, area)
    ensures best.Some? ==> best.value < |polys|
  {
    var maxArea := 0.0;
    best := None;
    var i := 0;
    while i < |polys|
      invariant 0 <= i <= |polys|
      invariant best == LargestPart(polys[..i], area)
      invariant best.Some? ==> best.value < i
      invariant maxArea == if best.Some? then area(Polygon(polys[best.value])) else 0.0
    {
      var a := area(Polygon(polys[i]));
      assert polys[..i + 1][..i] == polys[..i];
      if a > maxArea {
        maxArea := a;
        best := Some(i);
      }
      i := i + 1;
    }
    assert polys[..i] == polys;
  }

  /**
   * The anchor of a feature: Russia uses the centroid of its whole
   * geometry; a multi-polygon uses the centre of mass of its largest part;
   * a polygon uses its own centre of mass. `None` is the case where no part
   * has a positive area, in which the source passes `undefined` to
   * `turf.centerOfMass` and the pass throws.
   */
  function Anchor(f: Feature, turf: Turf): (a: Option<Point>)
    ensures f.id == RussiaId ==> a == Some(turf.centroid(f.geometry))
    ensures f.id != RussiaId && f.geometry.Polygon? ==> a == Some(turf.centerOfMass(f.geometry))
    ensures f.id != RussiaId && f.geometry.MultiPolygon? ==>
      (a.None? <==> forall j :: 0 <= j < |f.geometry.polygons| ==> PartArea(f.geometry.polygons, j, turf.area) <= 0.0)
    ensures f.id != RussiaId && f.geometry.MultiPolygon? && LargestPart(f.geometry.polygons, turf.area).Some? ==>
      a == Some(turf.centerOfMass(Polygon(f.geometry.polygons[LargestPart(f.geometry.polygons, turf.area).value])))
  {
    if f.id == RussiaId then Some(turf.centroid(f.geometry))
    else
      match f.geometry
      case MultiPolygon(polys) =>
        (match LargestPart(polys, turf.area)
         case None => None
         case Some(i) => Some(turf.centerOfMass(Polygon(polys[i]))))
      case Polygon(_) => Some(turf.centerOfMass(f.geometry))
  }

  function Anchored(f: Feature, turf: Turf): Feature {
    f.(center := Anchor(f, turf))
  }

  /** The features as `wrangleGeo` leaves them. */
  function WrangledFeatures(fs: seq<Feature>, turf: Turf): (r: seq<Feature>)
    ensures |r| == |WithoutAntarctica(fs)|
    ensures forall f :: f in r ==> f.id != AntarcticaId
    ensures forall i :: 0 <= i < |r| ==>
      var w := WithoutAntarctica(fs)[i];
      && r[i].id == w.id && r[i].name == w.name && r[i].geometry == w.geometry
      && r[i].center == Anchor(w, turf)
      && (w.id == FranceId ==> Code(r[i]) == "fr")
      && (w.id == NorwayId ==> Code(r[i]) == "no")
      && (w.id != FranceId && w.id != NorwayId ==> r[i].isoA2 == w.isoA2)
  {
    var w := WithoutAntarctica(fs);
    var r := seq(|w|, i requires 0 <= i < |w| => Anchored(PatchCode(w[i]), turf));
    assert forall f :: f in r ==> f.id != AntarcticaId by {
      forall f | f in r ensures f.id != AntarcticaId {
        var i :| 0 <= i < |r| && r[i] == f;
        assert w[i] in w;
      }
    }
    r
  }

  /** The features that can host a bubble: those whose code is not "-99". */
  function Hosted(fs: seq<Feature>): (r: seq<Feature>)
    ensures forall f :: f in r <==> f in fs && Code(f) != NoCode
  {
    if fs == [] then []
    else (if Code(fs[0]) == NoCode then [] else [fs[0]]) + Hosted(fs[1..])
  }

  /** Every feature has an anchor and no two hosted features share a code. */
  ghost predicate Indexable(fs: seq<Feature>) {
    && (forall i :: 0 <= i < |fs| ==> fs[i].center.Some?)
    && KeysDistinct(Hosted(fs), Code)
  }

  /**
   * What `wrangleGeo` needs of the raw features in order not to throw:
   * every anchor exists and `d3.index` meets no duplicate code.
   */
  ghost predicate GeoReady(fs: seq<Feature>, turf: Turf) {
    Indexable(WrangledFeatures(fs, turf))
  }

  /** The index of the hosted features, stated over all features. */
  lemma HostedIndex(fs: seq<Feature>, m: map<string, Feature>)
    requires KeysDistinct(Hosted(fs), Code)
    requires m == IndexBy(Hosted(fs), Code).value
    ensures m.Keys == set f | f in fs && Code(f) != NoCode :: Code(f)
    ensures forall f :: f in fs && Code(f) != NoCode ==> m[Code(f)] == f
  {
    var hosted := Hosted(fs);
    assert forall f :: f in hosted <==> f in fs && Code(f) != NoCode;
    forall f | f in fs && Code(f) != NoCode ensures m[Code(f)] == f {
      var i :| 0 <= i < |hosted| && hosted[i] == f;
    }
  }

  /**
   * `featureByCode`: every feature with a code, keyed by its code, and
   * nothing else.
   */
  function GeoIndex(fs: seq<Feature>): (m: map<string, Feature>)
    requires KeysDistinct(Hosted(fs), Code)
    ensures m.Keys == set f | f in fs && Code(f) != NoCode :: Code(f)
    ensures forall f :: f in fs && Code(f) != NoCode ==> m[Code(f)] == f
    ensures forall c :: c in m ==> m[c] in fs && Code(m[c]) == c
  {
    var m := IndexBy(Hosted(fs), Code).value;
    HostedIndex(fs, m);
    m
  }

  /** Among features that carry a code, no code occurs twice. */
  lemma {:induction false} HostedCodesUnique(fs: seq<Feature>)
    requires KeysDistinct(Hosted(fs), Code)
    ensures forall i, j :: 0 <= i < j < |fs| && Code(fs[i]) != NoCode && Code(fs[j]) != NoCode ==> Code(fs[i]) != Code(fs[j])
  {
    if fs != [] {
      var t := Hosted(fs[1..]);
      if Code(fs[0]) != NoCode {
        assert Hosted(fs) == [fs[0]] + t;
        KeysDistinctCons(fs[0], t, Code);
      } else {
        assert Hosted(fs) == t;
      }
      HostedCodesUnique(fs[1..]);
      forall i, j | 0 <= i < j < |fs| && Code(fs[i]) != NoCode && Code(fs[j]) != NoCode
        ensures Code(fs[i]) != Code(fs[j])
      {
        if i == 0 {
          assert fs[j] == fs[1..][j - 1];
          assert fs[j] in t;
        } else {
          assert fs[i] == fs[1..][i - 1] && fs[j] == fs[1..][j - 1];
        }
      }
    }
  }

  /** Every indexed code belongs to exactly one feature, the indexed one. */
  lemma IndexedCodeUnique(fs: seq<Feature>, c: string)
    requires Indexable(fs) && c in GeoIndex(fs)
    ensures exists k :: (0 <= k < |fs| && fs[k] == GeoIndex(fs)[c]
      && forall i :: 0 <= i < |fs| ==> (Code(fs[i]) == c <==> i == k))
  {
    HostedCodesUnique(fs);
    var k :| 0 <= k < |fs| && fs[k] == GeoIndex(fs)[c];
    assert Code(fs[k]) == c && c != NoCode;
  }

  /** Every indexed feature has its anchor. */
  lemma IndexedCentres(fs: seq<Feature>)
    requires Indexable(fs)
    ensures forall c :: c in GeoIndex(fs) ==> GeoIndex(fs)[c].center.Some?
  {
    forall c | c in GeoIndex(fs) ensures GeoIndex(fs)[c].center.Some? {
      var i :| 0 <= i < |fs| && fs[i] == GeoIndex(fs)[c];
    }
  }


  /** A world data object whose `features` list `wrangleGeo` replaces and rewrites. */
  class WorldData {
    var features: seq<Feature>

    constructor (features: seq<Feature>)
      ensures this.features == features
    {
      this.features := features;
    }
  }
}
