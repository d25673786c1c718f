/**
 * Per-country aggregation of brand traffic (`filterData` and the radius
 * domain in `setup`, js/vis-bubble-map.js): effective traffic, the
 * three-way filter, grouping by country, totals, the stable descending
 * ranking and the top-5 rows with one "Others" row.
 */
module Aggregation {
  import opened Common
  import opened Ordering
  import opened Categories

  /**
   * A row of the brand table. `traffic` and `bounceRate` are the numbers
   * `+d.Traffic` and `+d["Bounce Rate"].slice(0, -1)` (the bounce rate
   * without its trailing "%"); `None` stands for a text that reads as NaN.
   */
  datatype BrandRecord = BrandRecord(id: string, brandName: string, country: string, traffic: Option<real>, bounceRate: Option<real>)

  /** `accessor.brand.traffic`: traffic that did not bounce, NaN read as 0. */
  function Effective(d: BrandRecord): (t: real)
    ensures d.traffic.None? || d.bounceRate.None? ==> t == 0.0
    ensures d.bounceRate == Some(100.0) ==> t == 0.0
    ensures d.bounceRate == Some(0.0) && d.traffic.Some? ==> t == d.traffic.value
  {
    match (d.traffic, d.bounceRate)
    case (Some(traffic), Some(bounce)) => traffic * (1.0 - bounce / 100.0)
    case _ => 0.0
  }

  /** With a traffic count and a bounce rate between 0% and 100%, the effective traffic lies between 0 and the traffic. */
  lemma EffectiveBounds(d: BrandRecord)
    requires d.traffic.Some? && d.bounceRate.Some?
    requires 0.0 <= d.traffic.value && 0.0 <= d.bounceRate.value <= 100.0
    ensures 0.0 <= Effective(d) <= d.traffic.value
  {
    var t, f := d.traffic.value, 1.0 - d.bounceRate.value / 100.0;
    assert 0.0 <= f <= 1.0;
    assert t * f <= t * 1.0;
  }

  /**
   * The category of a brand through the master table, "Other" when the
   * brand has no master row (see `KeepAsWritten` for what the source does
   * then).
   */
  function BrandCategory(brandById: map<string, MasterRecord>, d: BrandRecord): string {
    if d.id in brandById then NormaliseCategory(brandById[d.id].category) else "Other"
  }

  /**
   * The filter of `filterData`: the country has a map feature, the
   * effective traffic is not exactly zero, and the category matches unless
   * the filter is "ALL".
   */
  predicate Keep(d: BrandRecord, geoCodes: set<string>, brandById: map<string, MasterRecord>, selected: string) {
    && d.country in geoCodes
    && Effective(d) != 0.0
    && (selected == "ALL" || BrandCategory(brandById, d) == selected)
  }

  /**
   * The filter exactly as written: the category is looked up only when the
   * filter is not "ALL", and a brand without a master row makes
   * `accessor.master.category(undefined)` throw (`None`).
   */
  function KeepAsWritten(d: BrandRecord, geoCodes: set<string>, brandById: map<string, MasterRecord>, selected: string): (r: Option<bool>)
    ensures r.None? <==> d.country in geoCodes && Effective(d) != 0.0 && selected != "ALL" && d.id !in brandById
  {
    if d.country !in geoCodes then Some(false)
    else if Effective(d) == 0.0 then Some(false)
    else if selected != "ALL" && d.id !in brandById then None
    else Some(selected == "ALL" || NormaliseCategory(brandById[d.id].category) == selected)
  }

  /** Wherever the written filter does not throw, it agrees with `Keep`. */
  lemma KeepAsWrittenAgrees(d: BrandRecord, geoCodes: set<string>, brandById: map<string, MasterRecord>, selected: string)
    requires KeepAsWritten(d, geoCodes, brandById, selected).Some?
    ensures KeepAsWritten(d, geoCodes, brandById, selected) == Some(Keep(d, geoCodes, brandById, selected))
  {
  }

  /** A brand with traffic but no master row, under a category filter: the written filter throws where `Keep` keeps it as "Other". */
  lemma MissingMasterRowThrows()
    ensures var d := BrandRecord("b9", "Unlisted", "us", Some(100.0), Some(0.0));
      && KeepAsWritten(d, {"us"}, map[], "Other") == None
      && Keep(d, {"us"}, map[], "Other")
  {
  }

  /**
   * A brand without a master row counts as "Other": it passes the category
   * test exactly under the "ALL" and "Other" filters.
   */
  lemma UnlistedBrandIsOther(d: BrandRecord, geoCodes: set<string>, brandById: map<string, MasterRecord>, selected: string)
    requires d.id !in brandById
    ensures Keep(d, geoCodes, brandById, selected)
        <==> d.country in geoCodes && Effective(d) != 0.0 && (selected == "ALL" || selected == "Other")
  {
  }

  /** The brands `Keep` accepts, in their order. */
  function Kept(brands: seq<BrandRecord>, geoCodes: set<string>, brandById: map<string, MasterRecord>, selected: string): (r: seq<BrandRecord>)
    ensures forall d :: d in r <==> d in brands && Keep(d, geoCodes, brandById, selected)
  {
    if brands == [] then []
    else
      (if Keep(brands[0], geoCodes, brandById, selected) then [brands[0]] else [])
      + Kept(brands[1..], geoCodes, brandById, selected)
  }

  /** The group `d3.rollup` forms for country `c`: its records, in their order. */
  function GroupOf(rs: seq<BrandRecord>, c: string): seq<BrandRecord> {
    if rs == [] then []
    else (if rs[0].country == c then [rs[0]] else []) + GroupOf(rs[1..], c)
  }

  /** A group holds exactly the records of its country. */
  lemma {:induction false} GroupOfMembers(rs: seq<BrandRecord>, c: string)
    ensures forall d :: d in GroupOf(rs, c) <==> d in rs && d.country == c
  {
    if rs != [] {
      GroupOfMembers(rs[1..], c);
      assert rs == [rs[0]] + rs[1..];
    }
  }

  /** `traffic / total`: a ratio, or not finite when the total is 0 (JavaScript gives Infinity or NaN). */
  datatype Share = Ratio(value: real) | NonFinite

  /** A row of `topBrands`; `rank` is absent on the "Others" row. */
  datatype Row = Row(rank: Option<nat>, brandName: string, traffic: real, trafficShare: Share)

  /** The value `valueByCountryCode` holds for a country. */
  datatype CountryValue = CountryValue(total: real, topBrands: seq<Row>)

  const TopN := 5
  const OthersName := "Others"

  function ShareOf(x: real, total: real): Share {
    if total == 0.0 then NonFinite else Ratio(x / total)
  }

  function RowTraffic(r: Row): real {
    r.traffic
  }

  function ShareValue(r: Row): real {
    if r.trafficShare.Ratio? then r.trafficShare.value else 0.0
  }

  /** Ranked rows for `s`, ranks 1, 2, ... in order. */
  function RankedRows(s: seq<BrandRecord>, total: real): (rows: seq<Row>)
    ensures |rows| == |s|
  {
    seq(|s|, i requires 0 <= i < |s| => Row(Some(i + 1), s[i].brandName, Effective(s[i]), ShareOf(Effective(s[i]), total)))
  }

  /** The reducer of `d3.rollup` in `filterData`. */
  function Summarise(v: seq<BrandRecord>): CountryValue {
    var total := SumBy(v, Effective);
    var all := SortDesc(v, Effective);
    if |all| > TopN then
      var rest := SumBy(all[TopN..], Effective);
      CountryValue(total, RankedRows(all[..TopN], total) + [Row(None, OthersName, rest, ShareOf(rest, total))])
    else
      CountryValue(total, RankedRows(all, total))
  }

  /** Number of ranked rows of a group of `n` records. */
  function RankedCount(n: nat): nat {
    if n > TopN then TopN else n
  }

  /**
   * The shape of `topBrands`: at most five ranked rows, ranks 1..k, taken
   * from the stable descending order of the group; a sixth, unranked
   * "Others" row exactly when the group has more than five members.
   */
  lemma SummariseShape(v: seq<BrandRecord>)
    ensures var rows := Summarise(v).topBrands;
      && |rows| == (if |v| > TopN then TopN + 1 else |v|)
      && (forall i :: 0 <= i < RankedCount(|v|) ==>
            && rows[i].rank == Some(i + 1)
            && rows[i].brandName == SortDesc(v, Effective)[i].brandName
            && rows[i].traffic == Effective(SortDesc(v, Effective)[i]))
      && (|v| > TopN ==> rows[TopN].rank.None? && rows[TopN].brandName == OthersName)
  {
  }

  /** Ranked rows come in non-increasing traffic order. */
  lemma SummariseOrdered(v: seq<BrandRecord>)
    ensures var rows := Summarise(v).topBrands;
      forall i, j :: 0 <= i < j < RankedCount(|v|) ==> rows[i].traffic >= rows[j].traffic
  {
    SummariseShape(v);
    SortDescSorted(v, Effective);
  }

  lemma {:induction false} RankedRowsSum(s: seq<BrandRecord>, total: real)
    ensures SumBy(RankedRows(s, total), RowTraffic) == SumBy(s, Effective)
  {
    if s != [] {
      RankedRowsSum(s[1..], total);
      var rows := RankedRows(s, total);
      var rest := RankedRows(s[1..], total);
      assert forall i :: 0 <= i < |rest| ==> rows[1..][i].traffic == rest[i].traffic;
      RowsSumByTraffic(rows[1..], rest);
    }
  }

  lemma {:induction false} RowsSumByTraffic(a: seq<Row>, b: seq<Row>)
    requires |a| == |b|
    requires forall i :: 0 <= i < |a| ==> a[i].traffic == b[i].traffic
    ensures SumBy(a, RowTraffic) == SumBy(b, RowTraffic)
  {
    if a != [] {
      RowsSumByTraffic(a[1..], b[1..]);
    }
  }

  /** The row traffics, "Others" included, add up to the total. */
  lemma SummariseTrafficSum(v: seq<BrandRecord>)
    ensures SumBy(Summarise(v).topBrands, RowTraffic) == Summarise(v).total
  {
    var total := SumBy(v, Effective);
    var all := SortDesc(v, Effective);
    SortDescSum(v, Effective, Effective);
    if |all| > TopN {
      var rest := SumBy(all[TopN..], Effective);
      var others := Row(None, OthersName, rest, ShareOf(rest, total));
      RankedRowsSum(all[..TopN], total);
      SumByAppend(RankedRows(all[..TopN], total), [others], RowTraffic);
      SumByAppend(all[..TopN], all[TopN..], Effective);
      assert all[..TopN] + all[TopN..] == all;
    } else {
      RankedRowsSum(all, total);
    }
  }

  lemma {:induction false} SharesOfRows(rows: seq<Row>, total: real)
    requires total != 0.0
    requires forall i :: 0 <= i < |rows| ==> rows[i].trafficShare == Ratio(rows[i].traffic / total)
    ensures SumBy(rows, ShareValue) == SumBy(rows, RowTraffic) / total
  {
    if rows != [] {
      SharesOfRows(rows[1..], total);
      var a, s := rows[0].traffic, SumBy(rows[1..], RowTraffic);
      assert a / total + s / total == (a + s) / total;
    }
  }

  /**
   * Every row's share is its traffic over the total, so when the total is
   * not zero the shares, "Others" included, add up to exactly 1.
   */
  lemma SharesSumToOne(v: seq<BrandRecord>)
    requires Summarise(v).total != 0.0
    ensures var rows := Summarise(v).topBrands;
      && (forall i :: 0 <= i < |rows| ==> rows[i].trafficShare == Ratio(rows[i].traffic / Summarise(v).total))
      && SumBy(rows, ShareValue) == 1.0
  {
    var cv := Summarise(v);
    SummariseTrafficSum(v);
    SharesOfRows(cv.topBrands, cv.total);
    assert SumBy(cv.topBrands, ShareValue) == cv.total / cv.total;
    SelfRatio(cv.total);
  }

  /** With positive effective traffic everywhere, every row carries positive traffic. */
  lemma RowsTrafficPositive(v: seq<BrandRecord>)
    requires forall d :: d in v ==> Effective(d) > 0.0
    ensures var rows := Summarise(v).topBrands;
      forall i :: 0 <= i < |rows| ==> rows[i].traffic > 0.0
  {
    var all := SortDesc(v, Effective);
    SortDescPermutation(v, Effective);
    assert forall d :: d in all ==> d in v by {
      forall d | d in all ensures d in v {
        assert d in multiset(all);
      }
    }
    SummariseShape(v);
    var rows := Summarise(v).topBrands;
    forall i | 0 <= i < |rows| ensures rows[i].traffic > 0.0 {
      if i < RankedCount(|v|) {
        assert all[i] in all;
      } else {
        assert forall d :: d in all[TopN..] ==> d in all;
        PositiveSum(all[TopN..]);
      }
    }
  }

  /**
   * When every member has positive effective traffic (as the filter ensures
   * for non-negative data), the total is positive and every share lies in
   * (0, 1].
   */
  lemma SharesInUnitInterval(v: seq<BrandRecord>)
    requires v != []
    requires forall d :: d in v ==> Effective(d) > 0.0
    ensures Summarise(v).total > 0.0
    ensures var rows := Summarise(v).topBrands;
      forall i :: 0 <= i < |rows| ==>
        rows[i].trafficShare.Ratio? && 0.0 < rows[i].trafficShare.value <= 1.0
  {
    var cv := Summarise(v);
    var rows := cv.topBrands;
    PositiveSum(v);
    SharesSumToOne(v);
    SummariseTrafficSum(v);
    RowsTrafficPositive(v);
    forall i | 0 <= i < |rows| ensures 0.0 < rows[i].trafficShare.value <= 1.0 {
      var x := rows[i].traffic;
      ShareBelowTotal(rows, i);
      UnitRatio(x, cv.total);
    }
  }

  lemma SelfRatio(t: real)
    requires t != 0.0
    ensures t / t == 1.0
  {
  }

  lemma UnitRatio(x: real, t: real)
    requires 0.0 < x <= t
    ensures 0.0 < x / t <= 1.0
  {
  }

  lemma {:induction false} PositiveSum(s: seq<BrandRecord>)
    requires s != []
    requires forall d :: d in s ==> Effective(d) > 0.0
    ensures SumBy(s, Effective) > 0.0
  {
    if |s| > 1 {
      PositiveSum(s[1..]);
    }
  }

  lemma {:induction false} ShareBelowTotal(rows: seq<Row>, i: nat)
    requires i < |rows|
    requires forall j :: 0 <= j < |rows| ==> rows[j].traffic > 0.0
    ensures rows[i].traffic <= SumBy(rows, RowTraffic)
  {
    if i > 0 {
      ShareBelowTotal(rows[1..], i - 1);
    } else if |rows| > 1 {
      RowsPositive(rows[1..]);
    }
  }

  lemma {:induction false} RowsPositive(rows: seq<Row>)
    requires forall j :: 0 <= j < |rows| ==> rows[j].traffic > 0.0
    ensures SumBy(rows, RowTraffic) >= 0.0
  {
    if rows != [] {
      RowsPositive(rows[1..]);
    }
  }

  /**
   * `valueByCountryCode`: for each country with at least one kept brand,
   * the summary of its kept brands.
   */
  function Aggregate(brands: seq<BrandRecord>, geoCodes: set<string>, brandById: map<string, MasterRecord>, selected: string): (m: map<string, CountryValue>)
    ensures m.Keys <= geoCodes
    ensures m.Keys == set d | d in brands && Keep(d, geoCodes, brandById, selected) :: d.country
  {
    var kept := Kept(brands, geoCodes, brandById, selected);
    map c | c in (set d | d in kept :: d.country) :: Summarise(GroupOf(kept, c))
  }

  /**
   * Every aggregated country comes from a non-empty group of kept brands,
   * its total is their effective traffic, and it has at least one row.
   */
  lemma AggregateGroups(brands: seq<BrandRecord>, geoCodes: set<string>, brandById: map<string, MasterRecord>, selected: string, c: string)
    requires c in Aggregate(brands, geoCodes, brandById, selected)
    ensures var g := GroupOf(Kept(brands, geoCodes, brandById, selected), c);
      && g != []
      && (forall d :: d in g <==> d in brands && d.country == c && Keep(d, geoCodes, brandById, selected))
      && Aggregate(brands, geoCodes, brandById, selected)[c].total == SumBy(g, Effective)
      && |Aggregate(brands, geoCodes, brandById, selected)[c].topBrands| >= 1
  {
    var kept := Kept(brands, geoCodes, brandById, selected);
    var d :| d in kept && d.country == c;
    var g := GroupOf(kept, c);
    GroupOfMembers(kept, c);
    assert d in g;
    SummariseShape(g);
  }

  /**
   * The key order of the `d3.rollup` map: each country once, in the order
   * of its first record.
   */
  function FirstAppearance(rs: seq<BrandRecord>): (r: seq<string>)
    ensures forall c :: c in r <==> exists d :: d in rs && d.country == c
    ensures Distinct(r)
  {
    if rs == [] then []
    else
      var n := |rs| - 1;
      var p := FirstAppearance(rs[..n]);
      assert rs == rs[..n] + [rs[n]];
      assert forall d :: d in rs[..n] ==> d in rs;
      if rs[n].country in p then p else p + [rs[n].country]
  }

  /** The rollup's key order lists exactly the aggregated countries, each once. */
  lemma AggregateKeyOrder(brands: seq<BrandRecord>, geoCodes: set<string>, brandById: map<string, MasterRecord>, selected: string)
    ensures var order := FirstAppearance(Kept(brands, geoCodes, brandById, selected));
      && Distinct(order)
      && forall c :: c in order <==> c in Aggregate(brands, geoCodes, brandById, selected)
  {
  }


  /** A brand whose bounce rate is "100%" is in no aggregate. */
  lemma FullBounceExcluded(brands: seq<BrandRecord>, geoCodes: set<string>, brandById: map<string, MasterRecord>, selected: string, d: BrandRecord)
    requires d.bounceRate == Some(100.0)
    ensures !Keep(d, geoCodes, brandById, selected)
    ensures forall c :: d !in GroupOf(Kept(brands, geoCodes, brandById, selected), c)
  {
    forall c ensures d !in GroupOf(Kept(brands, geoCodes, brandById, selected), c) {
      GroupOfMembers(Kept(brands, geoCodes, brandById, selected), c);
    }
  }

  /** The worked example: two brands in one country, 1000 at 20% bounce and 500 at 50%. */
  lemma TwoBrandExample()
    ensures var brands := [
        BrandRecord("b1", "Brand A", "us", Some(1000.0), Some(20.0)),
        BrandRecord("b2", "Brand B", "us", Some(500.0), Some(50.0))];
      Aggregate(brands, {"us"}, map[], "ALL")
        == map["us" := CountryValue(1050.0, [
             Row(Some(1), "Brand A", 800.0, Ratio(800.0 / 1050.0)),
             Row(Some(2), "Brand B", 250.0, Ratio(250.0 / 1050.0))])]
  {
    var a := BrandRecord("b1", "Brand A", "us", Some(1000.0), Some(20.0));
    var b := BrandRecord("b2", "Brand B", "us", Some(500.0), Some(50.0));
    var brands := [a, b];
    assert Effective(a) == 800.0 && Effective(b) == 250.0;
    assert brands[1..] == [b] && [b][1..] == [];
    assert Keep(a, {"us"}, map[], "ALL") && Keep(b, {"us"}, map[], "ALL");
    assert Kept([], {"us"}, map[], "ALL") == [];
    assert Kept([b], {"us"}, map[], "ALL") == [b];
    var kept := Kept(brands, {"us"}, map[], "ALL");
    assert kept == brands;
    assert GroupOf([b], "us") == [b];
    assert GroupOf(kept, "us") == brands;
    assert SortDesc([b], Effective) == [b];
    assert SortDesc(brands, Effective) == brands;
    assert SumBy([b], Effective) == 250.0;
    assert SumBy(brands, Effective) == 1050.0;
    var rows := [
      Row(Some(1), "Brand A", 800.0, Ratio(800.0 / 1050.0)),
      Row(Some(2), "Brand B", 250.0, Ratio(250.0 / 1050.0))];
    assert RankedRows(brands, 1050.0) == rows;
    assert Summarise(brands) == CountryValue(1050.0, rows);
    assert (set d | d in kept :: d.country) == {"us"};
  }

  function MaxOf(s: seq<int>): (m: int)
    requires s != []
    ensures forall i :: 0 <= i < |s| ==> s[i] <= m
    ensures exists i :: 0 <= i < |s| && s[i] == m
  {
    if |s| == 1 then s[0]
    else
      var rest := MaxOf(s[1..]);
      assert forall i :: 1 <= i < |s| ==> s[i] == s[1..][i - 1];
      if s[0] >= rest then s[0] else rest
  }

  /** A country's effective traffic over all brand records, unfiltered. */
  function CountryTotal(brands: seq<BrandRecord>, c: string): real {
    SumBy(GroupOf(brands, c), Effective)
  }

  /**
   * The upper end of the radius domain in `setup`: the largest rounded
   * country total over all brand records, with no filter applied; `d3.max`
   * of nothing is undefined (`None`).
   */
  function DomainMax(brands: seq<BrandRecord>): (r: Option<int>)
    ensures r.None? <==> brands == []
    ensures r.Some? ==> forall d :: d in brands ==> Round(CountryTotal(brands, d.country)) <= r.value
    ensures r.Some? ==> exists d :: d in brands && Round(CountryTotal(brands, d.country)) == r.value
  {
    if brands == [] then None
    else
      var totals := seq(|brands|, i requires 0 <= i < |brands| => Round(CountryTotal(brands, brands[i].country)));
      var m := MaxOf(totals);
      assert forall d :: d in brands ==> Round(CountryTotal(brands, d.country)) <= m by {
        forall d | d in brands ensures Round(CountryTotal(brands, d.country)) <= m {
          var i :| 0 <= i < |brands| && brands[i] == d;
          assert totals[i] <= m;
        }
      }
      var i :| 0 <= i < |totals| && totals[i] == m;
      assert brands[i] in brands;
      Some(m)
  }
}
