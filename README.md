# Bubble map of brand traffic

This project is a Dafny model of the world bubble map in `js/vis-bubble-map.js`. The map shows non-bounce website traffic of brands per country. The model also covers its size legend (`js/vis-size-legend.js`) and its tooltip (`js/vis-tooltip.js`).

What is modelled:

- **Preparing the world features.** Antarctica is dropped. The missing ISO codes of France and Norway are patched. Each feature gets an anchor for its bubble: the centroid for Russia, the centre of mass of the earliest largest part for a multi-polygon, and the centre of mass otherwise. Features with a code are then indexed by their lower-cased code.
- **Preparing the master table.** The table is indexed by brand id. The category filter's options are "ALL" followed by the distinct normalised categories in ascending order.
- **Aggregating brand traffic.** A brand's effective traffic is its traffic that did not bounce. A three-way filter decides which brands count. The kept brands are grouped by country, and each group gets:
  - a total;
  - a stable descending ranking;
  - up to five ranked rows, plus an "Others" row when there are more than five brands.
- **The radius scale.** Its domain is fixed once from the unfiltered data. Each resize sets its range.
- **The map's drawing state:**
  - one path per feature, with its `is-active` class and whether it has pointer listeners;
  - the stacking order of the paths;
  - the bubbles, with their radius at the current zoom factor;
  - the hover behaviour of `entered`, `moved` and `left`.
- **The size legend.** This covers the tick values, the pass that separates the labels, the item order and `maxR`, and the open/close toggle.
- **The tooltip.** This covers showing and hiding it, and the clamped placement next to the pointer.

## Modules

- `Common` (`common.dfy`): options, `Math.round` and `Math.ceil`, ASCII lower-casing, `d3.sum` and `d3.index`.
- `Ordering` (`ordering.dfy`): the stable descending sort that `Array.prototype.sort` with `d3.descending` performs. It exists as a function and as an in-place array method.
- `Categories` (`categories.dfy`): category normalisation and the filter's option list.
- `Geo` (`geo.dfy`): features, the Antarctica, code and anchor rules, and the index by code.
- `Aggregation` (`aggregation.dfy`): effective traffic, the filter, the per-country summary and the radius domain.
- `SizeLegendView` (`size_legend.dfy`): the legend's ticks and its panel state.
- `TooltipView` (`tooltip.dfy`): the tooltip's placement and state.
- `BubbleMap` (`bubble_map.dfy`): the map component as a class.
  - The inputs and what is computed once during construction are constants of the class.
  - The filter, aggregate, layout, zoom factor, paths, stacking order and bubbles are fields that its methods update.
  - `Aggregated()` is the data invariant and `Valid()` is the drawing invariant.

Where the code and the written description of the system differ, the model follows the code:

- The filter drops a brand only when its effective traffic is exactly zero. Negative values are kept.
- A multi-polygon with no part of positive area has no anchor. The code then passes `undefined` to `turf.centerOfMass` and throws.

## Model

| member | source | states |
|---|---|---|
| Common.Round | js/vis-bubble-map.js:69 | `Math.round` gives the integer within half a unit of its argument, with halves rounded up |
| Common.Ceil | js/vis-bubble-map.js:251 | `Math.ceil` gives the least integer not below its argument |
| Common.Lower | js/vis-bubble-map.js:29 | lower-casing keeps the length and lower-cases each ASCII letter |
| Common.IndexBy | js/vis-bubble-map.js:162 | `d3.index` fails exactly when two elements share a key; otherwise its keys are exactly the elements' keys and each key maps to its element |
| Common.SumBy | js/vis-bubble-map.js:197 | `d3.sum` as a sum over the elements; `SumByAppend` splits it over a concatenation and `SortDescSum` shows it ignores order |
| Ordering.SortDesc | js/vis-bubble-map.js:198-205 | the stable descending sort keeps the length; `SortDescSorted`, `SortDescPermutation`, `SortDescStable` and `SortDescCharacterised` state what it is |
| Ordering.SortDescSorted | js/vis-bubble-map.js:198-205 | the descending sort orders elements by non-increasing key |
| Ordering.SortDescPermutation | js/vis-bubble-map.js:198-205 | the sort is a permutation of its input |
| Ordering.SortDescStable | js/vis-bubble-map.js:198-205 | elements with equal keys keep their input order |
| Ordering.SortDescSum | js/vis-bubble-map.js:218-221 | sorting does not change a sum over the elements |
| Ordering.SortDescCharacterised | js/vis-bubble-map.js:198-205 | every ordered, stable arrangement of the input equals the sort, so the sort is uniquely determined |
| Ordering.SortDescOfIncreasing | js/vis-size-legend.js:80 | sorting a sequence whose keys strictly increase reverses it |
| Ordering.SortDescInPlace | js/vis-size-legend.js:80 | the in-place sort of an array leaves the array equal to the descending sort of its old contents |
| Categories.NormaliseCategory | js/vis-bubble-map.js:34-35 | "" and "?" become "Other" and every other category is unchanged |
| Categories.LessIrreflexive | js/vis-bubble-map.js:166 | no string sorts before itself |
| Categories.LessTransitive | js/vis-bubble-map.js:166 | the ascending string order is transitive |
| Categories.LessTotal | js/vis-bubble-map.js:166 | any two distinct strings are ordered one way or the other |
| Categories.SortedDistinctFacts | js/vis-bubble-map.js:165-166 | de-duplicating and sorting gives a strictly ascending sequence with exactly the input's elements |
| Categories.StrictlyAscendingUnique | js/vis-bubble-map.js:165-166 | two strictly ascending sequences with the same elements are equal, so the option list depends only on the set of categories |
| Categories.NormalisedCategories | js/vis-bubble-map.js:165 | the mapped categories are the master rows' normalised categories, one per row in order |
| Categories.CategoryOptions | js/vis-bubble-map.js:164-167 | the options start with "ALL" and are followed by every normalised master category exactly once, strictly ascending |
| Geo.WithoutAntarctica | js/vis-bubble-map.js:115-117 | the features kept are exactly those whose id is not "010" |
| Geo.PatchCode | js/vis-bubble-map.js:120-128 | France gets code "fr" and Norway "no"; every other feature is unchanged, and only the ISO code ever changes |
| Geo.Code | js/vis-bubble-map.js:29 | a feature's code is its lower-cased ISO code, with the properties `Lower` states |
| Geo.LargestPart | js/vis-bubble-map.js:137-146 | the chosen part has positive area, is as large as every part and strictly larger than every earlier part; no part is chosen exactly when no part has positive area |
| Geo.SelectLargestPart | js/vis-bubble-map.js:137-146 | the `maxArea` loop returns the part `LargestPart` specifies |
| Geo.Anchor | js/vis-bubble-map.js:131-150 | Russia is anchored at its centroid and a polygon at its centre of mass; a multi-polygon is anchored at the centre of mass of its `LargestPart`, and has no anchor exactly when no part has positive area |
| Geo.WrangledFeatures | js/vis-bubble-map.js:113-151 | after the wrangling passes no feature is Antarctica, France and Norway carry their codes, other codes are unchanged, and each feature has its anchor |
| Geo.Hosted | js/vis-bubble-map.js:154-156 | the features that can be indexed are exactly those whose code is not "-99" |
| Geo.GeoIndex | js/vis-bubble-map.js:153-158 | `featureByCode` has exactly the codes other than "-99" as keys, and maps each to the feature that has that code |
| Geo.HostedCodesUnique | js/vis-bubble-map.js:153-158 | when the index exists, no two features with a code share it |
| Geo.IndexedCodeUnique | js/vis-bubble-map.js:153-158 | an indexed code belongs to exactly one feature, the indexed one |
| Geo.IndexedCentres | js/vis-bubble-map.js:131-158 | every indexed feature has an anchor |
| Geo.WorldData.constructor | js/vis-bubble-map.js:6 | the world data holds the given features |
| Aggregation.Effective | js/vis-bubble-map.js:43-44 | effective traffic is 0 when traffic or bounce rate is not a number and when the bounce rate is 100%, and equals the traffic at 0% |
| Aggregation.EffectiveBounds | js/vis-bubble-map.js:43-44 | for non-negative traffic and a bounce rate from 0% to 100%, effective traffic lies between 0 and the traffic |
| Aggregation.Keep | js/vis-bubble-map.js:181-193 | the three-way filter with the category of a brand without a master row taken as "Other"; `UnlistedBrandIsOther`, `FullBounceExcluded` and `KeepAsWrittenAgrees` state its cases |
| Aggregation.KeepAsWritten | js/vis-bubble-map.js:181-193 | the filter as written throws exactly for a brand with a feature, non-zero traffic and no master row under a category filter |
| Aggregation.KeepAsWrittenAgrees | js/vis-bubble-map.js:181-193 | where the written filter does not throw, it agrees with `Keep` |
| Aggregation.MissingMasterRowThrows | js/vis-bubble-map.js:187-190 | a brand with traffic but no master row, under the "Other" filter, makes the written filter throw, while `Keep` keeps it |
| Aggregation.UnlistedBrandIsOther | js/vis-bubble-map.js:187-190 | under `Keep`, a brand without a master row passes the category test exactly for the "ALL" and "Other" filters |
| Aggregation.Kept | js/vis-bubble-map.js:181-193 | the kept brands are exactly the brands that pass the filter |
| Aggregation.GroupOf | js/vis-bubble-map.js:194-196 | the records of one country in their order, as the rollup groups by `countryCode` (:238); `GroupOfMembers` states its members |
| Aggregation.Summarise | js/vis-bubble-map.js:196-237 | the rollup's reducer; `SummariseShape`, `SummariseOrdered`, `SummariseTrafficSum` and `SharesSumToOne` state its rows, order, sums and shares |
| Aggregation.GroupOfMembers | js/vis-bubble-map.js:194-196 | a rollup group holds exactly the records of its country |
| Aggregation.RankedRows | js/vis-bubble-map.js:227-232 | there is one ranked row per brand |
| Aggregation.SummariseShape | js/vis-bubble-map.js:206-232 | groups of up to 5 brands get one row each; larger groups get 5 ranked rows and then one unranked "Others" row; the ranks run 1, 2, … and each ranked row carries its brand's name and traffic from the sorted order |
| Aggregation.SummariseOrdered | js/vis-bubble-map.js:198-215 | ranked rows come in non-increasing traffic order |
| Aggregation.SummariseTrafficSum | js/vis-bubble-map.js:197-224 | the row traffics, "Others" included, add up to the group's total |
| Aggregation.SharesSumToOne | js/vis-bubble-map.js:214-231 | when the total is non-zero, each share is its row's traffic over the total, and the shares add up to exactly 1 |
| Aggregation.RowsTrafficPositive | js/vis-bubble-map.js:210-224 | if every brand has positive traffic, so does every row |
| Aggregation.SharesInUnitInterval | js/vis-bubble-map.js:214-231 | if every brand has positive traffic, the total is positive and every share lies in (0, 1] |
| Aggregation.Aggregate | js/vis-bubble-map.js:194-239 | the countries aggregated are exactly the countries of kept brands, all of which have a feature |
| Aggregation.AggregateGroups | js/vis-bubble-map.js:194-239 | each aggregated country's group is non-empty and holds exactly its kept brands; its total is their effective traffic, and it has at least one row |
| Aggregation.FirstAppearance | js/vis-bubble-map.js:194-239 | the rollup's key order lists each country of the records exactly once |
| Aggregation.AggregateKeyOrder | js/vis-bubble-map.js:194-239 | the key order lists exactly the aggregated countries, each once |
| Aggregation.FullBounceExcluded | js/vis-bubble-map.js:186 | a brand with a 100% bounce rate is dropped and belongs to no group |
| Aggregation.TwoBrandExample | js/vis-bubble-map.js:180-239 | two brands in one country with 1000 at 20% and 500 at 50% bounce aggregate to a total of 1050 with rows 800 and 250 and their shares |
| Aggregation.MaxOf | js/vis-bubble-map.js:65-73 | `d3.max` of a non-empty list is an element of it and not below any element |
| Aggregation.DomainMax | js/vis-bubble-map.js:61-74 | the radius domain's upper end is the largest rounded unfiltered country total, and is absent exactly when there are no brand records |
| SizeLegendView.AtLeast | js/vis-size-legend.js:63 | the filter keeps exactly the values of at least the threshold |
| SizeLegendView.AtLeastAscending | js/vis-size-legend.js:63 | filtering keeps an ascending sequence ascending |
| SizeLegendView.AtLeastSubsequence | js/vis-size-legend.js:63 | the filter's result is the input read at strictly increasing positions that include every value of at least the threshold, so order and repetitions are kept |
| SizeLegendView.TickValues | js/vis-size-legend.js:61-63 | the legend's values are 1e6, 5e6 and 1e7, followed by exactly the scale ticks of at least 5e7; `TickValuesInOrder` adds their order and repetitions |
| SizeLegendView.TickValuesInOrder | js/vis-size-legend.js:61-63 | after the three fixed values come the scale ticks of at least 5e7 in their original order: the ticks read at strictly increasing positions that include every tick of at least 5e7 |
| SizeLegendView.TickValuesAscending | js/vis-size-legend.js:61-63 | for ascending scale ticks, the legend's values ascend strictly |
| SizeLegendView.InitialTicks | js/vis-size-legend.js:65-70 | each tick has the scale's value as its radius, minus it as its circle height, and minus twice it as its label height |
| SizeLegendView.Separate | js/vis-size-legend.js:72-74 | the pairs pass changes label heights only and leaves the first one alone; every other label ends at its own height or 12 above its already-moved predecessor, whichever is higher |
| SizeLegendView.SeparateSpacing | js/vis-size-legend.js:72-74 | after the pass, consecutive labels are at least 12 apart and no label has moved down |
| SizeLegendView.SpreadLabels | js/vis-size-legend.js:72-74 | the in-place pass over the tick array leaves it equal to `Separate` of its old contents |
| SizeLegendView.SeparatedTicks | js/vis-size-legend.js:65-74 | separating the labels of the initial ticks keeps each tick's value, radius and circle, and leaves consecutive labels at least 12 apart |
| SizeLegendView.LegendTicksShape | js/vis-size-legend.js:61-74 | before sorting, the ticks follow the legend's values in ascending order, each with the scale's radius for its value, and consecutive labels are at least 12 apart |
| SizeLegendView.LegendItems | js/vis-size-legend.js:80 | the legend's items are its ticks sorted by descending value; `LegendLayout` states their order, radii and labels |
| SizeLegendView.LegendMaxR | js/vis-size-legend.js:76 | `maxR` is the radius of the last tick before the sort; `LegendLayout` states that it is the largest item's |
| SizeLegendView.LegendLayout | js/vis-size-legend.js:60-80 | items are drawn from the largest value to the smallest, each with the scale's radius, and each label at least 12 below the next larger item's; `maxR` is the radius of the largest item |
| SizeLegendView.ReversedTicks | js/vis-size-legend.js:80 | reversing ascending ticks with rising labels gives items in descending value order, each label at least 12 below the one before |
| SizeLegendView.RenderLegendItems | js/vis-size-legend.js:60-80 | building the ticks in an array, separating their labels in place, taking `maxR` from the last tick and sorting in place gives exactly the specified items and `maxR` |
| SizeLegendView.SizeLegend.constructor | js/vis-size-legend.js:13-35 | the legend starts open with the open button hidden, exactly one of the two containers hidden, and no scale |
| SizeLegendView.SizeLegend.Open | js/vis-size-legend.js:19-22 | clicking open hides the open button and shows the legend, keeping exactly one hidden |
| SizeLegendView.SizeLegend.Close | js/vis-size-legend.js:42-45 | clicking close shows the open button and hides the legend, keeping exactly one hidden |
| SizeLegendView.SizeLegend.UpdateScale | js/vis-size-legend.js:134-137 | updating the scale stores it and redraws the items and `maxR` for it, keeping exactly one container hidden |
| TooltipView.HorizontalPosition | js/vis-tooltip.js:23-28 | the tooltip is centred on the pointer unless that sticks out, in which case it is moved to the left or right edge; when it fits, it lies inside the container |
| TooltipView.VerticalPosition | js/vis-tooltip.js:30-34 | the tooltip is placed 8 above the pointer when that does not cross the top, and 8 below it otherwise; it never starts above the top for a pointer inside |
| TooltipView.Tooltip.constructor | js/vis-tooltip.js:2-8 | a new tooltip is hidden and has no measurements |
| TooltipView.Tooltip.Show | js/vis-tooltip.js:10-14 | showing sets the content, makes the tooltip visible and records both rectangles |
| TooltipView.Tooltip.Hide | js/vis-tooltip.js:16-18 | hiding makes the tooltip invisible and changes nothing else |
| TooltipView.Tooltip.Move | js/vis-tooltip.js:20-37 | a move places the tooltip at the clamped horizontal and flipped vertical position; before any show it fails and changes nothing |
| BubbleMap.SortedKeys | js/vis-bubble-map.js:316-319 | sorting the rollup's keys by total keeps each key once and orders them by non-increasing total |
| BubbleMap.BubbleData | js/vis-bubble-map.js:316-319 | the bubble data is the rollup's keys sorted by descending total; `SortedKeys` and `BubbleLayout` state what it holds |
| BubbleMap.BubbleLayout | js/vis-bubble-map.js:314-336 | the bubble data is the aggregated countries, each once, by non-increasing total, each with an anchored feature |
| BubbleMap.Highlight | js/vis-bubble-map.js:351-357 | exactly the paths with the entered code become active, and nothing else about a path changes |
| BubbleMap.HighlightBubbles | js/vis-bubble-map.js:358 | exactly the bubbles with the entered code become active, and nothing else about a bubble changes |
| BubbleMap.RaisePermutation | js/vis-bubble-map.js:351-357 | raising keeps the stacking order a permutation of the paths |
| BubbleMap.RaiseTop | js/vis-bubble-map.js:351-357 | when one path has the code, raising puts it last, on top, above the other paths in their old stacking order |
| BubbleMap.Raise | js/vis-bubble-map.js:351-357 | the stacking after `raise()` on each matching path in data order; `RaisePermutation`, `RaiseKeepsOthers` and `RaiseTop` state it |
| BubbleMap.RaiseKeepsOthers | js/vis-bubble-map.js:351-357 | raising keeps the other paths in their old relative stacking order, and puts the raised paths above them in data order |
| BubbleMap.EnteredHighlightsOne | js/vis-bubble-map.js:350-358 | entering an indexed country makes exactly its feature's path active and raises that path to the top of a stacking order that stays a permutation |
| BubbleMap.JoinPaths | js/vis-bubble-map.js:289-309 | the join gives one path per feature |
| BubbleMap.ListenersFixedAtFirstRender | js/vis-bubble-map.js:292-306 | first-render paths are inactive and listen exactly when their country is aggregated; a later join with another aggregate leaves them as they are |
| BubbleMap.JoinBubbles | js/vis-bubble-map.js:314-342 | one bubble per datum, with radius `r(total) / k` and the class of a bubble already drawn for its country; `JoinBubblesAgree` states it |
| BubbleMap.JoinBubblesAgree | js/vis-bubble-map.js:314-342 | the joined bubbles are the data's countries in order, at their anchors with their totals; radius times zoom factor is the scale's value; each bubble is active exactly when a previous bubble of its country was |
| BubbleMap.HighlightKeepsAgree | js/vis-bubble-map.js:358 | changing classes keeps the bubbles in agreement with their data |
| BubbleMap.AggregateReady | js/vis-bubble-map.js:183 | the aggregate of the wrangled inputs has only countries with features, and its bubble data can be drawn |
| BubbleMap.RezoomKeeps | js/vis-bubble-map.js:345-348 | redrawing at another zoom factor keeps the bubbles' countries, order and classes, with radii for the new factor |
| BubbleMap.HighlightKeepsPaths | js/vis-bubble-map.js:351-357 | changing classes keeps the paths following the features |
| BubbleMap.HighlightKeepsBubbles | js/vis-bubble-map.js:358 | changing classes keeps the bubbles in agreement with the aggregate |
| BubbleMap.PatchCodes | js/vis-bubble-map.js:120-128 | the code loop applies the code patch to each feature in place |
| BubbleMap.AnchorOf | js/vis-bubble-map.js:131-150 | the anchor pass computes `Anchor` for a feature |
| BubbleMap.AnchorFeatures | js/vis-bubble-map.js:131-151 | the anchor loop sets each feature's anchor in place |
| BubbleMap.WrangleGeo | js/vis-bubble-map.js:113-159 | after the pass the features are the wrangled features, and `featureByCode` is their index by code |
| BubbleMap.WrangleData | js/vis-bubble-map.js:161-178 | `brandById` maps exactly the master ids to their rows, and the category options are built from the master table |
| BubbleMap.BubbleMap.constructor | js/vis-bubble-map.js:1-23 | construction leaves the features wrangled and the aggregate that of the initial filter; the map is drawn with first-render paths and no active bubble; the radius domain is the unfiltered maximum; the legend is open and the tooltip hidden |
| BubbleMap.BubbleMap.Start | js/vis-bubble-map.js:20-21 | the first resize and aggregation leave the map aggregated and drawn, with first-render paths and no active bubble |
| BubbleMap.BubbleMap.FilterData | js/vis-bubble-map.js:180-242 | the aggregate becomes the one for the current filter, the paths are joined, the stacking order is reset, each bubble is active exactly when a bubble of its country was, and the drawing invariant holds |
| BubbleMap.BubbleMap.Rollup | js/vis-bubble-map.js:194-239 | the rollup and its key order are those of the brands the current filter keeps, and they can be drawn |
| BubbleMap.BubbleMap.SetFilter | js/vis-bubble-map.js:102-106 | a filter change stores the value and re-aggregates for it; the paths stay as they were, each bubble keeps the class of its country's old bubble, and both invariants hold |
| BubbleMap.BubbleMap.Resize | js/vis-bubble-map.js:244-281 | the width, bounded width and height are set; height is the larger of bounded height plus 64 and the container height; the range is round(bounded width / 8) and the legend is on the new scale; zoom is reset and the map redrawn, bubbles keeping their countries' classes, only once there is an aggregate; before that the zoom, paths, stacking and bubbles stay |
| BubbleMap.BubbleMap.Layout | js/vis-bubble-map.js:245-266 | the sizes, the radius range and the legend's scale are those of `resize` |
| BubbleMap.BubbleMap.Render | js/vis-bubble-map.js:283-287 | rendering joins the paths, resets the stacking order and joins the bubbles with the sorted data, each active exactly when a bubble of its country was, establishing the drawing invariant |
| BubbleMap.BubbleMap.RenderMap | js/vis-bubble-map.js:289-309 | the paths are joined with the features and the stacking order returns to data order |
| BubbleMap.BubbleMap.RenderBubbles | js/vis-bubble-map.js:311-343 | the bubbles are joined with the sorted data and agree with it at the current zoom factor, keeping their countries' classes |
| BubbleMap.BubbleMap.Zoomed | js/vis-bubble-map.js:345-348 | a zoom keeps the bubbles' countries and classes, with radius times the new factor equal to the scale's value |
| BubbleMap.BubbleMap.Entered | js/vis-bubble-map.js:350-415 | entering highlights the country's path and bubble and raises its path; the tooltip shows the country's name, total and rows exactly when it is aggregated, and is untouched otherwise; the tooltip's position never changes |
| BubbleMap.BubbleMap.RaiseCountry | js/vis-bubble-map.js:351-357 | the country's paths are raised and the drawing invariant is kept |
| BubbleMap.BubbleMap.SetActive | js/vis-bubble-map.js:351-358 | the paths and bubbles get their `is-active` classes and the drawing invariant is kept |
| BubbleMap.BubbleMap.Moved | js/vis-bubble-map.js:417-419 | a pointer move places the tooltip as `move` does, and fails before any show, leaving the position as it was |
| BubbleMap.BubbleMap.Left | js/vis-bubble-map.js:421-426 | leaving clears every `is-active` class and hides the tooltip; the stacking order stays |

## Left out

- Map projection (`geoNaturalEarth1`, `fitWidth`, `fitExtent`, `geoPath`, `bounds`, `centroid`): floating-point library numerics. The height of the projected world is the input `fitHeight`, and a bubble's position is its feature's anchor.
- Turf geometry (`area`, `centroid`, `centerOfMass`): these are uninterpreted inputs. Only the choice of what they are applied to is modelled.
- d3 scale arithmetic: evaluating the square-root scale and computing `ticks(5)` are abstract (`sqrtScale`, `Scale`). What is modelled is the domain and range the map gives the scale, and how the legend uses its values.
- Parsing of `Traffic` and `Bounce Rate`: JavaScript number coercion is not modelled. A field is a number or `None` (NaN).
- d3 selections, transitions, the HTML of the tooltip, `d3.format` output (including the "<0.1%" share label and the blank rank of "Others"), and the legend's `autoViewBox`/`getBBox` padding: DOM output with no logic beyond what the state records.
- The d3 zoom behaviour and its event dispatch, the `translateExtent`, and the `window` resize listener. Their results reach the model as method calls with parameters: a zoom factor in [1, 32], container sizes and pointer coordinates.
- `getBoundingClientRect` and `d3.pointer`: their values are parameters of `Show` and `Move`.
- `js/vis-filter.js` and its `updateData`: the filter widget is not part of this model. Its `filterchange` event is `SetFilter`.
- `setup`'s accessor wiring and the scaffold's element creation: they are represented by the functions and fields they define, not as steps.
- BubbleMap.BubbleMap.constructor: does not state that the initial filter is "ALL". The body sets it before the first aggregation.
- BubbleMap.WrangleGeo: requires anchors for every feature and distinct codes, where the source throws. A throwing construction has no state to model.
- BubbleMap.WrangleData: requires distinct master ids, where the source's `d3.index` throws.
- BubbleMap.BubbleMap.Entered: requires an indexed country, as every caller provides. The source would throw reading the name of a missing feature.
- BubbleMap.BubbleMap.SetFilter: re-aggregates with the corrected filter `Keep`. In the source, a brand with a feature, non-zero traffic and no master row, under a filter other than "ALL", makes the filter throw (js/vis-bubble-map.js:187-190). The handler has already stored the new filter, so the source ends with the new `selected`, the old aggregate and no render. The model does not capture that outcome (see Findings).
- BubbleMap.BubbleMap.FilterData: aggregates with the corrected filter `Keep`, for the same reason as `SetFilter`. In the source the call throws where `KeepAsWritten` is `None`.
- BubbleMap.BubbleMap.Rollup: uses the corrected filter `Keep`, as `FilterData` does.
- Numbers are exact reals. The source computes effective traffic, totals, the "Others" sum and the shares in IEEE doubles, and `d3.sum` adds from left to right while `SumBy` is a right fold. The two sums agree only over exact reals, so `SharesSumToOne` and `SummariseTrafficSum` hold exactly in the model but only within rounding in the source.
- Common.Lower: lower-cases ASCII letters only. JavaScript's `toLowerCase` covers all of Unicode; the ISO codes it is applied to are ASCII.
- Categories.Less: compares strings by code point. `d3.ascending` compares UTF-16 code units, which order the same way except for characters outside the Basic Multilingual Plane.
- The bubbles' document order: the model assumes `join` puts elements back in data order. It keeps the paths in feature order with a separate stacking order, and the bubbles in data order.
- The country filter compares the record's `Country` with lower-cased codes as written. Upper-case country codes in the data are not matched, and the model keeps that.

## Findings

| source | as written | input that shows it | evidently intended | confidence | as-written member | corrected member |
|---|---|---|---|---|---|---|
| js/vis-bubble-map.js:187-190 | under a category filter, the category of a brand is read from `brandById.get(id)`; for an id absent from the master table that is `undefined`, and reading its `Category` throws a TypeError that aborts `filterData` | a brand "b9" in "us" with traffic 100 and bounce "0%", no master row, filter "Other" | a brand without a master row counts as category "Other" | not executed; high that it throws, medium on the intended category | Aggregation.MissingMasterRowThrows | Aggregation.UnlistedBrandIsOther |
