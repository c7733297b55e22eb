/**
 * The per-band aggregation that feeds a map: counting contacts per locator,
 * restricting the counts to a selection of continents, and the padded
 * extent around the decoded cells.
 */
module Aggregate {
  import opened Wrappers
  import opened Text
  import opened Grid
  import opened Continents

  /** Every locator of the list is accepted by `maidenhead_to_bounds`. */
  ghost predicate AllDecodable(grids: seq<string>) {
    forall g :: g in grids ==> Decodable(g)
  }

  // ---------------------------------------------------------------------
  // Counter(grids)
  // ---------------------------------------------------------------------

  /** `Counter(grids)`, built one locator at a time. */
  ghost function Counts(grids: seq<string>): map<string, nat>
    decreases |grids|
  {
    if grids == [] then map[]
    else
      var c := Counts(grids[..|grids| - 1]);
      var g := grids[|grids| - 1];
      c[g := (if g in c then c[g] else 0) + 1]
  }

  /** The counter's keys are the locators of the list and its values their multiplicities. */
  lemma {:induction false} CountsAreMultiplicities(grids: seq<string>)
    ensures forall g :: g in Counts(grids) <==> g in grids
    ensures forall g :: g in Counts(grids) ==> Counts(grids)[g] == multiset(grids)[g]
    decreases |grids|
  {
    if grids != [] {
      var init := grids[..|grids| - 1];
      var last := grids[|grids| - 1];
      assert grids == init + [last];
      assert multiset(grids) == multiset(init) + multiset{last};
      CountsAreMultiplicities(init);
    }
  }

  /** The counting loop behind `Counter(grids)`. */
  method CountGrids(grids: seq<string>) returns (counts: map<string, nat>)
    ensures counts == Counts(grids)
    ensures forall g :: g in counts <==> g in grids
    ensures forall g :: g in counts ==> counts[g] == multiset(grids)[g]
  {
    counts := map[];
    for i := 0 to |grids|
      invariant counts == Counts(grids[..i])
    {
      var g := grids[i];
      var n := if g in counts then counts[g] else 0;
      counts := counts[g := n + 1];
      assert grids[..i + 1][..i] == grids[..i];
    }
    assert grids[..|grids|] == grids;
    CountsAreMultiplicities(grids);
  }

  // ---------------------------------------------------------------------
  // filter_grids_by_continents
  // ---------------------------------------------------------------------

  /** A locator whose continent is one of the selection (a locator without a cell never is). */
  predicate InSelection(grid: string, sel: set<Continent>)
    requires Decodable(grid)
  {
    var c := GetGridContinent(grid);
    c.Some? && c.value in sel
  }

  /**
   * `filter_grids_by_continents`: no selection or an empty one keeps the
   * counts as they are; otherwise the sub-map of the locators in the selection.
   */
  function FilterSpec(counts: map<string, nat>, continents: Option<set<Continent>>): map<string, nat>
    requires forall g :: g in counts ==> Decodable(g)
  {
    if continents.None? || continents.value == {} then counts
    else map g | g in counts && InSelection(g, continents.value) :: counts[g]
  }

  /** The filter keeps exactly the locators in the selection, with their counts. */
  lemma FilterKeeps(counts: map<string, nat>, sel: set<Continent>)
    requires forall g :: g in counts ==> Decodable(g)
    requires sel != {}
    ensures forall g :: g in FilterSpec(counts, Some(sel)) <==> g in counts && InSelection(g, sel)
    ensures forall g :: g in FilterSpec(counts, Some(sel)) ==> FilterSpec(counts, Some(sel))[g] == counts[g]
  {
  }

  /** Without a selection, or with an empty one, nothing is dropped. */
  lemma NoSelectionKeepsAll(counts: map<string, nat>, continents: Option<set<Continent>>)
    requires forall g :: g in counts ==> Decodable(g)
    requires continents.None? || continents.value == {}
    ensures FilterSpec(counts, continents) == counts
  {
  }

  /** Filtering twice by the same selection is filtering once. */
  lemma FilterIdempotent(counts: map<string, nat>, continents: Option<set<Continent>>)
    requires forall g :: g in counts ==> Decodable(g)
    ensures var once := FilterSpec(counts, continents); FilterSpec(once, continents) == once
  {
  }

  /** The locators of the counter that are in the selection. */
  ghost function Selected(grids: map<string, nat>, sel: set<Continent>): set<string>
    requires forall g :: g in grids ==> Decodable(g)
  {
    set g | g in grids && InSelection(g, sel)
  }

  /** The counts of the keys that are both in `done` and in `keep`. */
  ghost function Restrict(grids: map<string, nat>, done: set<string>, keep: set<string>): map<string, nat> {
    map g | g in grids && g in done && g in keep :: grids[g]
  }

  lemma RestrictStep(grids: map<string, nat>, done: set<string>, g: string, keep: set<string>)
    requires g in grids
    ensures Restrict(grids, done + {g}, keep)
      == if g in keep then Restrict(grids, done, keep)[g := grids[g]] else Restrict(grids, done, keep)
  {
  }

  /** The loop of `filter_grids_by_continents` over the counter's keys. */
  method FilterGridsByContinents(grids: map<string, nat>, continents: Option<set<Continent>>)
    returns (filtered: map<string, nat>)
    requires forall g :: g in grids ==> Decodable(g)
    ensures filtered == FilterSpec(grids, continents)
  {
    if continents.None? || continents.value == {} {
      return grids;
    }
    var sel := continents.value;
    ghost var keep := Selected(grids, sel);
    filtered := map[];
    var todo := grids.Keys;
    while todo != {}
      invariant todo <= grids.Keys
      invariant filtered == Restrict(grids, grids.Keys - todo, keep)
      decreases todo
    {
      var g :| g in todo;
      ghost var done := grids.Keys - todo;
      FilterStep(grids, sel, done, g);
      var gridContinent := GetGridContinent(g);
      if gridContinent.Some? && gridContinent.value in sel {
        filtered := filtered[g := grids[g]];
      }
      VisitOne(grids.Keys, todo, g);
      todo := todo - {g};
    }
    SelectedIsFilter(grids, sel);
  }

  /** Taking `g` out of the keys still to visit adds it to the keys visited. */
  lemma VisitOne(all: set<string>, todo: set<string>, g: string)
    requires g in todo && todo <= all
    ensures all - (todo - {g}) == (all - todo) + {g}
  {
  }

  /** Visiting one more key adds it to the result exactly when it is in the selection. */
  lemma FilterStep(grids: map<string, nat>, sel: set<Continent>, done: set<string>, g: string)
    requires forall h :: h in grids ==> Decodable(h)
    requires g in grids
    ensures var keep := Selected(grids, sel);
      var c := GetGridContinent(g);
      Restrict(grids, done + {g}, keep)
        == if c.Some? && c.value in sel then Restrict(grids, done, keep)[g := grids[g]] else Restrict(grids, done, keep)
  {
    var keep := Selected(grids, sel);
    assert g in keep <==> InSelection(g, sel);
    RestrictStep(grids, done, g, keep);
  }

  lemma SelectedIsFilter(grids: map<string, nat>, sel: set<Continent>)
    requires forall g :: g in grids ==> Decodable(g)
    requires sel != {}
    ensures Restrict(grids, grids.Keys, Selected(grids, sel)) == FilterSpec(grids, Some(sel))
  {
  }

  /**
   * With the selection made by `auto_select_continents` on the same list,
   * every locator that has a continent survives the filter with its count.
   */
  lemma AutoSelectionKeepsLocated(grids: seq<string>, g: string)
    requires AllDecodable(grids)
    requires g in grids && GetGridContinent(g).Some?
    ensures forall h :: h in Counts(grids) ==> Decodable(h)
    ensures var kept := FilterSpec(Counts(grids), Some(ContinentsOf(grids)));
      g in kept && kept[g] == Counts(grids)[g]
  {
    CountsAreMultiplicities(grids);
    ContinentsOfMembers(grids, GetGridContinent(g).value);
  }

  /** When every locator of the list has a cell, the auto-selected filter drops nothing. */
  lemma AutoSelectionKeepsAll(grids: seq<string>)
    requires AllDecodable(grids)
    requires forall g :: g in grids ==> MaidenheadToBounds(g).Cell?
    ensures forall h :: h in Counts(grids) ==> Decodable(h)
    ensures FilterSpec(Counts(grids), Some(ContinentsOf(grids))) == Counts(grids)
  {
    CountsAreMultiplicities(grids);
    var counts := Counts(grids);
    var kept := FilterSpec(counts, Some(ContinentsOf(grids)));
    forall g | g in counts
      ensures g in kept && kept[g] == counts[g]
    {
      AutoSelectionKeepsLocated(grids, g);
    }
  }

  // ---------------------------------------------------------------------
  // get_optimal_bounds
  // ---------------------------------------------------------------------

  /** A map extent (lonMin, lonMax, latMin, latMax), the tuple's order. */
  datatype View = View(lonMin: real, lonMax: real, latMin: real, latMax: real)

  /** The whole globe, the extent used when no cell is known. */
  const Globe := View(-180.0, 180.0, -90.0, 90.0)

  /** The decoding of every key, in order. */
  function DecodeAll(keys: seq<string>): (ds: seq<Decoded>)
    requires AllDecodable(keys)
    ensures |ds| == |keys| && forall i :: 0 <= i < |keys| ==> ds[i] == MaidenheadToBounds(keys[i])
  {
    seq(|keys|, i requires 0 <= i < |keys| => MaidenheadToBounds(keys[i]))
  }

  /** The `lats` list: both latitude edges of every decoding that is a cell, in order. */
  function LatEdges(ds: seq<Decoded>): seq<real>
    decreases |ds|
  {
    if ds == [] then []
    else
      var d := ds[|ds| - 1];
      LatEdges(ds[..|ds| - 1]) + (if d.Cell? then [d.bounds.latMin, d.bounds.latMax] else [])
  }

  /** The `lons` list: both longitude edges of every decoding that is a cell, in order. */
  function LonEdges(ds: seq<Decoded>): seq<real>
    decreases |ds|
  {
    if ds == [] then []
    else
      var d := ds[|ds| - 1];
      LonEdges(ds[..|ds| - 1]) + (if d.Cell? then [d.bounds.lonMin, d.bounds.lonMax] else [])
  }

  /**
   * An edge is in the lists exactly when it is an edge of one of the cells,
   * and the lists are empty exactly when there is no cell.
   */
  lemma {:induction false} EdgesOf(ds: seq<Decoded>)
    ensures forall x :: x in LatEdges(ds) <==> exists d :: d in ds && d.Cell? && (x == d.bounds.latMin || x == d.bounds.latMax)
    ensures forall x :: x in LonEdges(ds) <==> exists d :: d in ds && d.Cell? && (x == d.bounds.lonMin || x == d.bounds.lonMax)
    ensures LatEdges(ds) == [] <==> forall d :: d in ds ==> !d.Cell?
    ensures LonEdges(ds) == [] <==> forall d :: d in ds ==> !d.Cell?
    decreases |ds|
  {
    if ds != [] {
      var init := ds[..|ds| - 1];
      assert forall d :: d in ds <==> d in init || d == ds[|ds| - 1];
      EdgesOf(init);
    }
  }

  /** Python's `min` of a non-empty list. */
  function SeqMin(s: seq<real>): (m: real)
    requires s != []
    ensures m in s && forall x :: x in s ==> m <= x
  {
    if |s| == 1 then s[0]
    else
      var rest := SeqMin(s[1..]);
      assert forall x :: x in s ==> x == s[0] || x in s[1..];
      if s[0] <= rest then s[0] else rest
  }

  /** Python's `max` of a non-empty list. */
  function SeqMax(s: seq<real>): (m: real)
    requires s != []
    ensures m in s && forall x :: x in s ==> x <= m
  {
    if |s| == 1 then s[0]
    else
      var rest := SeqMax(s[1..]);
      assert forall x :: x in s ==> x == s[0] || x in s[1..];
      if s[0] >= rest then s[0] else rest
  }

  function Max(a: real, b: real): (m: real)
    ensures m >= a && m >= b && (m == a || m == b)
  {
    if a >= b then a else b
  }

  /**
   * The extent for edge lists `lats` and `lons`: the globe when either is
   * empty, else their hull padded on each side by 15% of its span, but by
   * at least 2 degrees of latitude and 3 of longitude.
   */
  function PaddedHull(lats: seq<real>, lons: seq<real>): View {
    if lats == [] || lons == [] then Globe
    else
      var (minLat, maxLat) := (SeqMin(lats), SeqMax(lats));
      var (minLon, maxLon) := (SeqMin(lons), SeqMax(lons));
      var latPadding := Max((maxLat - minLat) * 0.15, 2.0);
      var lonPadding := Max((maxLon - minLon) * 0.15, 3.0);
      View(minLon - lonPadding, maxLon + lonPadding, minLat - latPadding, maxLat + latPadding)
  }

  /** What `get_optimal_bounds` computes for the keys in this order. */
  function OptimalView(keys: seq<string>): View
    requires AllDecodable(keys)
  {
    var ds := DecodeAll(keys);
    PaddedHull(LatEdges(ds), LonEdges(ds))
  }

  /** `get_optimal_bounds`: collect the edges, then pad their hull. */
  method GetOptimalBounds(keys: seq<string>) returns (v: View)
    requires AllDecodable(keys)
    ensures v == OptimalView(keys)
  {
    if keys == [] {
      return Globe;
    }
    var lats, lons := CollectEdges(keys);
    if lats == [] || lons == [] {
      return Globe;
    }
    var minLat, maxLat := SeqMin(lats), SeqMax(lats);
    var minLon, maxLon := SeqMin(lons), SeqMax(lons);
    var latPadding := Max((maxLat - minLat) * 0.15, 2.0);
    var lonPadding := Max((maxLon - minLon) * 0.15, 3.0);
    v := View(minLon - lonPadding, maxLon + lonPadding, minLat - latPadding, maxLat + latPadding);
  }

  /** The loop of `get_optimal_bounds` that extends `lats` and `lons` cell by cell. */
  method CollectEdges(keys: seq<string>) returns (lats: seq<real>, lons: seq<real>)
    requires AllDecodable(keys)
    ensures lats == LatEdges(DecodeAll(keys)) && lons == LonEdges(DecodeAll(keys))
  {
    ghost var ds := DecodeAll(keys);
    lats, lons := [], [];
    for i := 0 to |keys|
      invariant lats == LatEdges(ds[..i]) && lons == LonEdges(ds[..i])
    {
      var bounds := MaidenheadToBounds(keys[i]);
      if bounds.Cell? {
        lats := lats + [bounds.bounds.latMin, bounds.bounds.latMax];
        lons := lons + [bounds.bounds.lonMin, bounds.bounds.lonMax];
      }
      assert ds[..i + 1][..i] == ds[..i];
    }
    assert ds[..|keys|] == ds;
  }

  /** With no key that has a cell (in particular with no keys) the view is the whole globe. */
  lemma NoCellsGiveGlobe(keys: seq<string>)
    requires AllDecodable(keys)
    requires forall k :: k in keys ==> !MaidenheadToBounds(k).Cell?
    ensures OptimalView(keys) == Globe
  {
    var ds := DecodeAll(keys);
    forall d | d in ds
      ensures !d.Cell?
    {
      var i :| 0 <= i < |ds| && ds[i] == d;
      assert keys[i] in keys;
    }
    EdgesOf(ds);
  }

  /** Every cell lies inside the view with at least the minimum padding on each side. */
  lemma CellsStrictlyInside(keys: seq<string>, k: string)
    requires AllDecodable(keys)
    requires k in keys && MaidenheadToBounds(k).Cell?
    ensures var v := OptimalView(keys); var b := MaidenheadToBounds(k).bounds;
      && v.latMin + 2.0 <= b.latMin && b.latMax <= v.latMax - 2.0
      && v.lonMin + 3.0 <= b.lonMin && b.lonMax <= v.lonMax - 3.0
  {
    var ds := DecodeAll(keys);
    var i :| 0 <= i < |keys| && keys[i] == k;
    var b := ds[i].bounds;
    assert ds[i] in ds;
    EdgesOf(ds);
    var lats, lons := LatEdges(ds), LonEdges(ds);
    assert b.latMin in lats && b.latMax in lats;
    assert b.lonMin in lons && b.lonMax in lons;
    HullPadsEveryEdge(lats, lons);
  }

  /** The padded hull of non-empty lists keeps every edge the minimum padding away from its sides. */
  lemma HullPadsEveryEdge(lats: seq<real>, lons: seq<real>)
    requires lats != [] && lons != []
    ensures var v := PaddedHull(lats, lons);
      && (forall x :: x in lats ==> v.latMin + 2.0 <= x <= v.latMax - 2.0)
      && (forall x :: x in lons ==> v.lonMin + 3.0 <= x <= v.lonMax - 3.0)
  {
  }

  /**
   * The view is the padded hull of the cells: with `south`, `north`,
   * `west` and `east` the extreme edges over all cells, each side is pushed
   * out by 15% of the span, or by the minimum padding when that is larger.
   */
  lemma OptimalViewIsPaddedHull(keys: seq<string>, south: real, north: real, west: real, east: real)
    requires AllDecodable(keys)
    requires forall d :: d in DecodeAll(keys) && d.Cell? ==>
      && south <= d.bounds.latMin <= north && south <= d.bounds.latMax <= north
      && west <= d.bounds.lonMin <= east && west <= d.bounds.lonMax <= east
    requires exists d :: d in DecodeAll(keys) && d.Cell? && d.bounds.latMin == south
    requires exists d :: d in DecodeAll(keys) && d.Cell? && d.bounds.latMax == north
    requires exists d :: d in DecodeAll(keys) && d.Cell? && d.bounds.lonMin == west
    requires exists d :: d in DecodeAll(keys) && d.Cell? && d.bounds.lonMax == east
    ensures var latPadding := Max((north - south) * 0.15, 2.0);
      var lonPadding := Max((east - west) * 0.15, 3.0);
      OptimalView(keys) == View(west - lonPadding, east + lonPadding, south - latPadding, north + latPadding)
  {
    var ds := DecodeAll(keys);
    EdgesWithin(ds, south, north, west, east);
    HullOfExtremes(LatEdges(ds), LonEdges(ds), south, north, west, east);
  }

  /** The edges of cells that all lie in a rectangle, some touching each of its sides. */
  lemma EdgesWithin(ds: seq<Decoded>, south: real, north: real, west: real, east: real)
    requires forall d :: d in ds && d.Cell? ==>
      && south <= d.bounds.latMin <= north && south <= d.bounds.latMax <= north
      && west <= d.bounds.lonMin <= east && west <= d.bounds.lonMax <= east
    requires exists d :: d in ds && d.Cell? && d.bounds.latMin == south
    requires exists d :: d in ds && d.Cell? && d.bounds.latMax == north
    requires exists d :: d in ds && d.Cell? && d.bounds.lonMin == west
    requires exists d :: d in ds && d.Cell? && d.bounds.lonMax == east
    ensures south in LatEdges(ds) && north in LatEdges(ds) && forall x :: x in LatEdges(ds) ==> south <= x <= north
    ensures west in LonEdges(ds) && east in LonEdges(ds) && forall x :: x in LonEdges(ds) ==> west <= x <= east
  {
    EdgesOf(ds);
    forall x | x in LatEdges(ds)
      ensures south <= x <= north
    {
      var d :| d in ds && d.Cell? && (x == d.bounds.latMin || x == d.bounds.latMax);
    }
    forall x | x in LonEdges(ds)
      ensures west <= x <= east
    {
      var d :| d in ds && d.Cell? && (x == d.bounds.lonMin || x == d.bounds.lonMax);
    }
  }

  /** The padded hull is determined by the least and greatest elements of the lists. */
  lemma HullOfExtremes(lats: seq<real>, lons: seq<real>, south: real, north: real, west: real, east: real)
    requires south in lats && north in lats && forall x :: x in lats ==> south <= x <= north
    requires west in lons && east in lons && forall x :: x in lons ==> west <= x <= east
    ensures var latPadding := Max((north - south) * 0.15, 2.0);
      var lonPadding := Max((east - west) * 0.15, 3.0);
      PaddedHull(lats, lons) == View(west - lonPadding, east + lonPadding, south - latPadding, north + latPadding)
  {
    assert SeqMin(lats) == south && SeqMax(lats) == north;
    assert SeqMin(lons) == west && SeqMax(lons) == east;
  }

  /** The view depends on the set of keys only, not on the order they are visited in. */
  lemma OptimalViewOrderFree(k1: seq<string>, k2: seq<string>)
    requires AllDecodable(k1) && AllDecodable(k2)
    requires forall k :: k in k1 <==> k in k2
    ensures OptimalView(k1) == OptimalView(k2)
  {
    var ds1, ds2 := DecodeAll(k1), DecodeAll(k2);
    SameKeysSameCells(k1, k2);
    SameKeysSameCells(k2, k1);
    SameCellsSameEdges(ds1, ds2);
    HullOfSameElements(LatEdges(ds1), LatEdges(ds2), LonEdges(ds1), LonEdges(ds2));
  }

  lemma SameKeysSameCells(k1: seq<string>, k2: seq<string>)
    requires AllDecodable(k1) && AllDecodable(k2)
    requires forall k :: k in k1 ==> k in k2
    ensures forall d :: d in DecodeAll(k1) ==> d in DecodeAll(k2)
  {
    var ds1, ds2 := DecodeAll(k1), DecodeAll(k2);
    forall d | d in ds1
      ensures d in ds2
    {
      var i :| 0 <= i < |ds1| && ds1[i] == d;
      assert k1[i] in k2;
      var j :| 0 <= j < |k2| && k2[j] == k1[i];
      assert ds2[j] == d;
    }
  }

  lemma SameCellsSameEdges(ds1: seq<Decoded>, ds2: seq<Decoded>)
    requires forall d :: d in ds1 <==> d in ds2
    ensures forall x :: x in LatEdges(ds1) <==> x in LatEdges(ds2)
    ensures forall x :: x in LonEdges(ds1) <==> x in LonEdges(ds2)
  {
    EdgesOf(ds1);
    EdgesOf(ds2);
  }

  /** Lists with the same elements have the same padded hull. */
  lemma HullOfSameElements(lats1: seq<real>, lats2: seq<real>, lons1: seq<real>, lons2: seq<real>)
    requires forall x :: x in lats1 <==> x in lats2
    requires forall x :: x in lons1 <==> x in lons2
    ensures PaddedHull(lats1, lons1) == PaddedHull(lats2, lons2)
  {
    SameElementsBothEmpty(lats1, lats2);
    SameElementsBothEmpty(lons1, lons2);
    if lats1 != [] && lons1 != [] {
      SameElementsSameExtremes(lats1, lats2);
      SameElementsSameExtremes(lons1, lons2);
    }
  }

  lemma SameElementsBothEmpty(s: seq<real>, t: seq<real>)
    requires forall x :: x in s <==> x in t
    ensures s == [] <==> t == []
  {
    if s != [] {
      var x := s[0];
      assert x in s;
      assert x in t;
    }
    if t != [] {
      var x := t[0];
      assert x in t;
      assert x in s;
    }
  }

  lemma SameElementsSameExtremes(s: seq<real>, t: seq<real>)
    requires s != [] && t != []
    requires forall x :: x in s <==> x in t
    ensures SeqMin(s) == SeqMin(t) && SeqMax(s) == SeqMax(t)
  {
  }
}
