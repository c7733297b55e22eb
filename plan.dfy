/**
 * The non-drawing part of `create_grid_map`: the region name derived from
 * the map extent, the field labels that fall inside it, the output file
 * name, and the plan that ties the aggregation steps together.
 */
module Plan {
  import opened Wrappers
  import opened Text
  import opened Grid
  import opened Continents
  import opened Aggregate

  // ---------------------------------------------------------------------
  // get_region_name
  // ---------------------------------------------------------------------

  /** The extent lies in the North America box (170 W to 30 W, 10 N to 85 N). */
  predicate InNorthAmericaBox(v: View) {
    -170.0 <= v.lonMin && v.lonMax <= -30.0 && 10.0 <= v.latMin && v.latMax <= 85.0
  }

  /** The extent lies in the Europe box (15 W to 45 E, 35 N to 75 N). */
  predicate InEuropeBox(v: View) {
    -15.0 <= v.lonMin && v.lonMax <= 45.0 && 35.0 <= v.latMin && v.latMax <= 75.0
  }

  const NorthAmericanRegions: set<string> := {
    "northeastern_north_america", "southeastern_north_america",
    "northwestern_north_america", "southwestern_north_america",
    "northern_north_america", "southern_north_america",
    "eastern_north_america", "western_north_america", "central_north_america"
  }

  const EuropeanRegions: set<string> := {
    "northern_europe", "southern_europe", "eastern_europe", "western_europe", "central_europe"
  }

  /**
   * `get_region_name`: a first-match decision tree, North America before
   * Europe. Its continent-name fallback looks `grid_counts`
   * up among its own locals, where it never is, so every other extent is
   * "regional".
   */
  function GetRegionName(v: View): string {
    if InNorthAmericaBox(v) then
      if v.lonMin >= -100.0 && v.latMin >= 35.0 then "northeastern_north_america"
      else if v.lonMin >= -100.0 && v.latMax <= 45.0 then "southeastern_north_america"
      else if v.lonMax <= -95.0 && v.latMin >= 35.0 then "northwestern_north_america"
      else if v.lonMax <= -95.0 && v.latMax <= 45.0 then "southwestern_north_america"
      else if v.latMin >= 45.0 then "northern_north_america"
      else if v.latMax <= 35.0 then "southern_north_america"
      else if v.lonMin >= -100.0 then "eastern_north_america"
      else if v.lonMax <= -95.0 then "western_north_america"
      else "central_north_america"
    else if InEuropeBox(v) then
      if v.latMin >= 55.0 then "northern_europe"
      else if v.latMax <= 50.0 then "southern_europe"
      else if v.lonMin >= 15.0 then "eastern_europe"
      else if v.lonMax <= 5.0 then "western_europe"
      else "central_europe"
    else "regional"
  }

  /**
   * The name says which box the extent is in: a North American name exactly
   * when it is in the North America box, a European name exactly when it is
   * in the Europe box and not the North America one, and "regional" exactly
   * when it is in neither.
   */
  lemma RegionNameContinent(v: View)
    ensures GetRegionName(v) in NorthAmericanRegions <==> InNorthAmericaBox(v)
    ensures GetRegionName(v) in EuropeanRegions <==> InEuropeBox(v) && !InNorthAmericaBox(v)
    ensures GetRegionName(v) == "regional" <==> !InNorthAmericaBox(v) && !InEuropeBox(v)
  {
  }

  /**
   * What each compass word of a North American name promises: "eastern"
   * extents lie east of 100 W, "western" ones west of 95 W, "northern"
   * ones north of 35 N (45 N when alone), "southern" ones south of 45 N
   * (35 N when alone), and a "central" extent straddles both cut lines.
   */
  lemma NorthAmericanNameMeaning(v: View)
    ensures var n := GetRegionName(v);
      && (n == "northeastern_north_america" ==> v.lonMin >= -100.0 && v.latMin >= 35.0)
      && (n == "southeastern_north_america" ==> v.lonMin >= -100.0 && v.latMax <= 45.0)
      && (n == "northwestern_north_america" ==> v.lonMax <= -95.0 && v.latMin >= 35.0)
      && (n == "southwestern_north_america" ==> v.lonMax <= -95.0 && v.latMax <= 45.0)
      && (n == "northern_north_america" ==> v.latMin >= 45.0)
      && (n == "southern_north_america" ==> v.latMax <= 35.0)
      && (n == "eastern_north_america" ==> v.lonMin >= -100.0)
      && (n == "western_north_america" ==> v.lonMax <= -95.0)
      && (n == "central_north_america" <==>
            InNorthAmericaBox(v) && v.lonMin < -100.0 && v.lonMax > -95.0 && v.latMin < 45.0 && v.latMax > 35.0)
  {
  }

  /**
   * The same for European names, with the cut lines 55 N and 50 N, 15 E
   * and 5 E.
   */
  lemma EuropeanNameMeaning(v: View)
    ensures var n := GetRegionName(v);
      && (n == "northern_europe" ==> v.latMin >= 55.0)
      && (n == "southern_europe" ==> v.latMax <= 50.0)
      && (n == "eastern_europe" ==> v.lonMin >= 15.0)
      && (n == "western_europe" ==> v.lonMax <= 5.0)
      && (n == "central_europe" <==>
            InEuropeBox(v) && !InNorthAmericaBox(v)
            && v.latMin < 55.0 && v.latMax > 50.0 && v.lonMin < 15.0 && v.lonMax > 5.0)
  {
  }

  /** New England is north-eastern, a continent-wide extent central, the globe regional. */
  lemma RegionNameExamples()
    ensures GetRegionName(View(-80.0, -66.0, 38.0, 48.0)) == "northeastern_north_america"
    ensures GetRegionName(View(-130.0, -60.0, 20.0, 60.0)) == "central_north_america"
    ensures GetRegionName(View(-10.0, 30.0, 36.0, 70.0)) == "central_europe"
    ensures GetRegionName(Globe) == "regional"
  {
  }

  // ---------------------------------------------------------------------
  // Field labels
  // ---------------------------------------------------------------------

  /**
   * The label position (lon, lat) of the field named by the first two
   * characters, in whole degrees, from the raw character codes: the key is
   * not upper-cased here.
   */
  function FieldCentre(field: string): (int, int)
    requires |field| >= 2
  {
    ((field[0] as int - 'A' as int) * 20 - 180 + 10, (field[1] as int - 'A' as int) * 10 - 90 + 5)
  }

  /** A position on the closed extent. */
  predicate Visible(c: (int, int), v: View) {
    v.lonMin <= c.0 as real <= v.lonMax && v.latMin <= c.1 as real <= v.latMax
  }

  /** The `field_centers` dict after visiting the keys in order. */
  ghost function FieldLabels(keys: seq<string>, v: View): map<string, (int, int)>
    requires forall k :: k in keys ==> |k| >= 2
    decreases |keys|
  {
    if keys == [] then map[]
    else
      var labels := FieldLabels(keys[..|keys| - 1], v);
      var field := keys[|keys| - 1][..2];
      if field !in labels && Visible(FieldCentre(field), v) then labels[field := FieldCentre(field)] else labels
  }

  /**
   * A field is labelled exactly when some key lies in it and its centre is
   * visible, and it is labelled at its centre; so the order of the keys
   * does not matter.
   */
  lemma {:induction false} FieldLabelsMembers(keys: seq<string>, v: View)
    requires forall k :: k in keys ==> |k| >= 2
    ensures forall f :: f in FieldLabels(keys, v) ==> |f| == 2 && FieldLabels(keys, v)[f] == FieldCentre(f)
    ensures forall f :: f in FieldLabels(keys, v) <==>
      (exists k :: k in keys && k[..2] == f) && |f| == 2 && Visible(FieldCentre(f), v)
    decreases |keys|
  {
    if keys != [] {
      var init := keys[..|keys| - 1];
      assert forall k :: k in keys <==> k in init || k == keys[|keys| - 1];
      FieldLabelsMembers(init, v);
    }
  }

  /** The labels depend on the set of keys only. */
  lemma FieldLabelsOrderFree(k1: seq<string>, k2: seq<string>, v: View)
    requires forall k :: k in k1 ==> |k| >= 2
    requires forall k :: k in k1 <==> k in k2
    ensures FieldLabels(k1, v) == FieldLabels(k2, v)
  {
    FieldLabelsMembers(k1, v);
    FieldLabelsMembers(k2, v);
  }

  /** The label loop of `create_grid_map`. */
  method FieldCenters(keys: seq<string>, v: View) returns (centres: map<string, (int, int)>)
    requires forall k :: k in keys ==> |k| >= 2
    ensures centres == FieldLabels(keys, v)
  {
    centres := map[];
    for i := 0 to |keys|
      invariant centres == FieldLabels(keys[..i], v)
    {
      var field := keys[i][..2];
      if field !in centres {
        var centre := FieldCentre(field);
        if Visible(centre, v) {
          centres := centres[field := centre];
        }
      }
      assert keys[..i + 1][..i] == keys[..i];
    }
    assert keys[..|keys|] == keys;
  }

  /**
   * For an upper-case valid locator the label of its field is the centre
   * of the 20 by 10 degree field that contains its cell.
   */
  lemma FieldCentreOfCell(grid: string)
    requires IsValidGrid(grid) && Upper(grid) == grid
    ensures MaidenheadToBounds(grid).Cell?
    ensures var (lon, lat) := FieldCentre(grid[..2]); var b := MaidenheadToBounds(grid).bounds;
      && (lon - 10) as real <= b.lonMin && b.lonMax <= (lon + 10) as real
      && (lat - 5) as real <= b.latMin && b.latMax <= (lat + 5) as real
  {
    if |grid| == 4 {
      Square4InField(grid);
    } else {
      Valid6Nested(grid);
      var prefix := grid[..4];
      assert Upper(prefix) == prefix by {
        assert forall i :: 0 <= i < 4 ==> prefix[i] == grid[i] && Upper(grid)[i] == UpperChar(grid[i]);
      }
      Square4InField(prefix);
      assert prefix[..2] == grid[..2];
    }
  }

  lemma Square4InField(grid: string)
    requires IsValidGrid(grid) && Upper(grid) == grid && |grid| == 4
    ensures MaidenheadToBounds(grid).Cell?
    ensures var (lon, lat) := FieldCentre(grid[..2]); var b := MaidenheadToBounds(grid).bounds;
      && (lon - 10) as real <= b.lonMin && b.lonMax <= (lon + 10) as real
      && (lat - 5) as real <= b.latMin && b.latMax <= (lat + 5) as real
  {
    Valid4Cell(grid);
    assert UpperChar(grid[0]) == grid[0] && UpperChar(grid[1]) == grid[1] by {
      assert Upper(grid)[0] == UpperChar(grid[0]) && Upper(grid)[1] == UpperChar(grid[1]);
    }
    assert DigitValue(grid[2]) < 10 && DigitValue(grid[3]) < 10;
  }

  // ---------------------------------------------------------------------
  // create_grid_map, up to the drawing
  // ---------------------------------------------------------------------

  /**
   * What `create_grid_map` goes on to draw: nothing when no locator is
   * left after the filter, else the counts, the extent, the region name,
   * the field labels and the file the picture is saved to.
   */
  datatype GridMap =
    | NoData
    | Render(counts: map<string, nat>, view: View, region: string,
             labels: map<string, (int, int)>, outputFile: string)

  /** No selection means the continents `auto_select_continents` finds in the list. */
  ghost function Selection(grids: seq<string>, continents: Option<set<Continent>>): Option<set<Continent>>
    requires AllDecodable(grids)
  {
    if continents.None? then Some(ContinentsOf(grids)) else continents
  }

  /** A missing or empty `output_file` is replaced by the name built from callsign, band and region. */
  function OutputFileName(callsign: string, band: string, region: string, outputFile: Option<string>): (name: string)
    ensures outputFile.Some? && outputFile.value != [] ==> name == outputFile.value
  {
    if outputFile.None? || outputFile.value == "" then callsign + "_" + band + "_" + region + "_maidenhead_map.png"
    else outputFile.value
  }

  /** Some listing of a finite set: a map's keys in an order the model leaves open. */
  ghost function SetToSeq(s: set<string>): (r: seq<string>)
    ensures forall x :: x in r <==> x in s
    decreases |s|
  {
    if s == {} then []
    else
      var x :| x in s;
      [x] + SetToSeq(s - {x})
  }

  /** A locator `maidenhead_to_bounds` accepts has at least the two field characters. */
  lemma DecodableHasField(g: string)
    requires Decodable(g)
    ensures |g| >= 2
  {
  }

  /** The plan `create_grid_map` makes from the locators of the log. */
  ghost function PlanSpec(grids: seq<string>, callsign: string, band: string,
                          continents: Option<set<Continent>>, outputFile: Option<string>): GridMap
    requires AllDecodable(grids)
  {
    CountsAreMultiplicities(grids);
    var valid := FilterSpec(Counts(grids), Selection(grids, continents));
    if valid == map[] then NoData
    else
      var keys := SetToSeq(valid.Keys);
      var view := OptimalView(keys);
      var region := GetRegionName(view);
      assert forall k :: k in keys ==> |k| >= 2 by {
        forall k | k in keys ensures |k| >= 2 { DecodableHasField(k); }
      }
      Render(valid, view, region, FieldLabels(keys, view), OutputFileName(callsign, band, region, outputFile))
  }

  /** The keys of a map, each once, in an order the model leaves open. */
  method KeysOf(m: map<string, nat>) returns (keys: seq<string>)
    ensures forall k :: k in keys <==> k in m
    ensures forall i, j :: 0 <= i < j < |keys| ==> keys[i] != keys[j]
  {
    keys := [];
    var todo := m.Keys;
    while todo != {}
      invariant todo <= m.Keys
      invariant forall k :: k in keys <==> k in m && k !in todo
      invariant forall i, j :: 0 <= i < j < |keys| ==> keys[i] != keys[j]
      decreases todo
    {
      var k :| k in todo;
      keys := keys + [k];
      todo := todo - {k};
    }
  }

  /**
   * `create_grid_map` up to the drawing: count, select, filter, stop when
   * nothing is left, then extent, region name, labels and file name.
   */
  method CreateGridMap(grids: seq<string>, callsign: string, band: string,
                       continents: Option<set<Continent>>, outputFile: Option<string>)
    returns (plan: GridMap)
    requires AllDecodable(grids)
    ensures plan == PlanSpec(grids, callsign, band, continents, outputFile)
  {
    var gridCounts := CountGrids(grids);
    var selection := continents;
    if continents.None? {
      var auto := AutoSelectContinents(grids);
      selection := Some(auto);
    }
    var validGrids := FilterGridsByContinents(gridCounts, selection);
    if validGrids == map[] {
      return NoData;
    }
    var keys := KeysOf(validGrids);
    forall k | k in keys
      ensures |k| >= 2
    {
      DecodableHasField(k);
    }
    var view := GetOptimalBounds(keys);
    var region := GetRegionName(view);
    var labels := FieldCenters(keys, view);
    plan := Render(validGrids, view, region, labels, OutputFileName(callsign, band, region, outputFile));
    ghost var listing := SetToSeq(validGrids.Keys);
    OptimalViewOrderFree(keys, listing);
    FieldLabelsOrderFree(keys, listing, view);
  }

  /**
   * With the continents left to auto-selection, nothing is drawn exactly
   * when the log has no locator at all: when no locator has a continent
   * the selection is empty and keeps everything, otherwise the located
   * ones survive.
   */
  lemma AutoPlanNoDataIffEmpty(grids: seq<string>, callsign: string, band: string, outputFile: Option<string>)
    requires AllDecodable(grids)
    ensures PlanSpec(grids, callsign, band, None, outputFile).NoData? <==> grids == []
  {
    CountsAreMultiplicities(grids);
    var sel := ContinentsOf(grids);
    var valid := FilterSpec(Counts(grids), Some(sel));
    if grids != [] {
      var g := grids[0];
      if sel == {} {
        assert g in valid;
      } else {
        var c :| c in sel;
        ContinentsOfMembers(grids, c);
        var h :| h in grids && GetGridContinent(h) == Some(c);
        AutoSelectionKeepsLocated(grids, h);
        assert h in valid;
      }
    }
  }

  /**
   * Every locator drawn comes from the log, is counted with its
   * multiplicity there, and is in the selection when there is one; every
   * locator of the log in the selection is drawn.
   */
  lemma PlanCounts(grids: seq<string>, callsign: string, band: string,
                   continents: Option<set<Continent>>, outputFile: Option<string>)
    requires AllDecodable(grids)
    ensures var plan := PlanSpec(grids, callsign, band, continents, outputFile);
      var sel := Selection(grids, continents);
      plan.Render? ==>
        && (forall g :: g in plan.counts ==> g in grids && plan.counts[g] == multiset(grids)[g])
        && (sel.value != {} ==> forall g :: g in plan.counts <==> g in grids && InSelection(g, sel.value))
  {
    CountsAreMultiplicities(grids);
  }

  /** Every cell drawn lies inside the extent with at least 2 degrees of latitude and 3 of longitude to spare. */
  lemma PlanFramesCells(grids: seq<string>, callsign: string, band: string,
                        continents: Option<set<Continent>>, outputFile: Option<string>, g: string)
    requires AllDecodable(grids)
    ensures var plan := PlanSpec(grids, callsign, band, continents, outputFile);
      plan.Render? && g in plan.counts && MaidenheadToBounds(g).Cell? ==>
        var v := plan.view; var b := MaidenheadToBounds(g).bounds;
        && v.latMin + 2.0 <= b.latMin && b.latMax <= v.latMax - 2.0
        && v.lonMin + 3.0 <= b.lonMin && b.lonMax <= v.lonMax - 3.0
  {
    CountsAreMultiplicities(grids);
    var plan := PlanSpec(grids, callsign, band, continents, outputFile);
    if plan.Render? && g in plan.counts && MaidenheadToBounds(g).Cell? {
      CellsStrictlyInside(SetToSeq(plan.counts.Keys), g);
    }
  }

  /**
   * Every label sits at its field's centre inside the extent, and the field of
   * a drawn locator is labelled exactly when its centre is inside the extent.
   */
  lemma PlanLabels(grids: seq<string>, callsign: string, band: string,
                   continents: Option<set<Continent>>, outputFile: Option<string>)
    requires AllDecodable(grids)
    ensures var plan := PlanSpec(grids, callsign, band, continents, outputFile);
      plan.Render? ==>
        && (forall f :: f in plan.labels ==>
              |f| == 2 && plan.labels[f] == FieldCentre(f) && Visible(FieldCentre(f), plan.view))
        && (forall g :: g in plan.counts ==>
              |g| >= 2 && (g[..2] in plan.labels <==> Visible(FieldCentre(g[..2]), plan.view)))
  {
    CountsAreMultiplicities(grids);
    var plan := PlanSpec(grids, callsign, band, continents, outputFile);
    if plan.Render? {
      var keys := SetToSeq(plan.counts.Keys);
      forall k | k in keys ensures |k| >= 2 { DecodableHasField(k); }
      FieldLabelsMembers(keys, plan.view);
    }
  }
}
