/**
 * Continent classification of locators: the centre of a locator's cell is
 * compared with an ordered table of closed latitude/longitude rectangles
 * and the first rectangle that contains it names the continent.
 */
module Continents {
  import opened Wrappers
  import opened Grid

  datatype Continent = NorthAmerica | SouthAmerica | Europe | Africa | Asia | Oceania | Other {
    /** The name the program prints and accepts on its command line. */
    function Name(): string {
      match this
      case NorthAmerica => "north_america"
      case SouthAmerica => "south_america"
      case Europe => "europe"
      case Africa => "africa"
      case Asia => "asia"
      case Oceania => "oceania"
      case Other => "other"
    }
  }

  /**
   * The program names continents by these strings and compares them as
   * strings; distinct continents have distinct names, so the comparison is
   * the same as comparing continents.
   */
  lemma NameInjective(a: Continent, b: Continent)
    ensures a.Name() == b.Name() <==> a == b
  {
  }

  /** A closed rectangle of whole degrees. */
  datatype Rect = Rect(latLo: int, latHi: int, lonLo: int, lonHi: int)

  /** The approximate continent boxes, in the order they are tried. */
  const ContinentBounds: seq<(Continent, Rect)> := [
    (NorthAmerica, Rect(10, 85, -180, -30)),
    (SouthAmerica, Rect(-60, 15, -90, -30)),
    (Europe, Rect(35, 75, -15, 45)),
    (Africa, Rect(-40, 40, -20, 55)),
    (Asia, Rect(5, 80, 25, 180)),
    (Oceania, Rect(-50, 0, 110, 180))
  ]

  /** Inclusive on all four edges. */
  predicate Contains(r: Rect, lat: real, lon: real) {
    r.latLo as real <= lat <= r.latHi as real && r.lonLo as real <= lon <= r.lonHi as real
  }

  /** The centre (lat, lon) of a cell. */
  function Centroid(b: Bounds): (real, real) {
    ((b.latMin + b.latMax) / 2.0, (b.lonMin + b.lonMax) / 2.0)
  }

  /** The index of the first rectangle of `table` that contains (lat, lon). */
  function FirstMatch(table: seq<(Continent, Rect)>, lat: real, lon: real): (r: Option<nat>)
    ensures r.Some? ==> r.value < |table| && Contains(table[r.value].1, lat, lon)
    ensures r.Some? ==> forall j :: 0 <= j < r.value ==> !Contains(table[j].1, lat, lon)
    ensures r.None? <==> forall j :: 0 <= j < |table| ==> !Contains(table[j].1, lat, lon)
  {
    if table == [] then None
    else if Contains(table[0].1, lat, lon) then Some(0)
    else match FirstMatch(table[1..], lat, lon)
      case None => None
      case Some(i) => Some(i + 1)
  }

  /**
   * `get_grid_continent`: `None` when the locator has no cell, else the
   * first continent whose box contains the cell's centre, else `Other`.
   */
  function GetGridContinent(grid: string): (r: Option<Continent>)
    requires Decodable(grid)
    ensures r.None? <==> MaidenheadToBounds(grid).NoCell?
  {
    var d := MaidenheadToBounds(grid);
    if d.Cell? then
      var (lat, lon) := Centroid(d.bounds);
      match FirstMatch(ContinentBounds, lat, lon)
      case Some(i) => Some(ContinentBounds[i].0)
      case None => Some(Other)
    else None
  }

  /**
   * The continent of a locator with a cell is `Other` exactly when no box
   * contains the cell's centre, and otherwise the continent of the first
   * box that does.
   */
  lemma GridContinentIsFirstMatch(grid: string)
    requires MaidenheadToBounds(grid).Cell?
    ensures var (lat, lon) := Centroid(MaidenheadToBounds(grid).bounds);
      var r := GetGridContinent(grid);
      && r.Some?
      && (r.value == Other <==> forall j :: 0 <= j < |ContinentBounds| ==> !Contains(ContinentBounds[j].1, lat, lon))
      && (r.value != Other ==> exists i: nat :: FirstContaining(i, lat, lon) && ContinentBounds[i].0 == r.value)
  {
    var (lat, lon) := Centroid(MaidenheadToBounds(grid).bounds);
    var m := FirstMatch(ContinentBounds, lat, lon);
    if m.Some? {
      assert FirstContaining(m.value, lat, lon);
    }
  }

  /** Box `i` contains (lat, lon) and no earlier box does. */
  ghost predicate FirstContaining(i: nat, lat: real, lon: real) {
    i < |ContinentBounds| && Contains(ContinentBounds[i].1, lat, lon)
    && forall j :: 0 <= j < i ==> !Contains(ContinentBounds[j].1, lat, lon)
  }

  /**
   * The boxes overlap; the table order decides. A cell whose centre is in
   * both the North and the South America boxes is North American.
   */
  lemma OverlapGoesToNorthAmerica(grid: string)
    requires MaidenheadToBounds(grid).Cell?
    requires var (lat, lon) := Centroid(MaidenheadToBounds(grid).bounds);
      Contains(Rect(10, 85, -180, -30), lat, lon) && Contains(Rect(-60, 15, -90, -30), lat, lon)
    ensures GetGridContinent(grid) == Some(NorthAmerica)
  {
    var (lat, lon) := Centroid(MaidenheadToBounds(grid).bounds);
    assert ContinentBounds[0] == (NorthAmerica, Rect(10, 85, -180, -30));
    assert FirstMatch(ContinentBounds, lat, lon) == Some(0);
  }

  /** "FK52" (12-13 N, 70-68 W) lies in both boxes and is North American. */
  lemma FK52IsNorthAmerican()
    ensures GetGridContinent("FK52") == Some(NorthAmerica)
  {
    ValidGridClasses("FK52");
    Valid4Cell("FK52");
    OverlapGoesToNorthAmerica("FK52");
  }

  /** The continents of one locator: its continent, or none when it has no cell. */
  function ContinentOf(grid: string): (cs: set<Continent>)
    requires Decodable(grid)
    ensures cs == {} <==> GetGridContinent(grid).None?
    ensures forall c :: c in cs <==> GetGridContinent(grid) == Some(c)
  {
    match GetGridContinent(grid)
    case Some(c) => {c}
    case None => {}
  }

  /** The set of continents of the locators that have one: what `auto_select_continents` collects. */
  ghost function ContinentsOf(grids: seq<string>): set<Continent>
    requires forall g :: g in grids ==> Decodable(g)
    decreases |grids|
  {
    if grids == [] then {}
    else ContinentsOf(grids[..|grids| - 1]) + ContinentOf(grids[|grids| - 1])
  }

  /** A continent is collected exactly when some locator of the list lies on it. */
  lemma {:induction false} ContinentsOfMembers(grids: seq<string>, c: Continent)
    requires forall g :: g in grids ==> Decodable(g)
    ensures c in ContinentsOf(grids) <==> exists g :: g in grids && GetGridContinent(g) == Some(c)
    decreases |grids|
  {
    if grids != [] {
      var init := grids[..|grids| - 1];
      var last := grids[|grids| - 1];
      assert forall g :: g in grids <==> g in init || g == last;
      ContinentsOfMembers(init, c);
    }
  }

  /** `auto_select_continents`: the distinct continents seen, as a set. */
  method AutoSelectContinents(grids: seq<string>) returns (continents: set<Continent>)
    requires forall g :: g in grids ==> Decodable(g)
    ensures continents == ContinentsOf(grids)
    ensures forall c :: c in continents <==> exists g :: g in grids && GetGridContinent(g) == Some(c)
  {
    continents := {};
    for i := 0 to |grids|
      invariant continents == ContinentsOf(grids[..i])
    {
      var continent := GetGridContinent(grids[i]);
      if continent.Some? {
        continents := continents + {continent.value};
      }
      assert grids[..i + 1][..i] == grids[..i];
    }
    assert grids[..|grids|] == grids;
    forall c
      ensures c in continents <==> exists g :: g in grids && GetGridContinent(g) == Some(c)
    {
      ContinentsOfMembers(grids, c);
    }
  }
}
