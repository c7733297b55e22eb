/**
 * The line scan of `parse_cabrillo_grids` over the lines of a Cabrillo 3.0
 * log: `CALLSIGN:` lines set the callsign, `QSO:` lines with at least six
 * fields contribute the valid locators among their exchange fields to the
 * list of the band their frequency field names.
 */
module Cabrillo {
  import opened Wrappers
  import opened Text
  import opened Grid
  import opened Bands
  import opened GridLists

  /** The locators found so far, per band, and the callsign. */
  datatype Scan = Scan(gridsByBand: map<string, seq<string>>, callsign: string)

  /** The upper-cased fields that are valid locators, in order. */
  function ExchangeGrids(fields: seq<string>): (gs: seq<string>)
    ensures forall g :: g in gs ==> IsValidGrid(g) && Upper(g) == g
    decreases |fields|
  {
    if fields == [] then []
    else
      var field := Upper(fields[|fields| - 1]);
      UpperIdempotent(fields[|fields| - 1]);
      ExchangeGrids(fields[..|fields| - 1]) + (if IsValidGrid(field) then [field] else [])
  }

  /** The exchange locators are exactly the upper-cased fields that are valid locators. */
  lemma {:induction false} ExchangeGridsMembers(fields: seq<string>)
    ensures forall g :: g in ExchangeGrids(fields) <==> exists f :: f in fields && Upper(f) == g && IsValidGrid(g)
    decreases |fields|
  {
    if fields != [] {
      var init := fields[..|fields| - 1];
      var last := fields[|fields| - 1];
      assert forall f :: f in fields <==> f in init || f == last;
      ExchangeGridsMembers(init);
    }
  }

  /** A stripped line whose tag is `CALLSIGN:`. */
  predicate IsCallsignLine(rawLine: string) {
    StartsWith(Strip(rawLine), "CALLSIGN:")
  }

  /**
   * The text after the first colon, stripped. The tag has its only colon
   * at index 8, so `split(':', 1)[1]` is what follows the tag.
   */
  function CallsignOf(rawLine: string): string
    requires IsCallsignLine(rawLine)
  {
    Strip(Strip(rawLine)[9..])
  }

  /**
   * The band and the exchange locators of a `QSO:` line with at least six
   * whitespace-separated fields; `None` for every other line.
   */
  function QsoEntry(rawLine: string): Option<(string, seq<string>)> {
    var line := Strip(rawLine);
    if StartsWith(line, "CALLSIGN:") || !StartsWith(line, "QSO:") then None
    else
      var parts := Split(line);
      if |parts| >= 6 then Some((FreqToBand(parts[1]), ExchangeGrids(parts[6..]))) else None
  }

  /** One line of the log. */
  function ScanLine(s: Scan, rawLine: string): Scan {
    if IsCallsignLine(rawLine) then s.(callsign := CallsignOf(rawLine))
    else match QsoEntry(rawLine)
      case Some((band, gs)) => s.(gridsByBand := AddGrids(s.gridsByBand, band, gs))
      case None => s
  }

  /** The scan of the lines in order, from no locators and the callsign "Unknown". */
  function ScanLines(lines: seq<string>): Scan
    decreases |lines|
  {
    if lines == [] then Scan(map[], "Unknown")
    else ScanLine(ScanLines(lines[..|lines| - 1]), lines[|lines| - 1])
  }

  /** The line loop of `parse_cabrillo_grids`. */
  method ParseCabrilloLines(lines: seq<string>) returns (gridsByBand: map<string, seq<string>>, callsign: string)
    ensures Scan(gridsByBand, callsign) == ScanLines(lines)
  {
    gridsByBand := map[];
    callsign := "Unknown";
    for i := 0 to |lines|
      invariant Scan(gridsByBand, callsign) == ScanLines(lines[..i])
    {
      ghost var before := Scan(gridsByBand, callsign);
      var line := Strip(lines[i]);
      if StartsWith(line, "CALLSIGN:") {
        callsign := Strip(line[9..]);
      } else if StartsWith(line, "QSO:") {
        var parts := Split(line);
        if |parts| >= 6 {
          var band := FreqToBand(parts[1]);
          gridsByBand := AppendExchange(gridsByBand, band, parts[6..]);
        }
      }
      assert Scan(gridsByBand, callsign) == ScanLine(before, lines[i]);
      assert lines[..i + 1][..i] == lines[..i];
    }
    assert lines[..|lines|] == lines;
  }

  /** The inner loop of a QSO line: append each upper-cased exchange field that is a valid locator. */
  method AppendExchange(m: map<string, seq<string>>, band: string, exchange: seq<string>)
    returns (gridsByBand: map<string, seq<string>>)
    ensures gridsByBand == AddGrids(m, band, ExchangeGrids(exchange))
  {
    gridsByBand := m;
    for j := 0 to |exchange|
      invariant gridsByBand == AddGrids(m, band, ExchangeGrids(exchange[..j]))
    {
      var field := Upper(exchange[j]);
      ghost var found := if IsValidGrid(field) then [field] else [];
      assert exchange[..j + 1][..j] == exchange[..j];
      assert ExchangeGrids(exchange[..j + 1]) == ExchangeGrids(exchange[..j]) + found;
      AddGridsAppend(m, band, ExchangeGrids(exchange[..j]), found);
      if IsValidGrid(field) {
        var list := if band in gridsByBand then gridsByBand[band] else [];
        gridsByBand := gridsByBand[band := list + [field]];
      }
    }
    assert exchange[..|exchange|] == exchange;
  }

  /** The locators the QSO lines of the log contribute to `band`, in line order. */
  function BandGrids(lines: seq<string>, band: string): seq<string>
    decreases |lines|
  {
    if lines == [] then []
    else
      var more := match QsoEntry(lines[|lines| - 1])
        case Some((b, gs)) => if b == band then gs else []
        case None => [];
      BandGrids(lines[..|lines| - 1], band) + more
  }

  /**
   * A band has a list exactly when its QSO lines contribute a locator, and
   * the list is those locators in line order; `CALLSIGN:` lines and other
   * bands' lines do not touch it.
   */
  lemma {:induction false} ScannedBands(lines: seq<string>)
    ensures var m := ScanLines(lines).gridsByBand;
      forall band :: (band in m <==> BandGrids(lines, band) != []) && (band in m ==> m[band] == BandGrids(lines, band))
    decreases |lines|
  {
    if lines != [] {
      var init := lines[..|lines| - 1];
      var last := lines[|lines| - 1];
      ScannedBands(init);
      var m0 := ScanLines(init).gridsByBand;
      var m := ScanLines(lines).gridsByBand;
      forall band
        ensures (band in m <==> BandGrids(lines, band) != []) && (band in m ==> m[band] == BandGrids(lines, band))
      {
        match QsoEntry(last)
        case Some((b, gs)) =>
          assert m == AddGrids(m0, b, gs);
          if band == b {
            assert BandGrids(lines, band) == BandGrids(init, band) + gs;
          } else {
            assert BandGrids(lines, band) == BandGrids(init, band);
          }
        case None =>
          assert m == m0;
          assert BandGrids(lines, band) == BandGrids(init, band);
      }
    }
  }

  /** Every listed locator is upper-case and valid, and every list is non-empty. */
  lemma {:induction false} ScannedGridsValid(lines: seq<string>)
    ensures ValidLists(ScanLines(lines).gridsByBand)
    decreases |lines|
  {
    if lines != [] {
      var init := lines[..|lines| - 1];
      var last := lines[|lines| - 1];
      ScannedGridsValid(init);
      var before := ScanLines(init);
      if !IsCallsignLine(last) && QsoEntry(last).Some? {
        var (band, gs) := QsoEntry(last).value;
        AddGridsKeepsValid(before.gridsByBand, band, gs);
      }
    }
  }

  /** With no `CALLSIGN:` line the callsign stays "Unknown". */
  lemma {:induction false} NoCallsignLine(lines: seq<string>)
    requires forall i :: 0 <= i < |lines| ==> !IsCallsignLine(lines[i])
    ensures ScanLines(lines).callsign == "Unknown"
    decreases |lines|
  {
    if lines != [] {
      var init := lines[..|lines| - 1];
      assert forall i :: 0 <= i < |init| ==> init[i] == lines[i];
      NoCallsignLine(init);
    }
  }

  /** The last `CALLSIGN:` line decides the callsign; earlier ones are overwritten. */
  lemma {:induction false} LastCallsignLineWins(lines: seq<string>, i: nat)
    requires i < |lines| && IsCallsignLine(lines[i])
    requires forall j :: i < j < |lines| ==> !IsCallsignLine(lines[j])
    ensures ScanLines(lines).callsign == CallsignOf(lines[i])
    decreases |lines|
  {
    var init := lines[..|lines| - 1];
    if i < |lines| - 1 {
      assert forall j :: 0 <= j < |init| ==> init[j] == lines[j];
      LastCallsignLineWins(init, i);
      assert !IsCallsignLine(lines[|lines| - 1]);
    }
  }
}
