/**
 * The row logic of `parse_csv_grids`, over the field names and rows a
 * `csv.DictReader` yields. The columns are chosen by their lower-cased
 * names, but the rows keep the names as written, so a column whose name
 * is not all lower-case is chosen and then not found: that lookup raises,
 * and the whole parse yields no locators and the callsign found so far.
 */
module CsvRows {
  import opened Wrappers
  import opened Text
  import opened Grid
  import opened Bands
  import opened GridLists

  /**
   * A row as `csv.DictReader` pairs the field names with the fields:
   * (field name, value) pairs in column order, `None` for a column the line
   * is too short for. The row dict built from them has one entry per name,
   * placed where the name first appears and holding the value of its last
   * pair, so a repeated column name keeps only its last value.
   */
  type Row = seq<(string, Option<string>)>

  const FreqFields: seq<string> := ["freq", "frequency", "band", "freq_mhz"]
  const GridFields: seq<string> := ["grid", "gridsquare", "grid_square", "their_grid", "dx_grid"]
  const CallFields: seq<string> := ["call", "callsign", "station_callsign", "my_call"]

  /** The file's field names, lower-cased. */
  function Headers(fieldnames: seq<string>): (headers: seq<string>)
    ensures |headers| == |fieldnames| && forall i :: 0 <= i < |fieldnames| ==> headers[i] == Lower(fieldnames[i])
  {
    seq(|fieldnames|, i requires 0 <= i < |fieldnames| => Lower(fieldnames[i]))
  }

  /** `next((f for f in candidates if f in headers), None)`. */
  function FirstPresent(candidates: seq<string>, headers: seq<string>): (r: Option<string>)
    decreases |candidates|
  {
    if candidates == [] then None
    else if candidates[0] in headers then Some(candidates[0])
    else FirstPresent(candidates[1..], headers)
  }

  /**
   * The chosen column is the earliest candidate among the headers; there is
   * none exactly when no candidate is a header.
   */
  lemma {:induction false} FirstPresentIsEarliest(candidates: seq<string>, headers: seq<string>)
    ensures var r := FirstPresent(candidates, headers);
      && (r.None? <==> forall i :: 0 <= i < |candidates| ==> candidates[i] !in headers)
      && (r.Some? ==> exists i :: 0 <= i < |candidates| && candidates[i] == r.value && r.value in headers
                                  && forall j :: 0 <= j < i ==> candidates[j] !in headers)
    decreases |candidates|
  {
    if candidates != [] && candidates[0] !in headers {
      var rest := candidates[1..];
      FirstPresentIsEarliest(rest, headers);
      assert forall i :: 0 < i < |candidates| ==> candidates[i] == rest[i - 1];
      var r := FirstPresent(rest, headers);
      if r.Some? {
        var i :| 0 <= i < |rest| && rest[i] == r.value && forall j :: 0 <= j < i ==> rest[j] !in headers;
        assert candidates[i + 1] == r.value;
      }
    }
  }

  /** The frequency, locator and callsign columns, each optional. */
  datatype Columns = Columns(freq: Option<string>, grid: Option<string>, call: Option<string>)

  function ChooseColumns(fieldnames: seq<string>): Columns {
    var headers := Headers(fieldnames);
    Columns(FirstPresent(FreqFields, headers), FirstPresent(GridFields, headers), FirstPresent(CallFields, headers))
  }

  /** `row[key]`: the value of the last pair with that name; `None` for the `KeyError`. */
  function Lookup(row: Row, key: string): (r: Option<Option<string>>)
    ensures r.None? <==> forall i :: 0 <= i < |row| ==> row[i].0 != key
    ensures r.Some? ==> exists i :: 0 <= i < |row| && row[i] == (key, r.value)
                                    && forall j :: i < j < |row| ==> row[j].0 != key
    decreases |row|
  {
    if row == [] then None
    else if row[|row| - 1].0 == key then Some(row[|row| - 1].1)
    else Lookup(row[..|row| - 1], key)
  }

  /** Pair `i` is the first with its name: where the row dict places that name. */
  predicate FirstOfName(row: Row, i: nat)
    requires i < |row|
  {
    forall j :: 0 <= j < i ==> row[j].0 != row[i].0
  }

  /** Every name of the row has a first pair, at or before any of its pairs. */
  lemma FirstOccurrence(row: Row, i: nat)
    requires i < |row|
    ensures exists j :: 0 <= j <= i && row[j].0 == row[i].0 && FirstOfName(row, j)
    decreases i
  {
    if !FirstOfName(row, i) {
      var j0 :| 0 <= j0 < i && row[j0].0 == row[i].0;
      FirstOccurrence(row, j0);
    }
  }

  /** The value `row[name]` gives for the name of pair `i`. */
  function NameValue(row: Row, i: nat): Option<string>
    requires i < |row|
  {
    Lookup(row, row[i].0).value
  }

  /** The values the row dict holds for the names among the first `k` pairs, in dict order. */
  function DictValuesUpTo(row: Row, k: nat): seq<Option<string>>
    requires k <= |row|
    decreases k
  {
    if k == 0 then []
    else DictValuesUpTo(row, k - 1) + (if FirstOfName(row, k - 1) then [NameValue(row, k - 1)] else [])
  }

  /** `row.values()`: one value per distinct name, the name's last value, in the order names first appear. */
  function DictValues(row: Row): seq<Option<string>> {
    DictValuesUpTo(row, |row|)
  }

  lemma {:induction false} DictValuesUpToMembers(row: Row, k: nat)
    requires k <= |row|
    ensures forall v :: v in DictValuesUpTo(row, k) <==>
      exists i :: 0 <= i < k && FirstOfName(row, i) && NameValue(row, i) == v
    decreases k
  {
    if k > 0 {
      DictValuesUpToMembers(row, k - 1);
      var prev := DictValuesUpTo(row, k - 1);
      var more := if FirstOfName(row, k - 1) then [NameValue(row, k - 1)] else [];
      assert DictValuesUpTo(row, k) == prev + more;
      forall v | v in prev + more
        ensures exists i :: 0 <= i < k && FirstOfName(row, i) && NameValue(row, i) == v
      {
        if v in prev {
          var i :| 0 <= i < k - 1 && FirstOfName(row, i) && NameValue(row, i) == v;
        } else {
          assert v in more;
        }
      }
      forall v, i | 0 <= i < k && FirstOfName(row, i) && NameValue(row, i) == v
        ensures v in prev + more
      {
        if i < k - 1 {
          assert v in prev;
        }
      }
    }
  }

  /** A value is among `row.values()` exactly when it is what `row[name]` gives for a name of the row. */
  lemma DictValuesMembers(row: Row)
    ensures forall v :: v in DictValues(row) <==> exists i :: 0 <= i < |row| && NameValue(row, i) == v
  {
    DictValuesUpToMembers(row, |row|);
    forall v, i | 0 <= i < |row| && NameValue(row, i) == v
      ensures v in DictValues(row)
    {
      FirstOccurrence(row, i);
      var j :| 0 <= j <= i && row[j].0 == row[i].0 && FirstOfName(row, j);
      assert NameValue(row, j) == v;
    }
  }

  /** With no repeated name, `row.values()` is the row's values in column order. */
  lemma {:induction false} DistinctNamesValues(row: Row, k: nat)
    requires k <= |row|
    requires forall i, j :: 0 <= i < j < |row| ==> row[i].0 != row[j].0
    ensures DictValuesUpTo(row, k) == seq(k, i requires 0 <= i < k => row[i].1)
    decreases k
  {
    if k > 0 {
      DistinctNamesValues(row, k - 1);
      var i := k - 1;
      var r := Lookup(row, row[i].0);
      assert NameValue(row, i) == r.value;
      var i0 :| 0 <= i0 < |row| && row[i0] == (row[i].0, r.value) && forall j :: i0 < j < |row| ==> row[j].0 != row[i].0;
      assert i0 == i;
    }
  }

  /**
   * `row[key].strip()`: `None` when that raises, for a missing name
   * (`KeyError`) or a missing value (`None` has no `strip`).
   */
  function StrippedField(row: Row, key: string): Option<string> {
    match Lookup(row, key)
    case Some(Some(v)) => Some(Strip(v))
    case _ => None
  }

  /** The scan so far: still reading, or stopped by an exception with the callsign it had. */
  datatype CsvScan =
    | Reading(gridsByBand: map<string, seq<string>>, callsign: string)
    | Failed(callsign: string)

  /** A value that is present, not empty, and a locator once stripped. */
  predicate IsGridValue(v: Option<string>) {
    v.Some? && v.value != "" && IsValidGrid(Strip(v.value))
  }

  /** The locators among a row's values, stripped and upper-cased, in order. */
  function ValueGrids(values: seq<Option<string>>): (gs: seq<string>)
    ensures forall g :: g in gs ==> IsValidGrid(g) && Upper(g) == g
    decreases |values|
  {
    if values == [] then []
    else
      var v := values[|values| - 1];
      var more := if IsGridValue(v) then [Upper(Strip(v.value))] else [];
      assert forall g :: g in more ==> IsValidGrid(g) && Upper(g) == g by {
        if more != [] {
          UpperIdempotent(Strip(v.value));
          UpperValidGrid(Strip(v.value));
        }
      }
      ValueGrids(values[..|values| - 1]) + more
  }

  /** A locator is taken exactly when some value, stripped, is a locator and it is that value upper-cased. */
  lemma {:induction false} ValueGridsMembers(values: seq<Option<string>>)
    ensures forall g :: g in ValueGrids(values) <==> exists v :: v in values && IsGridValue(v) && g == Upper(Strip(v.value))
    decreases |values|
  {
    if values != [] {
      var init := values[..|values| - 1];
      var last := values[|values| - 1];
      assert forall v :: v in values <==> v in init || v == last;
      ValueGridsMembers(init);
    }
  }

  /**
   * Without a locator column, a row contributes exactly the stripped,
   * upper-cased values `row[name]` that are locators, over its names.
   */
  lemma RowValueGridsMembers(row: Row)
    ensures forall g :: g in ValueGrids(DictValues(row)) <==>
      exists i :: 0 <= i < |row| && IsGridValue(NameValue(row, i)) && g == Upper(Strip(NameValue(row, i).value))
  {
    DictValuesMembers(row);
    ValueGridsMembers(DictValues(row));
  }

  /** Upper-casing keeps a locator valid. */
  lemma UpperValidGrid(g: string)
    requires IsValidGrid(g)
    ensures IsValidGrid(Upper(g))
  {
    UpperIdempotent(g);
  }

  /** The band of a row from its (stripped) frequency value: a number is classified, anything else kept. */
  function RowBand(freqVal: string): string {
    if IsDigits(freqVal) then FreqToBand(freqVal) else freqVal
  }

  /**
   * The band of a row and the locators it contributes: `None` when reading
   * its frequency or its locator column raises. Without a locator column
   * every value of the row is tried.
   */
  function RowEntry(cols: Columns, row: Row): (r: Option<(string, seq<string>)>)
    ensures r.Some? ==> forall g :: g in r.value.1 ==> IsValidGrid(g) && Upper(g) == g
  {
    var band := if cols.freq.None? then Some("Unknown")
      else match StrippedField(row, cols.freq.value)
        case Some(f) => Some(RowBand(f))
        case None => None;
    if band.None? then None
    else if cols.grid.Some? then
      match StrippedField(row, cols.grid.value)
      case None => None
      case Some(v) =>
        UpperIdempotent(v);
        Some((band.value, if IsValidGrid(Upper(v)) then [Upper(v)] else []))
    else Some((band.value, ValueGrids(DictValues(row))))
  }

  /** One row: callsign (while still "Unknown"), then band and locators. */
  function ScanRow(s: CsvScan, cols: Columns, row: Row): CsvScan {
    match s
    case Failed(_) => s
    case Reading(m, callsign0) =>
      var call := if cols.call.Some? && callsign0 == "Unknown" then StrippedField(row, cols.call.value) else Some(callsign0);
      if call.None? then Failed(callsign0)
      else match RowEntry(cols, row)
        case None => Failed(call.value)
        case Some((band, gs)) => Reading(AddGrids(m, band, gs), call.value)
  }

  function ScanRows(cols: Columns, rows: seq<Row>): CsvScan
    decreases |rows|
  {
    if rows == [] then Reading(map[], "Unknown")
    else ScanRow(ScanRows(cols, rows[..|rows| - 1]), cols, rows[|rows| - 1])
  }

  /** What `parse_csv_grids` returns for a file with these field names and rows. */
  function ParseCsv(fieldnames: seq<string>, rows: seq<Row>): (map<string, seq<string>>, string) {
    match ScanRows(ChooseColumns(fieldnames), rows)
    case Reading(m, callsign) => (m, callsign)
    case Failed(callsign) => (map[], callsign)
  }

  /** The row loop of `parse_csv_grids`; an exception ends it with no locators. */
  method ParseCsvRows(fieldnames: seq<string>, rows: seq<Row>) returns (gridsByBand: map<string, seq<string>>, callsign: string)
    ensures (gridsByBand, callsign) == ParseCsv(fieldnames, rows)
  {
    var headers := Headers(fieldnames);
    var freqField := FirstPresent(FreqFields, headers);
    var gridField := FirstPresent(GridFields, headers);
    var callField := FirstPresent(CallFields, headers);
    ghost var cols := Columns(freqField, gridField, callField);
    gridsByBand := map[];
    callsign := "Unknown";
    for i := 0 to |rows|
      invariant ScanRows(cols, rows[..i]) == Reading(gridsByBand, callsign)
    {
      var row := rows[i];
      assert rows[..i + 1][..i] == rows[..i];
      if callField.Some? && callsign == "Unknown" {
        var value := Lookup(row, callField.value);
        if value.None? || value.value.None? {
          FailureIsFinal(cols, rows, i + 1);
          return map[], callsign;
        }
        callsign := Strip(value.value.value);
      }
      var band := "Unknown";
      if freqField.Some? {
        var value := Lookup(row, freqField.value);
        if value.None? || value.value.None? {
          FailureIsFinal(cols, rows, i + 1);
          return map[], callsign;
        }
        var freqVal := Strip(value.value.value);
        if IsDigits(freqVal) {
          band := FreqToBand(freqVal);
        } else {
          band := freqVal;
        }
      }
      if gridField.Some? {
        var value := Lookup(row, gridField.value);
        if value.None? || value.value.None? {
          FailureIsFinal(cols, rows, i + 1);
          return map[], callsign;
        }
        var grid := Upper(Strip(value.value.value));
        if IsValidGrid(grid) {
          var list := if band in gridsByBand then gridsByBand[band] else [];
          gridsByBand := gridsByBand[band := list + [grid]];
        }
      } else {
        gridsByBand := AppendValueGrids(gridsByBand, band, DictValues(row));
      }
    }
    assert rows[..|rows|] == rows;
  }

  /** The loop over `row.values()` of a file without a locator column. */
  method AppendValueGrids(m: map<string, seq<string>>, band: string, values: seq<Option<string>>)
    returns (gridsByBand: map<string, seq<string>>)
    ensures gridsByBand == AddGrids(m, band, ValueGrids(values))
  {
    gridsByBand := m;
    for j := 0 to |values|
      invariant gridsByBand == AddGrids(m, band, ValueGrids(values[..j]))
    {
      var value := values[j];
      ghost var found := if IsGridValue(value) then [Upper(Strip(value.value))] else [];
      assert values[..j + 1][..j] == values[..j];
      assert ValueGrids(values[..j + 1]) == ValueGrids(values[..j]) + found;
      AddGridsAppend(m, band, ValueGrids(values[..j]), found);
      if value.Some? && value.value != "" && IsValidGrid(Strip(value.value)) {
        var list := if band in gridsByBand then gridsByBand[band] else [];
        gridsByBand := gridsByBand[band := list + [Upper(Strip(value.value))]];
      }
    }
    assert values[..|values|] == values;
  }

  /** Once a row has raised, the later rows are never read. */
  lemma {:induction false} FailureIsFinal(cols: Columns, rows: seq<Row>, k: nat)
    requires k <= |rows| && ScanRows(cols, rows[..k]).Failed?
    ensures ScanRows(cols, rows) == ScanRows(cols, rows[..k])
    decreases |rows|
  {
    if k < |rows| {
      var init := rows[..|rows| - 1];
      assert init[..k] == rows[..k];
      FailureIsFinal(cols, init, k);
    } else {
      assert rows[..k] == rows;
    }
  }

  /** Every listed locator is upper-case and valid, and every list is non-empty. */
  lemma ParsedGridsValid(fieldnames: seq<string>, rows: seq<Row>)
    ensures ValidLists(ParseCsv(fieldnames, rows).0)
  {
    ScannedListsValid(ChooseColumns(fieldnames), rows);
  }

  lemma {:induction false} ScannedListsValid(cols: Columns, rows: seq<Row>)
    ensures ScanRows(cols, rows).Reading? ==> ValidLists(ScanRows(cols, rows).gridsByBand)
    decreases |rows|
  {
    if rows != [] {
      var init := rows[..|rows| - 1];
      var row := rows[|rows| - 1];
      ScannedListsValid(cols, init);
      var s := ScanRows(cols, init);
      if s.Reading? && RowEntry(cols, row).Some? {
        var (band, gs) := RowEntry(cols, row).value;
        AddGridsKeepsValid(s.gridsByBand, band, gs);
      }
    }
  }

  /** The locators the rows contribute to `band`, in row order. */
  function CsvBandGrids(cols: Columns, rows: seq<Row>, band: string): seq<string>
    decreases |rows|
  {
    if rows == [] then []
    else
      var more := match RowEntry(cols, rows[|rows| - 1])
        case Some((b, gs)) => if b == band then gs else []
        case None => [];
      CsvBandGrids(cols, rows[..|rows| - 1], band) + more
  }

  /**
   * When no row raised, a band has a list exactly when its rows contribute
   * a locator, and the list is those locators in row order.
   */
  lemma {:induction false} ScannedCsvBands(cols: Columns, rows: seq<Row>)
    ensures var s := ScanRows(cols, rows);
      s.Reading? ==> forall band ::
        && (band in s.gridsByBand <==> CsvBandGrids(cols, rows, band) != [])
        && (band in s.gridsByBand ==> s.gridsByBand[band] == CsvBandGrids(cols, rows, band))
    decreases |rows|
  {
    if rows != [] && ScanRows(cols, rows).Reading? {
      var init := rows[..|rows| - 1];
      var last := rows[|rows| - 1];
      ScannedCsvBands(cols, init);
      var s0 := ScanRows(cols, init);
      assert s0.Reading?;
      var m0 := s0.gridsByBand;
      var m := ScanRows(cols, rows).gridsByBand;
      var (b, gs) := RowEntry(cols, last).value;
      assert m == AddGrids(m0, b, gs);
      forall band
        ensures (band in m <==> CsvBandGrids(cols, rows, band) != []) && (band in m ==> m[band] == CsvBandGrids(cols, rows, band))
      {
        if band == b {
          assert CsvBandGrids(cols, rows, band) == CsvBandGrids(cols, init, band) + gs;
        } else {
          assert CsvBandGrids(cols, rows, band) == CsvBandGrids(cols, init, band);
        }
      }
    }
  }

  /**
   * `parse_csv_grids`' map: empty when a row raised, and otherwise each
   * band's list is the locators its rows contribute, in row order.
   */
  lemma ParsedBands(fieldnames: seq<string>, rows: seq<Row>)
    ensures var cols := ChooseColumns(fieldnames); var m := ParseCsv(fieldnames, rows).0;
      && (ScanRows(cols, rows).Failed? ==> m == map[])
      && (ScanRows(cols, rows).Reading? ==> forall band ::
            && (band in m <==> CsvBandGrids(cols, rows, band) != [])
            && (band in m ==> m[band] == CsvBandGrids(cols, rows, band)))
  {
    ScannedCsvBands(ChooseColumns(fieldnames), rows);
  }

  /**
   * A row that lacks the chosen frequency or locator column makes the
   * parse raise, and the result has no locators at all, whatever the
   * earlier rows held.
   */
  lemma MissingColumnFails(fieldnames: seq<string>, rows: seq<Row>, i: nat)
    requires i < |rows|
    requires var cols := ChooseColumns(fieldnames);
      || (cols.freq.Some? && Lookup(rows[i], cols.freq.value).None?)
      || (cols.grid.Some? && Lookup(rows[i], cols.grid.value).None?)
    ensures ParseCsv(fieldnames, rows).0 == map[]
  {
    var cols := ChooseColumns(fieldnames);
    var prefix := rows[..i + 1];
    assert prefix[..i] == rows[..i] && prefix[i] == rows[i];
    assert ScanRows(cols, prefix).Failed?;
    FailureIsFinal(cols, rows, i + 1);
  }

  /**
   * The row that raises decides the result: the parse returns no locators
   * and the callsign the scan held when that row raised.
   */
  lemma FailedRowResult(fieldnames: seq<string>, rows: seq<Row>, i: nat)
    requires i < |rows|
    requires ScanRows(ChooseColumns(fieldnames), rows[..i]).Reading?
    requires ScanRows(ChooseColumns(fieldnames), rows[..i + 1]).Failed?
    ensures ParseCsv(fieldnames, rows) == (map[], ScanRows(ChooseColumns(fieldnames), rows[..i + 1]).callsign)
  {
    FailureIsFinal(ChooseColumns(fieldnames), rows, i + 1);
  }

  /**
   * While the callsign is still "Unknown", the call column is read first:
   * a row whose call value is missing (no such key, or no value to strip)
   * makes the parse return no locators and the callsign "Unknown".
   */
  lemma MissingCallFails(fieldnames: seq<string>, rows: seq<Row>, i: nat)
    requires i < |rows|
    requires var cols := ChooseColumns(fieldnames);
      && cols.call.Some?
      && ScanRows(cols, rows[..i]).Reading? && ScanRows(cols, rows[..i]).callsign == "Unknown"
      && StrippedField(rows[i], cols.call.value).None?
    ensures ParseCsv(fieldnames, rows) == (map[], "Unknown")
  {
    var cols := ChooseColumns(fieldnames);
    var prefix := rows[..i + 1];
    assert prefix[..i] == rows[..i] && prefix[i] == rows[i];
    assert ScanRows(cols, prefix) == Failed("Unknown");
    FailedRowResult(fieldnames, rows, i);
  }

  /**
   * A row missing the frequency or locator column, after a call value that
   * is read, returns no locators with the callsign as updated by that row:
   * its stripped call value while the callsign was "Unknown", else the
   * callsign held before it.
   */
  lemma MissingColumnCallsign(fieldnames: seq<string>, rows: seq<Row>, i: nat)
    requires i < |rows|
    requires var cols := ChooseColumns(fieldnames);
      && ScanRows(cols, rows[..i]).Reading?
      && (cols.call.Some? && ScanRows(cols, rows[..i]).callsign == "Unknown"
          ==> StrippedField(rows[i], cols.call.value).Some?)
      && (|| (cols.freq.Some? && Lookup(rows[i], cols.freq.value).None?)
          || (cols.grid.Some? && Lookup(rows[i], cols.grid.value).None?))
    ensures var cols := ChooseColumns(fieldnames);
      var c := ScanRows(cols, rows[..i]).callsign;
      ParseCsv(fieldnames, rows)
        == (map[], if cols.call.Some? && c == "Unknown" then StrippedField(rows[i], cols.call.value).value else c)
  {
    var cols := ChooseColumns(fieldnames);
    var prefix := rows[..i + 1];
    assert prefix[..i] == rows[..i] && prefix[i] == rows[i];
    assert RowEntry(cols, rows[i]).None?;
    assert ScanRows(cols, prefix).Failed?;
    FailedRowResult(fieldnames, rows, i);
  }

  /**
   * The column names are matched lower-cased but looked up as written: when
   * the chosen locator column's name is not written in lower case, so that
   * no field name is exactly the lower-cased one, any row makes the parse
   * raise and no locator comes out.
   */
  lemma CapitalisedGridColumnFails(fieldnames: seq<string>, rows: seq<Row>)
    requires rows != []
    requires forall k :: 0 <= k < |rows[0]| ==> rows[0][k].0 in fieldnames
    requires ChooseColumns(fieldnames).grid.Some? && ChooseColumns(fieldnames).grid.value !in fieldnames
    ensures ParseCsv(fieldnames, rows).0 == map[]
  {
    MissingColumnFails(fieldnames, rows, 0);
  }

  /**
   * The same holds for the call column: when its lower-cased name is not a
   * field name, the first row raises on the call lookup, and the parse
   * returns no locators and the callsign "Unknown".
   */
  lemma CapitalisedCallColumnFails(fieldnames: seq<string>, rows: seq<Row>)
    requires rows != []
    requires forall k :: 0 <= k < |rows[0]| ==> rows[0][k].0 in fieldnames
    requires ChooseColumns(fieldnames).call.Some? && ChooseColumns(fieldnames).call.value !in fieldnames
    ensures ParseCsv(fieldnames, rows) == (map[], "Unknown")
  {
    assert rows[..0] == [];
    MissingCallFails(fieldnames, rows, 0);
  }

  /**
   * With a callsign column, the first row's stripped callsign stays the
   * callsign unless it is "Unknown" itself; later rows cannot change it.
   */
  lemma {:induction false} CallsignFromFirstRow(fieldnames: seq<string>, rows: seq<Row>, v: string)
    requires rows != []
    requires ChooseColumns(fieldnames).call.Some?
    requires Lookup(rows[0], ChooseColumns(fieldnames).call.value) == Some(Some(v))
    requires Strip(v) != "Unknown"
    ensures ParseCsv(fieldnames, rows).1 == Strip(v)
  {
    CallsignSticks(ChooseColumns(fieldnames), rows, v);
  }

  lemma {:induction false} CallsignSticks(cols: Columns, rows: seq<Row>, v: string)
    requires rows != [] && cols.call.Some?
    requires Lookup(rows[0], cols.call.value) == Some(Some(v))
    requires Strip(v) != "Unknown"
    ensures ScanRows(cols, rows).callsign == Strip(v)
    decreases |rows|
  {
    if |rows| > 1 {
      var init := rows[..|rows| - 1];
      assert init[0] == rows[0];
      CallsignSticks(cols, init, v);
    } else {
      assert rows[..0] == [];
    }
  }

  /** Without a callsign column the callsign is "Unknown". */
  lemma {:induction false} NoCallColumnUnknown(fieldnames: seq<string>, rows: seq<Row>)
    requires ChooseColumns(fieldnames).call.None?
    ensures ParseCsv(fieldnames, rows).1 == "Unknown"
  {
    NoCallStaysUnknown(ChooseColumns(fieldnames), rows);
  }

  lemma {:induction false} NoCallStaysUnknown(cols: Columns, rows: seq<Row>)
    requires cols.call.None?
    ensures ScanRows(cols, rows).callsign == "Unknown"
    decreases |rows|
  {
    if rows != [] {
      NoCallStaysUnknown(cols, rows[..|rows| - 1]);
    }
  }

  /**
   * A log exported with the header "Call,Grid": both columns are chosen,
   * neither is found, and the first row already raises.
   */
  lemma CapitalisedHeaderExample()
    ensures ParseCsv(["Call", "Grid"], [[("Call", Some("W1AW")), ("Grid", Some("FN31"))]]) == (map[], "Unknown")
  {
    var fieldnames := ["Call", "Grid"];
    var row: Row := [("Call", Some("W1AW")), ("Grid", Some("FN31"))];
    assert Headers(fieldnames) == ["call", "grid"] by {
      assert Lower("Call") == "call" by { assert Lower("Call")[0] == LowerChar('C'); }
      assert Lower("Grid") == "grid" by { assert Lower("Grid")[0] == LowerChar('G'); }
    }
    assert ChooseColumns(fieldnames).call == Some("call");
    assert Lookup(row, "call") == None;
    assert ScanRows(ChooseColumns(fieldnames), [row]) == Failed("Unknown") by {
      assert [row][..0] == [];
    }
  }

  /**
   * A header that names the locator column twice: the row dict keeps the
   * second value only, so "FN31" is listed and "FN20" is not.
   */
  lemma RepeatedColumnKeepsLast()
    ensures ParseCsv(["grid", "grid"], [[("grid", Some("FN20")), ("grid", Some("FN31"))]])
      == (map["Unknown" := ["FN31"]], "Unknown")
  {
    var row: Row := [("grid", Some("FN20")), ("grid", Some("FN31"))];
    RepeatedGridColumns();
    RepeatedGridEntry();
    SingleRowScan(Columns(None, Some("grid"), None), row);
  }

  /** Two headers both named "grid" choose that name for the locators and nothing else. */
  lemma RepeatedGridColumns()
    ensures ChooseColumns(["grid", "grid"]) == Columns(None, Some("grid"), None)
  {
    assert Lower("grid") == "grid";
    assert Headers(["grid", "grid"]) == ["grid", "grid"];
  }

  /** The row reads the later of the two "grid" values. */
  lemma RepeatedGridEntry()
    ensures RowEntry(Columns(None, Some("grid"), None), [("grid", Some("FN20")), ("grid", Some("FN31"))])
      == Some(("Unknown", ["FN31"]))
  {
    var row: Row := [("grid", Some("FN20")), ("grid", Some("FN31"))];
    assert Lookup(row, "grid") == Some(Some("FN31"));
    StripUnchanged("FN31");
    assert Upper("FN31") == "FN31";
    assert IsValidGrid("FN31");
  }

  /** A file of one row that raises nothing, without a callsign column. */
  lemma SingleRowScan(cols: Columns, row: Row)
    requires cols.call.None? && RowEntry(cols, row).Some? && RowEntry(cols, row).value.1 != []
    ensures var (band, gs) := RowEntry(cols, row).value;
      ScanRows(cols, [row]) == Reading(map[band := gs], "Unknown")
  {
    assert [row][..0] == [];
    var (band, gs) := RowEntry(cols, row).value;
    assert [] + gs == gs;
  }
}
