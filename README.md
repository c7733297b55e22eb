# Maidenhead grid mapper — a Dafny model

This project models the computational core of the grid mapper
(`maidenhead_map.py`). The program reads an amateur-radio contact log, either
a Cabrillo 3.0 contest log or a CSV export. It collects the Maidenhead
locators ("grid squares") worked on each band, and plans a map of one band.
Planning counts the locators, keeps those on the selected continents,
chooses a padded map extent and names the region. The model covers:

- locator validation (`is_valid_grid`) and decoding into a cell
  (`maidenhead_to_bounds`), in module `Grid` (`grid.dfy`);
- continent classification of a cell's centre against the ordered
  continent table (`get_grid_continent`), and `auto_select_continents`, in
  `Continents` (`continents.dfy`);
- the frequency / band-token classifier `freq_to_band`, in `Bands`
  (`bands.dfy`), with the proof in `BandLabels` (`band_labels.dfy`) that
  each of the 27 canonical band labels is classified as itself;
- counting (`Counter`), `filter_grids_by_continents` and
  `get_optimal_bounds`, in `Aggregate` (`aggregate.dfy`);
- `get_region_name`, the field-label centres, the output file name and the
  whole plan step of `create_grid_map` up to the plotting calls, in `Plan`
  (`plan.dfy`);
- the line logic of `parse_cabrillo_grids` (`cabrillo.dfy`) and the row
  logic of `parse_csv_grids` (`csv_rows.dfy`). Both modules share the
  band-to-locator-list map of `GridLists` (`grid_lists.dfy`);
- the Python string operations these rely on: `upper`, `lower`, `strip`,
  `split()`, `isdigit`, `int()` and `str(int)`, in `Text` (`text.dfy`).
  `Option` lives in `Wrappers` (`wrappers.dfy`).

Coordinates are exact `real`s. The 2/24 and 1/24 subsquare steps, the /2
centroid and the 0.15 padding are therefore exact. Continent edges are
whole degrees.

Where the program loops and mutates, the model does too. Counting, the
filter, the edge collection of `get_optimal_bounds`, `auto_select_continents`,
the field-centre dictionary and both log scanners are methods with loops.
Each method is proved equal to a specification function, and the
properties are proved about those functions.

`maidenhead_to_bounds` raises on some inputs: fewer than two characters, or
a non-digit at position 2 or 3 of a string of length 4 or more. The model
returns `Raises` for those. Members downstream of the decoder require every
locator to be `Decodable`, because the program crashes there.

Behaviour of the code as written that a reader may not expect (the model
follows the code):

- In a Cabrillo log, every `CALLSIGN:` line overwrites the callsign, so the
  last such line names the station (`Cabrillo.LastCallsignLineWins`).
- A square's longitude is the field's western edge plus 2 degrees per square
  digit, so `FN20` spans longitudes -76 to -74 and latitudes 40 to 41
  (`Grid.FN20Example`).
- `get_region_name` never uses its continent-name fallback. Its test
  `'grid_counts' in locals()` is always false inside that function, so every
  view outside the North American and European boxes is named `"regional"`.
- A bare MHz value below 1000 is only ever matched by the kHz chain in
  front of the MHz block. The MHz block's own tests can never succeed
  (`Bands.MhzBlockIsDead`, `Bands.ChainReachesMhzBlock`).
- A CSV row behaves as a Python dict: when two columns share a name, the
  row holds one entry for that name, with the value of the later column
  (`CsvRows.RepeatedColumnKeepsLast`).
- The CSV header names are lower-cased, but the row keys are not. A
  capitalised `Grid`, `Freq` or `Call` column therefore makes the row
  lookup fail, and the parse returns an empty map with the callsign read
  so far (`CsvRows.CapitalisedGridColumnFails`,
  `CsvRows.CapitalisedCallColumnFails`, `CsvRows.CapitalisedHeaderExample`).

## Model

| member | source | states |
|---|---|---|
| Grid.IsValidGrid | maidenhead_map.py:148-166 | Specification predicate of `is_valid_grid`; its meaning is stated by `Grid.ValidGridClasses` and `Grid.ValidGridExamples` |
| Grid.MaidenheadToBounds | maidenhead_map.py:20-38 | Specification function of `maidenhead_to_bounds`: upper-case, strip, then decode. Its raise, cell and no-cell cases are stated by `Grid.DecodeNormalised`, its cells by `Grid.Valid4Cell`, `Grid.Valid6Nested` and `Grid.ValidWithinGlobe` |
| Grid.ValidGridClasses | maidenhead_map.py:148-166 | A string is a valid locator iff it has length 4 or 6 and, case-insensitively, its positions are A-R, A-R, 0-9, 0-9, plus A-X, A-X for length 6 |
| Grid.ValidGridExamples | maidenhead_map.py:148-166 | "fn20" and "FN20ab" are valid. "FN2A", "", "FN2", "SN20" and "FN20AY" are not |
| Grid.DecodeNormalised | maidenhead_map.py:24-38 | On a normalised string, decoding raises iff the string is shorter than 2, or has length 4 or more with a non-digit at position 2 or 3. A cell comes only from length 4 or 6. No cell (None) comes exactly from the other lengths, when they decode |
| Grid.ValidGridHasNoSpace | maidenhead_map.py:22 | Upper-casing then stripping a valid locator leaves its upper-case form: it has no whitespace to remove |
| Grid.Valid4Cell | maidenhead_map.py:20-32 | A valid 4-character locator has field indices below 18 and digit square characters. It decodes to the 1x2-degree cell with lonMin = 20*f0 - 180 + 2*d2 and latMin = 10*f1 - 90 + d3 |
| Grid.Valid6Nested | maidenhead_map.py:27-36 | A valid 6-character locator's 4-character prefix is valid. Both decode to cells, and the 1/24 x 2/24-degree subsquare lies inside the square of the prefix |
| Grid.SubsquareNested | maidenhead_map.py:33-36 | A 6-character normalised locator with a digit square and subsquare letters A-X decodes to a 1/24 x 2/24-degree cell inside its square |
| Grid.ValidWithinGlobe | maidenhead_map.py:20-38 | Every valid locator decodes to a cell inside [-90, 90] x [-180, 180] |
| Grid.ValidIsDecodable | maidenhead_map.py:20-38 | Decoding never raises on a valid locator |
| Grid.FN20Example | maidenhead_map.py:20-32 | "FN20" decodes to latitudes 40-41 and longitudes -76 to -74 |
| Continents.NameInjective | maidenhead_map.py:384-385 | Two continents have the same selection name iff they are the same continent |
| Continents.FirstMatch | maidenhead_map.py:50-53 | The result is the index of a rectangle containing the point, with no earlier rectangle containing it. It is None iff no rectangle contains the point |
| Continents.GetGridContinent | maidenhead_map.py:40-55 | The continent is None iff the locator decodes to no cell |
| Continents.GridContinentIsFirstMatch | maidenhead_map.py:40-55 | For a locator with a cell: the continent is Other iff no table box contains the cell's centre. Otherwise it is the continent of the first box that does |
| Continents.OverlapGoesToNorthAmerica | maidenhead_map.py:11-18 | A centre in both the North and the South American boxes is North American, because that box comes first |
| Continents.FK52IsNorthAmerican | maidenhead_map.py:40-55 | "FK52", whose centre lies in both American boxes, is North American |
| Continents.ContinentOf | maidenhead_map.py:294-297 | The continents of one locator: exactly its continent, or none when it has no cell |
| Continents.ContinentsOf | maidenhead_map.py:291-298 | The set `auto_select_continents` collects, over the list's prefixes. `Continents.ContinentsOfMembers` states its members |
| Continents.ContinentsOfMembers | maidenhead_map.py:291-298 | A continent is collected iff some locator of the list lies on it |
| Continents.AutoSelectContinents | maidenhead_map.py:291-298 | The loop returns the collected set: a continent is in it iff some locator of the input has that continent |
| Bands.FreqToBand | maidenhead_map.py:168-289 | Specification function of `freq_to_band`: the numeric path when the stripped text is an integer, else the token path. Stated by `Bands.FreqToBandOfInt`, `Bands.ParseIntRejects` and the token lemmas |
| Bands.NumericBand | maidenhead_map.py:174-272 | The kHz chain, the MHz block and the kHz fallback. Stated by `Bands.NumericBandInPlan` and `Bands.NumericBandOutsidePlan` |
| Bands.MhzBlock | maidenhead_map.py:236-270 | The MHz block as written. `Bands.MhzBlockIsDead` states what it gives on every input that reaches it |
| Bands.TokenBand | maidenhead_map.py:274-289 | The token table lookup on the upper-cased, stripped text. Stated by `Bands.TokenBandNormalised`, `Bands.TokenBandCaseInsensitive` and `BandLabels.AllLabelsFixed` |
| Bands.NumericBandInPlan | maidenhead_map.py:174-233 | A frequency inside one of the 27 allocations names that allocation. An allocation is an inclusive kHz range, plus the bare MHz values 50, 144, 222, 432, 902/903 and 1296 |
| Bands.NumericBandOutsidePlan | maidenhead_map.py:174-272 | A frequency in no allocation is labelled "{n}MHz" below 1000 and "{n}kHz" from 1000 on |
| Bands.NumericBandExamples | maidenhead_map.py:174-233 | 14070 is 20m, 7030 is 40m, 50 is 6m and 146520 is 2m |
| Bands.MhzBlockIsDead | maidenhead_map.py:236-270 | Below 1000, away from 472-479 and the bare values 50, 144, 222, 432, 902 and 903, the MHz block gives "{n}MHz": none of its own tests can succeed |
| Bands.ChainReachesMhzBlock | maidenhead_map.py:174-236 | Below 1000, every frequency away from 472-479 and those bare values falls through the kHz chain into the MHz block |
| Bands.FreqToBandOfInt | maidenhead_map.py:170-272 | The decimal text of an integer is classified as that integer |
| Bands.ParseIntRejects | maidenhead_map.py:170-171 | A stripped string ending in a non-digit is not an integer, so it takes the token path |
| Bands.TokenBandNormalised | maidenhead_map.py:276-289 | The token path depends only on the upper-cased, stripped token |
| Bands.TokenBandCaseInsensitive | maidenhead_map.py:276-289 | Lower- or upper-casing the token does not change its band |
| Bands.TokenLabelFixed | maidenhead_map.py:168-289 | A label that is not numeric and that the token path maps to itself is a fixed point of the whole classifier |
| BandLabels.TwentyMetresFixed | maidenhead_map.py:274-289 | "20m" is a fixed point of the classifier |
| BandLabels.SeventyCentimetresFixed | maidenhead_map.py:274-289 | "70cm" is a fixed point of the classifier |
| BandLabels.LabelsUpperToKeys | maidenhead_map.py:279-287 | Every label of the token table upper-cases to the token that names it |
| BandLabels.AllLabelsFixed | maidenhead_map.py:274-289 | Each of the 27 labels of the token table is a fixed point of the whole classifier: classifying a label gives the label back |
| Aggregate.Counts | maidenhead_map.py:393 | The `Counter` of the locator list, defined over its prefixes. Stated by `Aggregate.CountsAreMultiplicities` |
| Aggregate.FilterSpec | maidenhead_map.py:377-388 | The sub-map `filter_grids_by_continents` returns. Stated by `Aggregate.NoSelectionKeepsAll`, `Aggregate.FilterKeeps` and `Aggregate.FilterIdempotent` |
| Aggregate.OptimalView | maidenhead_map.py:300-330 | The extent `get_optimal_bounds` returns. Stated by `Aggregate.NoCellsGiveGlobe`, `Aggregate.OptimalViewIsPaddedHull`, `Aggregate.CellsStrictlyInside` and `Aggregate.OptimalViewOrderFree` |
| Aggregate.PaddedHull | maidenhead_map.py:315-330 | The padded bounding box of the collected edges, or the globe when they are empty. Stated by `Aggregate.OptimalViewIsPaddedHull` |
| Aggregate.CountsAreMultiplicities | maidenhead_map.py:393 | The counter has exactly the locators of the list as keys, each with its number of occurrences |
| Aggregate.CountGrids | maidenhead_map.py:393 | The loop builds that counter: the keys are the list's locators, the values their multiplicities |
| Aggregate.NoSelectionKeepsAll | maidenhead_map.py:379-380 | With no selection, or an empty one, the filter returns its input |
| Aggregate.FilterKeeps | maidenhead_map.py:382-388 | With a non-empty selection, a locator is kept iff it is in the input and its continent is selected. Kept locators keep their counts |
| Aggregate.FilterIdempotent | maidenhead_map.py:377-388 | Filtering twice by the same selection is filtering once |
| Aggregate.FilterGridsByContinents | maidenhead_map.py:377-388 | The loop over the counter's keys returns exactly the filter's sub-map |
| Aggregate.SelectedIsFilter | maidenhead_map.py:382-388 | Restricting the counter to the selected keys is the filter |
| Aggregate.AutoSelectionKeepsLocated | maidenhead_map.py:396-401 | With the auto-selected continents, every locator that has a continent survives the filter with its count |
| Aggregate.AutoSelectionKeepsAll | maidenhead_map.py:396-401 | When every locator has a cell, the auto-selected filter drops nothing |
| Aggregate.DecodeAll | maidenhead_map.py:310-311 | The decodings of the keys: one per key, in order, each the key's `maidenhead_to_bounds` |
| Aggregate.LatEdges | maidenhead_map.py:305-313 | The `lats` list of the decodings. `Aggregate.EdgesOf` states that its elements are the cells' latitude edges |
| Aggregate.LonEdges | maidenhead_map.py:305-313 | The `lons` list of the decodings. `Aggregate.EdgesOf` states that its elements are the cells' longitude edges |
| Aggregate.EdgesOf | maidenhead_map.py:308-313 | The collected latitudes (longitudes) are exactly the edges of the decoded cells. They are empty iff no key has a cell |
| Aggregate.CollectEdges | maidenhead_map.py:305-313 | The loop collects, in order, the latitude and longitude edges of every key that decodes to a cell |
| Aggregate.GetOptimalBounds | maidenhead_map.py:300-330 | The method returns the padded hull of the collected edges, or the whole globe when there are no keys or no cells |
| Aggregate.NoCellsGiveGlobe | maidenhead_map.py:302-316 | When no key decodes to a cell, the extent is (-180, 180, -90, 90) |
| Aggregate.OptimalViewIsPaddedHull | maidenhead_map.py:318-330 | With south/north/west/east the extreme cell edges, the extent is those edges widened by max(0.15*span, 2) in latitude and max(0.15*span, 3) in longitude |
| Aggregate.CellsStrictlyInside | maidenhead_map.py:318-330 | Every decoded cell lies inside the extent, with at least 2 degrees of latitude and 3 of longitude to spare |
| Aggregate.OptimalViewOrderFree | maidenhead_map.py:300-330 | Two key lists with the same elements give the same extent, so the key order does not matter |
| Aggregate.SeqMin | maidenhead_map.py:318-319 | The minimum is an element and is at most every element |
| Aggregate.SeqMax | maidenhead_map.py:318-319 | The maximum is an element and is at least every element |
| Plan.GetRegionName | maidenhead_map.py:332-375 | The region naming of `get_region_name`. Stated by `Plan.RegionNameContinent`, `Plan.NorthAmericanNameMeaning`, `Plan.EuropeanNameMeaning` and `Plan.RegionNameExamples` |
| Plan.RegionNameContinent | maidenhead_map.py:332-375 | The name is North American iff the extent is in the North American box. It is European iff the extent is in the European box and not the North American one. It is "regional" iff the extent is in neither |
| Plan.NorthAmericanNameMeaning | maidenhead_map.py:335-353 | Each North American name implies its cut lines (-100, -95 longitude; 35, 45 latitude). "central" holds iff the extent straddles all four cut lines |
| Plan.EuropeanNameMeaning | maidenhead_map.py:356-366 | Each European name implies its cut lines (55, 50 latitude; 15, 5 longitude). "central" holds iff the extent straddles all four |
| Plan.RegionNameExamples | maidenhead_map.py:332-375 | Four extents get northeastern_north_america, central_north_america, central_europe and regional. The whole globe is "regional" |
| Plan.FieldCentre | maidenhead_map.py:447-448 | The label position of a field: the centre of its 20x10-degree box. `Plan.FieldCentreOfCell` states that it is within 10 and 5 degrees of every cell of the field |
| Plan.FieldLabels | maidenhead_map.py:443-451 | The `field_centers` dict after the keys in order. Stated by `Plan.FieldLabelsMembers` and `Plan.FieldLabelsOrderFree` |
| Plan.FieldLabelsMembers | maidenhead_map.py:443-451 | Every label is a 2-character field placed at its field centre. A field is labelled iff some key starts with it and its centre is inside the extent |
| Plan.FieldLabelsOrderFree | maidenhead_map.py:443-451 | Two key lists with the same elements give the same labels |
| Plan.FieldCenters | maidenhead_map.py:443-451 | The loop builds exactly those labels |
| Plan.FieldCentreOfCell | maidenhead_map.py:447-448 | The cell of an upper-case valid locator lies within 10 degrees of longitude and 5 of latitude of its field's label centre |
| Plan.OutputFileName | maidenhead_map.py:472-473 | When an output name is given and is not empty, it is used as it is |
| Plan.SetToSeq | maidenhead_map.py:408 | A listing of `valid_grids.keys()`: a key set listed in some order, holding exactly its elements |
| Plan.Selection | maidenhead_map.py:396-397 | No continents given means the set `auto_select_continents` finds. A given selection is used as it is |
| Plan.KeysOf | maidenhead_map.py:408 | The listing of the counter's keys holds every key exactly once |
| Plan.CreateGridMap | maidenhead_map.py:390-473 | The method returns the plan: counter, auto-selection, filter, empty check, extent, region name, labels and file name |
| Plan.PlanSpec | maidenhead_map.py:390-473 | The plan `create_grid_map` makes. Stated by `Plan.AutoPlanNoDataIffEmpty`, `Plan.PlanCounts`, `Plan.PlanFramesCells` and `Plan.PlanLabels` |
| Plan.AutoPlanNoDataIffEmpty | maidenhead_map.py:393-405 | With auto-selection, there is nothing to draw iff the locator list is empty |
| Plan.PlanCounts | maidenhead_map.py:393-401 | Every drawn locator comes from the list with its number of occurrences. With a non-empty selection, a locator is drawn iff it is in the list and its continent is selected |
| Plan.PlanFramesCells | maidenhead_map.py:408 | Every drawn cell lies inside the map extent, with 2 degrees of latitude and 3 of longitude to spare |
| Plan.PlanLabels | maidenhead_map.py:443-451 | Every label sits at its field's centre inside the extent. The field of a drawn locator is labelled iff its centre is inside the extent |
| Cabrillo.IsCallsignLine | maidenhead_map.py:124-125 | The stripped line starts with `CALLSIGN:` |
| Cabrillo.CallsignOf | maidenhead_map.py:126 | `line.split(':', 1)[1].strip()`: the stripped text after the tag |
| Cabrillo.QsoEntry | maidenhead_map.py:127-136 | The band and exchange locators of a `QSO:` line with at least six fields, None for every other line. Its locators are stated by `Cabrillo.ExchangeGridsMembers` |
| Cabrillo.ScanLine | maidenhead_map.py:124-141 | One iteration of the line loop: a CALLSIGN: line sets the callsign, a QSO line appends its locators |
| Cabrillo.ScanLines | maidenhead_map.py:118-146 | The line-by-line scan. Stated by `Cabrillo.ScannedBands`, `Cabrillo.ScannedGridsValid`, `Cabrillo.NoCallsignLine` and `Cabrillo.LastCallsignLineWins` |
| Cabrillo.ExchangeGrids | maidenhead_map.py:136-141 | Every locator taken from the exchange fields is valid and upper-case |
| Cabrillo.ExchangeGridsMembers | maidenhead_map.py:136-141 | A locator is taken iff it is the upper-casing of some exchange field and is valid |
| Cabrillo.AppendExchange | maidenhead_map.py:138-141 | The inner loop appends the exchange's valid locators, in order, to the band's list |
| Cabrillo.ParseCabrilloLines | maidenhead_map.py:118-146 | The loop over the lines yields the band map and callsign of the line-by-line scan |
| Cabrillo.ScannedBands | maidenhead_map.py:123-141 | A band is a key iff some QSO line of that band contributes a locator. Its list is every such locator in line order |
| Cabrillo.ScannedGridsValid | maidenhead_map.py:138-141 | Every list is non-empty and holds only valid upper-case locators |
| Cabrillo.NoCallsignLine | maidenhead_map.py:119-126 | Without a CALLSIGN: line the callsign is "Unknown" |
| Cabrillo.LastCallsignLineWins | maidenhead_map.py:125-126 | The callsign is the stripped text after the tag of the last CALLSIGN: line |
| GridLists.AddGrids | maidenhead_map.py:138-141 | The `defaultdict(list)` append shared by both parsers: a band's list is created by its first locator. Stated by `GridLists.AddGridsAppend` and `GridLists.AddGridsKeepsValid` |
| GridLists.AddGridsAppend | maidenhead_map.py:138-141 | Appending two runs of locators one after the other is appending their concatenation |
| GridLists.AddGridsKeepsValid | maidenhead_map.py:99-108 | Appending valid upper-case locators keeps every list non-empty, valid and upper-case |
| CsvRows.ChooseColumns | maidenhead_map.py:70-79 | The grid, frequency and call columns chosen from the lower-cased headers. Stated by `CsvRows.Headers` and `CsvRows.FirstPresentIsEarliest` |
| CsvRows.RowBand | maidenhead_map.py:90-96 | The band of a row: an all-digit stripped frequency is classified by `freq_to_band`, any other text is kept as the band |
| CsvRows.RowEntry | maidenhead_map.py:89-108 | A row's band and its locators, or None when the frequency or grid lookup fails. Every locator is valid and upper-case |
| CsvRows.ScanRow | maidenhead_map.py:84-108 | One iteration of the row loop: the call value while the callsign is still "Unknown", then the row's locators. A failed lookup ends the scan |
| CsvRows.ScanRows | maidenhead_map.py:84-108 | The row-by-row scan. Stated by `CsvRows.ScannedCsvBands` and `CsvRows.FailureIsFinal` |
| CsvRows.ParseCsv | maidenhead_map.py:57-114 | The result of `parse_csv_grids`. Stated by `CsvRows.ParsedBands`, `CsvRows.ParsedGridsValid`, `CsvRows.MissingColumnFails` and the callsign lemmas |
| CsvRows.Headers | maidenhead_map.py:70 | The headers are the field names, each lower-cased |
| CsvRows.FirstPresent | maidenhead_map.py:77-79 | The `next(...)` column choice. `CsvRows.FirstPresentIsEarliest` states that it is the earliest candidate present, or None when none is |
| CsvRows.FirstPresentIsEarliest | maidenhead_map.py:77-79 | The chosen column is the earliest candidate present among the headers. It is None iff no candidate is present |
| CsvRows.Lookup | maidenhead_map.py:87-100 | A row lookup misses iff no pair of the row has the name looked up. A hit is the value of the last pair with that name, as in the dict DictReader builds |
| CsvRows.FirstOccurrence | maidenhead_map.py:106 | Every column name of a row first occurs at or before any position holding it: the dict has one entry per name |
| CsvRows.DictValues | maidenhead_map.py:106 | `row.values()`: one value per distinct name, the last value of that name. Stated by `CsvRows.DictValuesMembers` and `CsvRows.DistinctNamesValues` |
| CsvRows.DictValuesMembers | maidenhead_map.py:106 | A value is among `row.values()` iff it is the dict's value for some name of the row |
| CsvRows.DistinctNamesValues | maidenhead_map.py:106 | When the column names are distinct, `row.values()` is every value of the row, in column order |
| CsvRows.ValueGrids | maidenhead_map.py:104-108 | Without a grid column, every value taken from a row's values is a valid upper-case locator |
| CsvRows.ValueGridsMembers | maidenhead_map.py:104-108 | A locator is taken iff it is the stripped, upper-cased form of some non-empty value that is a valid locator once stripped |
| CsvRows.RowValueGridsMembers | maidenhead_map.py:104-108 | For a row, a locator is taken iff it comes that way from the dict's value for some column name |
| CsvRows.UpperValidGrid | maidenhead_map.py:107-108 | Upper-casing a valid locator keeps it valid |
| CsvRows.AppendValueGrids | maidenhead_map.py:106-108 | The loop over `row.values()` appends, in order, each value that is a locator once stripped, upper-cased |
| CsvRows.ParseCsvRows | maidenhead_map.py:59-114 | The loop over the rows yields the map and callsign of the row-by-row scan. After a failed lookup it yields an empty map and the callsign so far |
| CsvRows.ScannedCsvBands | maidenhead_map.py:84-108 | When no row fails, a band is a key iff some row of that band contributes a locator, and its list is every such locator in row order |
| CsvRows.ParsedBands | maidenhead_map.py:84-114 | The parse returns an empty map on a failed lookup. Otherwise a band is a key iff some row contributes a locator to it, and its list is those locators in order |
| CsvRows.RepeatedColumnKeepsLast | maidenhead_map.py:82-102 | Two columns both named "grid" holding FN20 and FN31 give the single locator FN31 |
| CsvRows.FailedRowResult | maidenhead_map.py:84-112 | The row that raises decides the result: no locators, and the callsign the scan held when that row raised |
| CsvRows.MissingCallFails | maidenhead_map.py:86-87 | While the callsign is "Unknown", a row with no call value to read makes the parse return no locators and "Unknown" |
| CsvRows.MissingColumnCallsign | maidenhead_map.py:86-112 | A row missing the frequency or grid column returns no locators. The callsign is that row's stripped call value while the callsign was still "Unknown", else the callsign held before it |
| CsvRows.CapitalisedCallColumnFails | maidenhead_map.py:70-112 | If the call column's lower-cased name is not a field name, the result is no locators and the callsign "Unknown" |
| CsvRows.FailureIsFinal | maidenhead_map.py:110-112 | Once a row has failed, later rows change nothing |
| CsvRows.ParsedGridsValid | maidenhead_map.py:99-108 | Every list in the result is non-empty and holds valid upper-case locators |
| CsvRows.MissingColumnFails | maidenhead_map.py:87-112 | A row missing the chosen frequency or grid column empties the result |
| CsvRows.CapitalisedGridColumnFails | maidenhead_map.py:70-112 | If the grid column's lower-cased name is not a field name, the result is an empty map |
| CsvRows.CapitalisedHeaderExample | maidenhead_map.py:70-112 | Headers "Call" and "Grid" give no locators and the callsign "Unknown" |
| CsvRows.CallsignFromFirstRow | maidenhead_map.py:86-87 | The callsign is the first row's stripped call value, unless that value is "Unknown" |
| CsvRows.NoCallColumnUnknown | maidenhead_map.py:60-87 | Without a call column, the callsign stays "Unknown" |
| Text.ParseInt | maidenhead_map.py:171 | `int()` succeeds iff the stripped text is digits, optionally after one sign |
| Text.ParseIntToString | maidenhead_map.py:170-171 | Parsing the decimal text of an integer gives the integer back |
| Text.StripSpec | maidenhead_map.py:22 | `strip()` keeps a contiguous slice whose ends are not whitespace, and removes only whitespace around it |
| Text.StripIdempotent | maidenhead_map.py:276 | Stripping twice is stripping once |

## Left out

- File opening, reading and the "not found" / parse-error messages (62-66, 110-112, 142-144) are left out. The scanners take the lines, or the CSV field names and rows, as parameters. A failing CSV row lookup is modelled as the error that returns `{}` with the callsign so far.
- The `csv.DictReader` tokeniser is left out. Rows are given as sequences of (header, value) pairs in column order, read with the semantics of the dict DictReader builds: one entry per name, holding the value of the last column with that name. A missing value (DictReader's `restval`) is `None`. Overlong rows (`restkey`) are not modelled. Neither is the unused 1024-character `sample` read.
- All matplotlib/cartopy drawing in `create_grid_map` (413-470), the colour intensity, `savefig` and the prints (398, 404, 475-477) are left out. The plan keeps what they consume: counts, extent, region name, labels and file name.
- `main` is command-line glue and is not modelled: argument parsing, `sys.exit` and dispatch on the file extension. That includes its continent choices, which do not offer `other`.
- `setup.py` holds packaging metadata only and is not part of this model.
- IEEE float rounding is not modelled. Coordinates and paddings are exact reals.
- Only ASCII case mapping is modelled. `upper()` on non-ASCII letters, which can change a string's length, is not. `isdigit()` and `int()` accept ASCII digits only. Unicode digits and `_` separators are not modelled.
- The dictionary iteration order of Python's `dict`, `Counter` and `set` is fixed by the loops. The model proves the extent and the labels independent of it (`Aggregate.OptimalViewOrderFree`, `Plan.FieldLabelsOrderFree`). The order of the auto-selected continent list is not modelled: selection uses it as a set.
- Plan.OutputFileName: the contract states only the case of a given, non-empty name. The default name is the callsign, band and region joined by "_", with "_maidenhead_map.png" appended, and it is not restated as a property.
- Plan.GetRegionName: the continent-name fallback (369-373) is unreachable. It is modelled as its only possible outcome, "regional".
- A locator that makes `maidenhead_to_bounds` raise crashes `get_grid_continent`, the filter and `get_optimal_bounds` in the program. The model excludes such inputs with a `Decodable` precondition rather than modelling the crash.
