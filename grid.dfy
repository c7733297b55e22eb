/**
 * The Maidenhead locator codec: syntax check of 4- and 6-character
 * locators and their decoding to a latitude/longitude cell.
 *
 * A locator is two field letters (A-R, 18 fields of 20 degrees of longitude
 * by 10 of latitude), two square digits (2 by 1 degrees) and optionally two
 * subsquare letters (A-X, 24 steps of 2/24 by 1/24 degrees).
 */
module Grid {
  import opened Text

  /** (latMin, latMax, lonMin, lonMax) in degrees, the tuple's order. */
  datatype Bounds = Bounds(latMin: real, latMax: real, lonMin: real, lonMax: real)

  /**
   * What `maidenhead_to_bounds` gives: a cell, `None`, or an exception
   * (an `IndexError` for fewer than two characters, a `ValueError` from
   * `int()` when position 2 or 3 is not a digit).
   */
  datatype Decoded = Cell(bounds: Bounds) | NoCell | Raises

  const FieldLetters: string := "ABCDEFGHIJKLMNOPQR"
  const SquareDigits: string := "0123456789"
  const SubsquareLetters: string := "ABCDEFGHIJKLMNOPQRSTUVWX"

  /** `is_valid_grid`: length 4 or 6 and the right character class per position. */
  predicate IsValidGrid(grid: string) {
    if |grid| != 4 && |grid| != 6 then false
    else
      var g := Upper(grid);
      if |g| == 4 then
        g[0] in FieldLetters && g[1] in FieldLetters
        && g[2] in SquareDigits && g[3] in SquareDigits
      else
        g[0] in FieldLetters && g[1] in FieldLetters
        && g[2] in SquareDigits && g[3] in SquareDigits
        && g[4] in SubsquareLetters && g[5] in SubsquareLetters
  }

  /** A field letter in either case: A-R or a-r. */
  predicate IsFieldChar(c: char) {
    'A' <= c <= 'R' || 'a' <= c <= 'r'
  }

  /** A subsquare letter in either case: A-X or a-x. */
  predicate IsSubsquareChar(c: char) {
    'A' <= c <= 'X' || 'a' <= c <= 'x'
  }

  lemma FieldLetterClass(c: char)
    ensures UpperChar(c) in FieldLetters <==> IsFieldChar(c)
  {
    var u := UpperChar(c);
    if 'A' <= u <= 'R' {
      assert FieldLetters[u as int - 'A' as int] == u;
    }
  }

  lemma SubsquareLetterClass(c: char)
    ensures UpperChar(c) in SubsquareLetters <==> IsSubsquareChar(c)
  {
    var u := UpperChar(c);
    if 'A' <= u <= 'X' {
      assert SubsquareLetters[u as int - 'A' as int] == u;
    }
  }

  lemma SquareDigitClass(c: char)
    ensures UpperChar(c) in SquareDigits <==> IsDigit(c)
  {
    var u := UpperChar(c);
    if IsDigit(u) {
      assert SquareDigits[u as int - '0' as int] == u;
    }
  }

  /**
   * The validity check, stated by character ranges on the locator as given:
   * case-insensitive letters A-R at 0 and 1, digits at 2 and 3, and for six
   * characters letters A-X at 4 and 5; every other length is invalid.
   */
  lemma ValidGridClasses(grid: string)
    ensures IsValidGrid(grid) <==>
      (|grid| == 4 || |grid| == 6)
      && IsFieldChar(grid[0]) && IsFieldChar(grid[1])
      && IsDigit(grid[2]) && IsDigit(grid[3])
      && (|grid| == 6 ==> IsSubsquareChar(grid[4]) && IsSubsquareChar(grid[5]))
  {
    if |grid| == 4 || |grid| == 6 {
      FieldLetterClass(grid[0]);
      FieldLetterClass(grid[1]);
      SquareDigitClass(grid[2]);
      SquareDigitClass(grid[3]);
      if |grid| == 6 {
        SubsquareLetterClass(grid[4]);
        SubsquareLetterClass(grid[5]);
      }
    }
  }

  /** The examples of the validity rule: "fn20" is valid, "FN2A" and "" are not. */
  lemma ValidGridExamples()
    ensures IsValidGrid("fn20") && IsValidGrid("FN20ab")
    ensures !IsValidGrid("FN2A") && !IsValidGrid("") && !IsValidGrid("FN2")
    ensures !IsValidGrid("SN20") && !IsValidGrid("FN20AY")
  {
    assert IsValidGrid("fn20") by { ValidGridClasses("fn20"); }
    assert IsValidGrid("FN20ab") by { ValidGridClasses("FN20ab"); }
    assert !IsValidGrid("FN2A") by { ValidGridClasses("FN2A"); }
    assert !IsValidGrid("SN20") by { ValidGridClasses("SN20"); }
    assert !IsValidGrid("FN20AY") by { ValidGridClasses("FN20AY"); }
  }

  /** Zero-based offset of a letter from 'A' after upper-casing. */
  function LetterIndex(c: char): int {
    UpperChar(c) as int - 'A' as int
  }

  /**
   * `maidenhead_to_bounds`. The locator is upper-cased and stripped, then
   * the field gives the 20 by 10 degree base, the square adds 2 and 1
   * degrees per digit, the subsquare 2/24 and 1/24 per letter. Lengths
   * other than 4 and 6 give no cell.
   */
  function MaidenheadToBounds(grid: string): (r: Decoded) {
    DecodeNormalised(Strip(Upper(grid)))
  }

  /** The decoding of an already normalised locator `g`. */
  function DecodeNormalised(g: string): (r: Decoded)
    ensures r.Raises? <==> |g| < 2 || (|g| >= 4 && !(IsDigit(g[2]) && IsDigit(g[3])))
    ensures r.Cell? ==> |g| == 4 || |g| == 6
    ensures r.NoCell? <==> 2 <= |g| && |g| != 4 && |g| != 6 && (|g| >= 4 ==> IsDigit(g[2]) && IsDigit(g[3]))
  {
    if |g| < 2 then Raises
    else if |g| >= 4 then
      if !IsDigit(g[2]) || !IsDigit(g[3]) then Raises
      else
        var sq := SquareCell(g[0] as int - 'A' as int, g[1] as int - 'A' as int, DigitValue(g[2]), DigitValue(g[3]));
        if |g| == 4 then Cell(sq)
        else if |g| == 6 then Cell(SubsquareCell(sq, g[4] as int - 'A' as int, g[5] as int - 'A' as int))
        else NoCell
    else NoCell
  }

  /** The 1 by 2 degree square with field offsets f0, f1 and digits d2, d3. */
  function SquareCell(f0: int, f1: int, d2: int, d3: int): (b: Bounds) {
    var lon := (f0 * 20 - 180 + d2 * 2) as real;
    var lat := (f1 * 10 - 90 + d3) as real;
    Bounds(lat, lat + 1.0, lon, lon + 2.0)
  }

  /** The 1/24 by 2/24 degree subsquare s4, s5 of the square `sq`. */
  function SubsquareCell(sq: Bounds, s4: int, s5: int): (b: Bounds) {
    var lon := sq.lonMin + s4 as real * (2.0 / 24.0);
    var lat := sq.latMin + s5 as real * (1.0 / 24.0);
    Bounds(lat, lat + 1.0 / 24.0, lon, lon + 2.0 / 24.0)
  }

  /** A locator `maidenhead_to_bounds` accepts without raising. */
  predicate Decodable(grid: string) {
    !MaidenheadToBounds(grid).Raises?
  }

  lemma ValidGridHasNoSpace(grid: string)
    requires IsValidGrid(grid)
    ensures Strip(Upper(grid)) == Upper(grid)
  {
    var u := Upper(grid);
    assert 'A' <= u[0] <= 'R' && ('0' <= u[|u| - 1] <= '9' || 'A' <= u[|u| - 1] <= 'X') by {
      ValidGridClasses(grid);
    }
    StripUnchanged(u);
  }

  /**
   * Every valid 4-character locator decodes to the 1 by 2 degree cell whose
   * south-west corner is (10 f1 - 90 + d3, 20 f0 - 180 + 2 d2), with f0, f1
   * the field letters' offsets (0-17) and d2, d3 the digits.
   */
  lemma Valid4Cell(grid: string)
    requires IsValidGrid(grid) && |grid| == 4
    ensures 0 <= LetterIndex(grid[0]) < 18 && 0 <= LetterIndex(grid[1]) < 18
    ensures IsDigit(grid[2]) && IsDigit(grid[3])
    ensures MaidenheadToBounds(grid) == Cell(SquareCell(LetterIndex(grid[0]), LetterIndex(grid[1]),
                                                        DigitValue(grid[2]), DigitValue(grid[3])))
  {
    assert IsDigit(grid[2]) && IsDigit(grid[3]) && 0 <= LetterIndex(grid[0]) < 18 && 0 <= LetterIndex(grid[1]) < 18 by {
      ValidGridClasses(grid);
    }
    assert Strip(Upper(grid)) == Upper(grid) by {
      ValidGridHasNoSpace(grid);
    }
    NormalisedDecode(grid);
    SquareDecodes(grid);
  }

  lemma NormalisedDecode(grid: string)
    requires Strip(Upper(grid)) == Upper(grid)
    ensures MaidenheadToBounds(grid) == DecodeNormalised(Upper(grid))
  {
  }

  /** A 4-character locator with digits at 2 and 3 decodes, once upper-cased, to its square. */
  lemma SquareDecodes(grid: string)
    requires |grid| == 4 && IsDigit(grid[2]) && IsDigit(grid[3])
    ensures DecodeNormalised(Upper(grid)) == Cell(SquareCell(LetterIndex(grid[0]), LetterIndex(grid[1]),
                                                             DigitValue(grid[2]), DigitValue(grid[3])))
  {
    var g := Upper(grid);
    assert g[2] == grid[2] && g[3] == grid[3];
  }

  /**
   * Every valid 6-character locator decodes to a 1/24 by 2/24 degree cell
   * that lies inside the cell of its 4-character prefix, which is valid too.
   */
  lemma Valid6Nested(grid: string)
    requires IsValidGrid(grid) && |grid| == 6
    ensures IsValidGrid(grid[..4])
    ensures MaidenheadToBounds(grid).Cell? && MaidenheadToBounds(grid[..4]).Cell?
    ensures var b := MaidenheadToBounds(grid).bounds;
      var p := MaidenheadToBounds(grid[..4]).bounds;
      && b.latMax - b.latMin == 1.0 / 24.0 && b.lonMax - b.lonMin == 2.0 / 24.0
      && p.latMin <= b.latMin && b.latMax <= p.latMax
      && p.lonMin <= b.lonMin && b.lonMax <= p.lonMax
  {
    var prefix := grid[..4];
    assert IsDigit(grid[2]) && IsDigit(grid[3]) && IsSubsquareChar(grid[4]) && IsSubsquareChar(grid[5]) by {
      ValidGridClasses(grid);
    }
    assert IsValidGrid(prefix) by {
      ValidGridClasses(grid);
      ValidGridClasses(prefix);
    }
    assert MaidenheadToBounds(grid) == DecodeNormalised(Upper(grid)) by {
      ValidGridHasNoSpace(grid);
      NormalisedDecode(grid);
    }
    assert MaidenheadToBounds(prefix) == Cell(SquareCell(LetterIndex(grid[0]), LetterIndex(grid[1]),
                                                         DigitValue(grid[2]), DigitValue(grid[3]))) by {
      Valid4Cell(prefix);
      assert prefix[0] == grid[0] && prefix[1] == grid[1] && prefix[2] == grid[2] && prefix[3] == grid[3];
    }
    var g := Upper(grid);
    assert g[2] == grid[2] && g[3] == grid[3];
    SubsquareIndex(grid[4]);
    SubsquareIndex(grid[5]);
    SubsquareNested(g);
  }

  /** A normalised 6-character locator decodes to a subsquare of its square. */
  lemma SubsquareNested(g: string)
    requires |g| == 6 && IsDigit(g[2]) && IsDigit(g[3])
    requires 0 <= g[4] as int - 'A' as int < 24 && 0 <= g[5] as int - 'A' as int < 24
    ensures DecodeNormalised(g).Cell?
    ensures var sq := SquareCell(g[0] as int - 'A' as int, g[1] as int - 'A' as int, DigitValue(g[2]), DigitValue(g[3]));
      var b := DecodeNormalised(g).bounds;
      && b.latMax - b.latMin == 1.0 / 24.0 && b.lonMax - b.lonMin == 2.0 / 24.0
      && sq.latMin <= b.latMin && b.latMax <= sq.latMax
      && sq.lonMin <= b.lonMin && b.lonMax <= sq.lonMax
  {
    var sq := SquareCell(g[0] as int - 'A' as int, g[1] as int - 'A' as int, DigitValue(g[2]), DigitValue(g[3]));
    SubsquareInside(sq, g[4] as int - 'A' as int, g[5] as int - 'A' as int);
  }

  /** Subsquare offsets 0-23 stay inside their 1 by 2 degree square. */
  lemma SubsquareInside(sq: Bounds, s4: int, s5: int)
    requires sq.latMax == sq.latMin + 1.0 && sq.lonMax == sq.lonMin + 2.0
    requires 0 <= s4 < 24 && 0 <= s5 < 24
    ensures var b := SubsquareCell(sq, s4, s5);
      && b.latMax - b.latMin == 1.0 / 24.0 && b.lonMax - b.lonMin == 2.0 / 24.0
      && sq.latMin <= b.latMin && b.latMax <= sq.latMax
      && sq.lonMin <= b.lonMin && b.lonMax <= sq.lonMax
  {
  }

  lemma SubsquareIndex(c: char)
    requires IsSubsquareChar(c)
    ensures 0 <= LetterIndex(c) < 24
  {
  }

  /** The cell of every valid locator is non-empty and lies on the globe. */
  lemma ValidWithinGlobe(grid: string)
    requires IsValidGrid(grid)
    ensures MaidenheadToBounds(grid).Cell?
    ensures var b := MaidenheadToBounds(grid).bounds;
      && -90.0 <= b.latMin < b.latMax <= 90.0
      && -180.0 <= b.lonMin < b.lonMax <= 180.0
  {
    ValidGridClasses(grid);
    ValidGridHasNoSpace(grid);
    if |grid| == 6 {
      SubsquareIndex(grid[4]);
      SubsquareIndex(grid[5]);
    }
  }

  /** Valid locators never make `maidenhead_to_bounds` raise. */
  lemma ValidIsDecodable(grid: string)
    requires IsValidGrid(grid)
    ensures Decodable(grid)
  {
    ValidWithinGlobe(grid);
  }

  /** "FN20" is the square from 40 to 41 degrees north and 76 to 74 degrees west. */
  lemma FN20Example()
    ensures MaidenheadToBounds("FN20") == Cell(Bounds(40.0, 41.0, -76.0, -74.0))
  {
    Valid4Cell("FN20");
    ValidGridClasses("FN20");
  }
}
