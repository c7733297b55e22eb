/**
 * Band classification: a frequency as written in a log (an integer, read
 * as kHz for the HF-to-UHF allocations, with larger numbers reaching the
 * microwave ranges, and a few bare MHz values) or a band token is mapped
 * to the Cabrillo band label.
 */
module Bands {
  import opened Wrappers
  import opened Text

  /** `freq_to_band`: integers through the band plan, anything else through the token table. */
  function FreqToBand(freqStr: string): (band: string) {
    match ParseInt(freqStr)
    case Some(freq) => NumericBand(freq)
    case None => TokenBand(freqStr)
  }

  /** The `int()` branch of `freq_to_band`, the if-chain in its own order. */
  function NumericBand(freq: int): (band: string) {
    if 472 <= freq <= 479 then "630m"
    else if 1800 <= freq <= 2000 then "160m"
    else if 3500 <= freq <= 4000 then "80m"
    else if 5330 <= freq <= 5405 then "60m"
    else if 7000 <= freq <= 7300 then "40m"
    else if 10100 <= freq <= 10150 then "30m"
    else if 14000 <= freq <= 14350 then "20m"
    else if 18068 <= freq <= 18168 then "17m"
    else if 21000 <= freq <= 21450 then "15m"
    else if 24890 <= freq <= 24990 then "12m"
    else if 28000 <= freq <= 29700 then "10m"
    else if freq == 50 || 50000 <= freq <= 54000 then "6m"
    else if freq == 144 || 144000 <= freq <= 148000 then "2m"
    else if freq == 222 || 222000 <= freq <= 225000 then "1.25m"
    else if freq == 432 || 420000 <= freq <= 450000 then "70cm"
    else if freq in [902, 903] || 902000 <= freq <= 928000 then "33cm"
    else if freq == 1296 || 1240000 <= freq <= 1300000 then "23cm"
    else if 2300000 <= freq <= 2450000 then "13cm"
    else if 3300000 <= freq <= 3500000 then "9cm"
    else if 5650000 <= freq <= 5925000 then "6cm"
    else if 10000000 <= freq <= 10500000 then "3cm"
    else if 24000000 <= freq <= 24250000 then "1.25cm"
    else if 47000000 <= freq <= 47200000 then "6mm"
    else if 75500000 <= freq <= 81000000 then "4mm"
    else if 119980000 <= freq <= 120020000 then "2.5mm"
    else if 142000000 <= freq <= 149000000 then "2mm"
    else if 241000000 <= freq <= 250000000 then "1mm"
    else if freq < 1000 then MhzBlock(freq)
    else IntToString(freq) + "kHz"
  }

  /**
   * The nested "frequency in MHz" tests, as written. Every comparison but
   * the last fallback is against a value that the outer chain has already
   * claimed or that is not below 1000.
   */
  function MhzBlock(freq: int): (band: string) {
    if freq == 472 then "630m"
    else if freq == 1800 || freq == 1900 then "160m"
    else if freq == 3500 || freq == 3700 || freq == 3800 then "80m"
    else if freq == 5300 then "60m"
    else if freq == 7000 || freq == 7100 || freq == 7200 then "40m"
    else if freq == 10100 then "30m"
    else if freq == 14000 || freq == 14100 || freq == 14200 then "20m"
    else if freq == 18100 then "17m"
    else if freq == 21000 || freq == 21100 || freq == 21200 then "15m"
    else if freq == 24900 then "12m"
    else if freq == 28000 || freq == 28100 || freq == 28200 then "10m"
    else if freq == 50 then "6m"
    else if freq == 144 then "2m"
    else if freq == 222 then "1.25m"
    else if freq == 432 then "70cm"
    else if freq in [902, 903] then "33cm"
    else IntToString(freq) + "MHz"
  }

  /** The `ValueError` branch: upper-case, strip, then the band-name table. */
  function TokenBand(freqStr: string): (band: string) {
    var t := Strip(Upper(freqStr));
    if t in BandMappings then BandMappings[t] else t
  }

  const BandMappings: map<string, string> := map[
    "630M" := "630m", "160M" := "160m", "80M" := "80m", "60M" := "60m",
    "40M" := "40m", "30M" := "30m", "20M" := "20m", "17M" := "17m",
    "15M" := "15m", "12M" := "12m", "10M" := "10m", "6M" := "6m",
    "2M" := "2m", "1.25M" := "1.25m", "70CM" := "70cm", "33CM" := "33cm",
    "23CM" := "23cm", "13CM" := "13cm", "9CM" := "9cm", "6CM" := "6cm",
    "3CM" := "3cm", "1.25CM" := "1.25cm", "6MM" := "6mm", "4MM" := "4mm",
    "2.5MM" := "2.5mm", "2MM" := "2mm", "1MM" := "1mm"
  ]

  /** One allocation of the band plan: an inclusive range and bare values. */
  datatype Allocation = Allocation(name: string, lo: int, hi: int, bare: seq<int>)

  /** The band plan the chain implements, as data. */
  const BandPlan: seq<Allocation> := [
    Allocation("630m", 472, 479, []),
    Allocation("160m", 1800, 2000, []),
    Allocation("80m", 3500, 4000, []),
    Allocation("60m", 5330, 5405, []),
    Allocation("40m", 7000, 7300, []),
    Allocation("30m", 10100, 10150, []),
    Allocation("20m", 14000, 14350, []),
    Allocation("17m", 18068, 18168, []),
    Allocation("15m", 21000, 21450, []),
    Allocation("12m", 24890, 24990, []),
    Allocation("10m", 28000, 29700, []),
    Allocation("6m", 50000, 54000, [50]),
    Allocation("2m", 144000, 148000, [144]),
    Allocation("1.25m", 222000, 225000, [222]),
    Allocation("70cm", 420000, 450000, [432]),
    Allocation("33cm", 902000, 928000, [902, 903]),
    Allocation("23cm", 1240000, 1300000, [1296]),
    Allocation("13cm", 2300000, 2450000, []),
    Allocation("9cm", 3300000, 3500000, []),
    Allocation("6cm", 5650000, 5925000, []),
    Allocation("3cm", 10000000, 10500000, []),
    Allocation("1.25cm", 24000000, 24250000, []),
    Allocation("6mm", 47000000, 47200000, []),
    Allocation("4mm", 75500000, 81000000, []),
    Allocation("2.5mm", 119980000, 120020000, []),
    Allocation("2mm", 142000000, 149000000, []),
    Allocation("1mm", 241000000, 250000000, [])
  ]

  predicate InAllocation(a: Allocation, freq: int) {
    a.lo <= freq <= a.hi || freq in a.bare
  }

  /** A frequency in an allocation of the plan gets that allocation's name. */
  lemma NumericBandInPlan(freq: int, i: nat)
    requires i < |BandPlan| && InAllocation(BandPlan[i], freq)
    ensures NumericBand(freq) == BandPlan[i].name
  {
    if i < 9 {
      InLowerPlan(freq, i);
    } else if i < 18 {
      InMiddlePlan(freq, i);
    } else {
      InUpperPlan(freq, i);
    }
  }

  /** Allocations 630m to 15m. */
  lemma InLowerPlan(freq: int, i: nat)
    requires 0 <= i < 9 && InAllocation(BandPlan[i], freq)
    ensures NumericBand(freq) == BandPlan[i].name
  {
  }

  /** Allocations 12m to 13cm. */
  lemma InMiddlePlan(freq: int, i: nat)
    requires 9 <= i < 18 && InAllocation(BandPlan[i], freq)
    ensures NumericBand(freq) == BandPlan[i].name
  {
  }

  /** Allocations 9cm to 1mm. */
  lemma InUpperPlan(freq: int, i: nat)
    requires 18 <= i < 27 && InAllocation(BandPlan[i], freq)
    ensures NumericBand(freq) == BandPlan[i].name
  {
  }

  /**
   * A frequency in no allocation gets a synthesised label: "{n}MHz" below
   * 1000 (the nested MHz tests can never fire) and "{n}kHz" from 1000 up.
   */
  lemma NumericBandOutsidePlan(freq: int)
    requires forall i :: 0 <= i < |BandPlan| ==> !InAllocation(BandPlan[i], freq)
    ensures NumericBand(freq) == IntToString(freq) + (if freq < 1000 then "MHz" else "kHz")
  {
    OutsideLowerPlan(freq);
    OutsideMiddlePlan(freq);
    OutsideUpperPlan(freq);
  }

  /** Outside the plan means outside each range and off each bare value, in three parts. */
  lemma OutsideLowerPlan(freq: int)
    requires forall i :: 0 <= i < |BandPlan| ==> !InAllocation(BandPlan[i], freq)
    ensures !(472 <= freq <= 479)
    ensures !(1800 <= freq <= 2000)
    ensures !(3500 <= freq <= 4000)
    ensures !(5330 <= freq <= 5405)
    ensures !(7000 <= freq <= 7300)
    ensures !(10100 <= freq <= 10150)
    ensures !(14000 <= freq <= 14350)
    ensures !(18068 <= freq <= 18168)
    ensures !(21000 <= freq <= 21450)
  {
    assert !InAllocation(BandPlan[0], freq);
    assert !InAllocation(BandPlan[1], freq);
    assert !InAllocation(BandPlan[2], freq);
    assert !InAllocation(BandPlan[3], freq);
    assert !InAllocation(BandPlan[4], freq);
    assert !InAllocation(BandPlan[5], freq);
    assert !InAllocation(BandPlan[6], freq);
    assert !InAllocation(BandPlan[7], freq);
    assert !InAllocation(BandPlan[8], freq);
  }

  lemma OutsideMiddlePlan(freq: int)
    requires forall i :: 0 <= i < |BandPlan| ==> !InAllocation(BandPlan[i], freq)
    ensures !(24890 <= freq <= 24990)
    ensures !(28000 <= freq <= 29700)
    ensures !(50000 <= freq <= 54000) && freq != 50
    ensures !(144000 <= freq <= 148000) && freq != 144
    ensures !(222000 <= freq <= 225000) && freq != 222
    ensures !(420000 <= freq <= 450000) && freq != 432
    ensures !(902000 <= freq <= 928000) && freq != 902 && freq != 903
    ensures !(1240000 <= freq <= 1300000) && freq != 1296
    ensures !(2300000 <= freq <= 2450000)
  {
    assert !InAllocation(BandPlan[9], freq);
    assert !InAllocation(BandPlan[10], freq);
    assert !InAllocation(BandPlan[11], freq);
    assert !InAllocation(BandPlan[12], freq);
    assert !InAllocation(BandPlan[13], freq);
    assert !InAllocation(BandPlan[14], freq);
    assert !InAllocation(BandPlan[15], freq);
    assert !InAllocation(BandPlan[16], freq);
    assert !InAllocation(BandPlan[17], freq);
  }

  lemma OutsideUpperPlan(freq: int)
    requires forall i :: 0 <= i < |BandPlan| ==> !InAllocation(BandPlan[i], freq)
    ensures !(3300000 <= freq <= 3500000)
    ensures !(5650000 <= freq <= 5925000)
    ensures !(10000000 <= freq <= 10500000)
    ensures !(24000000 <= freq <= 24250000)
    ensures !(47000000 <= freq <= 47200000)
    ensures !(75500000 <= freq <= 81000000)
    ensures !(119980000 <= freq <= 120020000)
    ensures !(142000000 <= freq <= 149000000)
    ensures !(241000000 <= freq <= 250000000)
  {
    assert !InAllocation(BandPlan[18], freq);
    assert !InAllocation(BandPlan[19], freq);
    assert !InAllocation(BandPlan[20], freq);
    assert !InAllocation(BandPlan[21], freq);
    assert !InAllocation(BandPlan[22], freq);
    assert !InAllocation(BandPlan[23], freq);
    assert !InAllocation(BandPlan[24], freq);
    assert !InAllocation(BandPlan[25], freq);
    assert !InAllocation(BandPlan[26], freq);
  }

  /** FT8 on 20 m, CW on 40 m, the bare 6 m value and the 2 m calling frequency. */
  lemma NumericBandExamples()
    ensures NumericBand(14070) == "20m" && NumericBand(7030) == "40m"
    ensures NumericBand(50) == "6m" && NumericBand(146520) == "2m"
  {
  }

  /** The nested MHz tests add nothing: below 1000 and outside the plan, the block yields "{n}MHz". */
  lemma MhzBlockIsDead(freq: int)
    requires freq < 1000
    requires !(472 <= freq <= 479) && freq !in [50, 144, 222, 432, 902, 903]
    ensures MhzBlock(freq) == IntToString(freq) + "MHz"
  {
  }

  /** Below 1000 and outside the plan, the chain falls through to the MHz block. */
  lemma ChainReachesMhzBlock(freq: int)
    requires freq < 1000
    requires !(472 <= freq <= 479) && freq !in [50, 144, 222, 432, 902, 903]
    ensures NumericBand(freq) == MhzBlock(freq)
  {
    assert freq != 50 && freq != 144 && freq != 222 && freq != 432 && freq != 902 && freq != 903;
  }

  /** An integer written in decimal is classified by the plan, like the integer itself. */
  lemma FreqToBandOfInt(freq: int)
    ensures FreqToBand(IntToString(freq)) == NumericBand(freq)
  {
    ParseIntToString(freq);
  }

  /** A string that does not end in a digit and has no surrounding space is no integer. */
  lemma ParseIntRejects(s: string)
    requires s != [] && !IsSpace(s[0]) && !IsSpace(s[|s| - 1]) && !IsDigit(s[|s| - 1])
    ensures ParseInt(s) == None
  {
    StripUnchanged(s);
  }

  /** A band token is classified by its upper-cased, stripped form: normalising first changes nothing. */
  lemma TokenBandNormalised(s: string)
    ensures TokenBand(Strip(Upper(s))) == TokenBand(s)
  {
    var t := Strip(Upper(s));
    UpperIdempotent(s);
    StripKeepsUpper(Upper(s));
    StripIdempotent(Upper(s));
    assert Strip(Upper(t)) == t;
  }

  /** Band tokens are case-insensitive. */
  lemma TokenBandCaseInsensitive(s: string)
    ensures TokenBand(Lower(s)) == TokenBand(s)
    ensures TokenBand(Upper(s)) == TokenBand(s)
  {
    UpperOfLower(s);
    UpperIdempotent(s);
  }

  /** "20m" is its own table entry. */
  lemma TwentyMetresToken()
    ensures TokenBand("20m") == "20m"
  {
    assert Upper("20m") == "20M" by { var u := Upper("20m"); assert u[0] == '2' && u[1] == '0' && u[2] == 'M'; }
    StripUnchanged("20M");
  }

  /** "70cm" is its own table entry. */
  lemma SeventyCentimetresToken()
    ensures TokenBand("70cm") == "70cm"
  {
    assert Upper("70cm") == "70CM" by { var u := Upper("70cm"); assert u[0] == '7' && u[1] == '0' && u[2] == 'C' && u[3] == 'M'; }
    StripUnchanged("70CM");
  }

  /**
   * A token that the table maps to itself, and that cannot be read as an
   * integer, is a fixed point of the whole classification.
   */
  lemma TokenLabelFixed(name: string)
    requires name != [] && !IsSpace(name[0]) && !IsSpace(name[|name| - 1]) && !IsDigit(name[|name| - 1])
    requires TokenBand(name) == name
    ensures FreqToBand(name) == name
  {
    ParseIntRejects(name);
  }
}
