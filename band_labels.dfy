/** Canonical band labels read back through the classification. */
module BandLabels {
  import opened Text
  import opened Bands

  /** The canonical label "20m" is a fixed point of `freq_to_band`. */
  lemma TwentyMetresFixed()
    ensures FreqToBand("20m") == "20m"
  {
    TwentyMetresToken();
    TokenLabelFixed("20m");
  }

  /** The canonical label "70cm" is a fixed point of `freq_to_band`. */
  lemma SeventyCentimetresFixed()
    ensures FreqToBand("70cm") == "70cm"
  {
    SeventyCentimetresToken();
    TokenLabelFixed("70cm");
  }

  /** Each table key is the upper-case form of the label it maps to. */
  lemma LabelsUpperToKeys()
    ensures forall k | k in BandMappings :: Upper(BandMappings[k]) == k
  {
  }

  /** A table entry's shape: a leading digit and a trailing metre or millimetre unit. */
  predicate LabelShape(s: string) {
    |s| >= 2 && IsDigit(s[0]) && (s[|s| - 1] == 'm' || s[|s| - 1] == 'M')
  }

  /** Every key and every label of the table has that shape. */
  lemma LabelsShaped()
    ensures forall k | k in BandMappings :: LabelShape(k) && LabelShape(BandMappings[k])
  {
  }

  /** A label whose key is its upper-case form, both with no space to strip, is read back as itself. */
  lemma ShapedLabelFixed(k: string)
    requires k in BandMappings && LabelShape(k) && LabelShape(BandMappings[k])
    requires Upper(BandMappings[k]) == k
    ensures FreqToBand(BandMappings[k]) == BandMappings[k]
  {
    StripUnchanged(k);
    TokenLabelFixed(BandMappings[k]);
  }

  /** Every canonical label of the band-name table is a fixed point of `freq_to_band`. */
  lemma AllLabelsFixed()
    ensures forall k | k in BandMappings :: FreqToBand(BandMappings[k]) == BandMappings[k]
  {
    LabelsUpperToKeys();
    LabelsShaped();
    forall k | k in BandMappings
      ensures FreqToBand(BandMappings[k]) == BandMappings[k]
    {
      ShapedLabelFixed(k);
    }
  }
}
