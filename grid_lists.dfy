/**
 * The `defaultdict(list)` of locators per band that both log scanners
 * fill: appending to a band's list creates it, so every list present has
 * had something appended.
 */
module GridLists {
  import opened Text
  import opened Grid

  /** Appending `gs` to the list of `band`; the list is created by the first append only. */
  function AddGrids(m: map<string, seq<string>>, band: string, gs: seq<string>): map<string, seq<string>> {
    if gs == [] then m else m[band := (if band in m then m[band] else []) + gs]
  }

  lemma AddGridsAppend(m: map<string, seq<string>>, band: string, gs: seq<string>, more: seq<string>)
    ensures AddGrids(m, band, gs + more) == AddGrids(AddGrids(m, band, gs), band, more)
  {
    if gs == [] {
      assert gs + more == more;
    } else if more == [] {
      assert gs + more == gs;
    } else {
      var list := if band in m then m[band] else [];
      assert list + (gs + more) == (list + gs) + more;
    }
  }

  /** Every list is non-empty and holds upper-case valid locators only. */
  ghost predicate ValidLists(m: map<string, seq<string>>) {
    forall band :: band in m ==> m[band] != [] && forall g :: g in m[band] ==> IsValidGrid(g) && Upper(g) == g
  }

  lemma AddGridsKeepsValid(m: map<string, seq<string>>, band: string, gs: seq<string>)
    requires ValidLists(m)
    requires forall g :: g in gs ==> IsValidGrid(g) && Upper(g) == g
    ensures ValidLists(AddGrids(m, band, gs))
  {
  }
}
