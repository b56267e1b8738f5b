/** Slope criterion: the continuous slope raster (degrees) is reclassified
    into three ordinal bands by a range table, 0-5 -> 1, 5-15 -> 2,
    15-61 -> 3. What happens to a value that no range covers is the
    library's missing-values option, a parameter here. */
module Slope {
  import opened RasterAlgebra

  /** Which end points a `[from, to]` pair of the range table covers. The
      script leaves this to the library, so it is a parameter here.
      Ranges are tried in table order and the first that covers the value
      wins, so with `Closed` a shared breakpoint falls in the lower band. */
  datatype Closure =
    | HalfOpen   // from <= v < to
    | Closed     // from <= v <= to

  /** What `Reclassify` writes where no range covers the value. The script
      does not pass the option, so the library default decides. */
  datatype Missing =
    | KeepValue         // the value is kept, written as an integer cell
    | MissingToNoData   // the cell becomes NoData

  /** The library's reading of a range remap, fixed for one run. */
  datatype RemapRule = RemapRule(closure: Closure, missing: Missing)

  /** One `[from, to, band]` row of a range remap table. */
  datatype RemapEntry = RemapEntry(from: real, to: real, band: int)

  /** The slope remap table of the script. */
  const SlopeRemap: seq<RemapEntry> :=
    [RemapEntry(0.0, 5.0, 1), RemapEntry(5.0, 15.0, 2), RemapEntry(15.0, 61.0, 3)]

  predicate InRange(v: real, e: RemapEntry, closure: Closure)
  {
    match closure
    case HalfOpen => e.from <= v < e.to
    case Closed => e.from <= v <= e.to
  }

  /** `table[i]` is the first row of the table that covers `v`. */
  predicate FirstCovering(v: real, table: seq<RemapEntry>, i: int, closure: Closure)
  {
    && 0 <= i < |table|
    && InRange(v, table[i], closure)
    && forall j :: 0 <= j < i ==> !InRange(v, table[j], closure)
  }

  /** Looks a value up in a range table: the band of the first covering row,
      or NoData when no row covers it. */
  function Lookup(v: real, table: seq<RemapEntry>, closure: Closure): (r: Option<int>)
    ensures r.None? <==> forall i :: 0 <= i < |table| ==> !InRange(v, table[i], closure)
    ensures forall i :: FirstCovering(v, table, i, closure) ==> r == Some(table[i].band)
  {
    if table == [] then None
    else if InRange(v, table[0], closure) then Some(table[0].band)
    else
      var r := Lookup(v, table[1..], closure);
      assert forall i :: FirstCovering(v, table, i, closure) ==> i > 0 && FirstCovering(v, table[1..], i - 1, closure);
      r
  }

  /** `Reclassify(slope, "Value", remap)` on one cell: NoData stays NoData;
      a value that no range covers is kept (as its integer part) or becomes
      NoData, as the missing-values rule says. */
  function SlopeBand(cell: Option<real>, rule: RemapRule): (r: Option<int>)
    ensures cell.None? ==> r.None?
    ensures rule.missing == KeepValue ==> (r.Some? <==> cell.Some?)
  {
    match cell
    case None => None
    case Some(v) =>
      var band := Lookup(v, SlopeRemap, rule.closure);
      if band.None? && rule.missing == KeepValue then Some(v.Floor) else band
  }

  /** The bands written out interval by interval, for each reading of the
      range ends: a reference independent of the table lookup. */
  function BandByCases(v: real, closure: Closure): Option<int>
  {
    match closure
    case HalfOpen =>
      if 0.0 <= v < 5.0 then Some(1)
      else if 5.0 <= v < 15.0 then Some(2)
      else if 15.0 <= v < 61.0 then Some(3)
      else None
    case Closed =>
      if 0.0 <= v <= 5.0 then Some(1)
      else if 5.0 < v <= 15.0 then Some(2)
      else if 15.0 < v <= 61.0 then Some(3)
      else None
  }

  /** The slope table lookup agrees with the interval-by-interval reading. */
  lemma SlopeRemapExplicit(v: real, closure: Closure)
    ensures Lookup(v, SlopeRemap, closure) == BandByCases(v, closure)
  {
    var t := SlopeRemap;
    if InRange(v, t[0], closure) {
      assert FirstCovering(v, t, 0, closure);
    } else if InRange(v, t[1], closure) {
      assert FirstCovering(v, t, 1, closure);
    } else if InRange(v, t[2], closure) {
      assert FirstCovering(v, t, 2, closure);
    } else {
      assert forall i :: 0 <= i < |t| ==> !InRange(v, t[i], closure);
    }
  }

  /** Whatever the library does at the breakpoints: values strictly inside a
      range get its band. Values below 0 or above 61 become NoData or keep
      their integer part, which is then never one of the bands 1, 2, 3. */
  lemma SlopeBandInterior(v: real, rule: RemapRule)
    ensures 0.0 < v < 5.0 ==> SlopeBand(Some(v), rule) == Some(1)
    ensures 5.0 < v < 15.0 ==> SlopeBand(Some(v), rule) == Some(2)
    ensures 15.0 < v < 61.0 ==> SlopeBand(Some(v), rule) == Some(3)
    ensures v < 0.0 || v > 61.0 ==>
              SlopeBand(Some(v), rule) == if rule.missing == KeepValue then Some(v.Floor) else None
    ensures v < 0.0 || v > 61.0 ==>
              SlopeBand(Some(v), rule) !in {Some(1), Some(2), Some(3)}
  {
    SlopeRemapExplicit(v, rule.closure);
  }

  /** A result is one of the bands 1, 2, 3, or, when uncovered values are
      kept, an integer below 0 or of at least 61. */
  lemma SlopeBandRange(cell: Option<real>, rule: RemapRule)
    ensures SlopeBand(cell, rule).Some? ==>
              SlopeBand(cell, rule).value in {1, 2, 3} ||
              (rule.missing == KeepValue && (SlopeBand(cell, rule).value < 0 || SlopeBand(cell, rule).value >= 61))
  {
    if cell.Some? {
      SlopeRemapExplicit(cell.value, rule.closure);
    }
  }

  /** Over non-NoData results the reclassified value does not decrease as
      the slope grows. */
  lemma SlopeBandMonotone(v: real, w: real, rule: RemapRule)
    requires v <= w
    requires SlopeBand(Some(v), rule).Some? && SlopeBand(Some(w), rule).Some?
    ensures SlopeBand(Some(v), rule).value <= SlopeBand(Some(w), rule).value
  {
    SlopeRemapExplicit(v, rule.closure);
    SlopeRemapExplicit(w, rule.closure);
  }
}
