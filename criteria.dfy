/** The per-cell criterion flags. Each is the script's `Con`/`IsNull`
    expression on one cell of its (already rasterized) input layer, and
    yields 0 or 1, or NoData where the library's NoData rules say so. */
module Criteria {
  import opened RasterAlgebra

  /** Groundwater: a cell whose groundwater-level code is 1 or 2 (high water
      table) is not developable (0); any other code is developable (1). */
  function GroundwaterFlag(code: Option<int>, sem: Semantics): (r: Option<int>)
    ensures code.Some? ==> r == Some(if code.value == 1 || code.value == 2 then 0 else 1)
    ensures code.None? && sem.con == ElseBranch ==> r == Some(1)
    ensures code.None? && sem.con == NoDataOut ==> r.None?
  {
    Con(Or(Equals(code, 1), Equals(code, 2), sem.orRule), Some(0), Some(1), sem.con)
  }

  /** The soil category that counts as high-quality agricultural soil. */
  const HighQualitySoil: string := "Gleby Wysokiej Jakosci"

  /** The derived `klasa_num` of a soil record: 1 for exactly the
      high-quality category, 2 for every other category and for a null one. */
  function KlasaNum(klasa: Option<string>): (n: int)
    ensures n == 1 || n == 2
    ensures n == 1 <==> klasa == Some(HighQualitySoil)
  {
    if klasa == Some(HighQualitySoil) then 1 else 2
  }

  /** Fills NoData soil cells with 2 (soil that is not protected). */
  function FillSoil(cell: Option<int>, con: NullCondition): (r: Option<int>)
    ensures cell.Some? ==> r == cell
    ensures cell.None? ==> r == Some(2)
  {
    Con(Some(IsNull(cell)), Some(2), cell, con)
  }

  /** Agricultural flag: 1 exactly where the filled soil value is 1; never NoData. */
  function SoilFlag(cell: Option<int>, con: NullCondition): (r: Option<int>)
    ensures r.Some? && (r.value == 0 || r.value == 1)
    ensures r == Some(1) <==> FillSoil(cell, con) == Some(1)
    ensures r == Some(1) <==> cell == Some(1)
  {
    Con(Equals(FillSoil(cell, con), 1), Some(1), Some(0), con)
  }

  /** Forest presence: 1 where the rasterized forest layer has any value, else 0. */
  function ForestPresence(cell: Option<int>, con: NullCondition): (r: Option<int>)
    ensures r == Some(1) <==> cell.Some?
    ensures r == Some(0) <==> cell.None?
  {
    Con(Some(IsNull(cell)), Some(0), Some(1), con)
  }

  /** Forest criterion: forest present, or steep slope (band 3). */
  function ForestFlag(presence: Option<int>, band: Option<int>, sem: Semantics): (r: Option<int>)
    ensures presence.Some? && band.Some? ==>
              r == Some(if presence.value == 1 || band.value == 3 then 1 else 0)
    ensures r.Some? ==> r.value == 0 || r.value == 1
    ensures r == Some(1) ==> presence == Some(1) || band == Some(3)
    ensures r == Some(0) && (sem.con == NoDataOut || sem.orRule == KleeneOr) ==>
              presence != Some(1) && band != Some(3)
  {
    Con(Or(Equals(presence, 1), Equals(band, 3), sem.orRule), Some(1), Some(0), sem.con)
  }

  /** Built-up: 1 where the rasterized built-up layer has any value, else 0. */
  function BuiltUpFlag(cell: Option<int>, con: NullCondition): (r: Option<int>)
    ensures r.Some? && (r.value == 0 || r.value == 1)
    ensures r.value == 1 <==> cell.Some?
  {
    Con(Some(IsNull(cell)), Some(0), Some(1), con)
  }

  /** The forest criterion on the raw forest cell: 1 iff the cell is covered
      by a forest polygon or the slope band is 3, wherever the band is known. */
  lemma ForestCriterion(forest: Option<int>, band: Option<int>, sem: Semantics)
    requires band.Some?
    ensures ForestFlag(ForestPresence(forest, sem.con), band, sem) ==
              Some(if forest.Some? || band.value == 3 then 1 else 0)
  {
  }
}
