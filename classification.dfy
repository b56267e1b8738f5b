/** The whole classification of the script: the five input rasters (slope
    and the four rasterized vector layers, all on one grid) go through the
    criterion flags and the priority overlay into the final class raster. */
module Classification {
  import opened RasterAlgebra
  import opened Grids
  import Slope
  import Criteria
  import Overlay

  /** The library behaviour the script depends on but does not fix. */
  datatype Config = Config(remap: Slope.RemapRule, sem: Semantics)

  /** One cell of each input raster: the slope in degrees, the groundwater
      code, the rasterized `klasa_num`, and the forest and built-up
      identifiers (any value means a polygon covers the cell). */
  datatype Cell = Cell(slope: Option<real>, groundwater: Option<int>, soil: Option<int>,
                       forest: Option<int>, builtUp: Option<int>)

  /** The four criterion flags of a cell. */
  function CellFlags(c: Cell, cfg: Config): Overlay.Flags
  {
    var band := Slope.SlopeBand(c.slope, cfg.remap);
    Overlay.Flags(
      Criteria.BuiltUpFlag(c.builtUp, cfg.sem.con),
      Criteria.ForestFlag(Criteria.ForestPresence(c.forest, cfg.sem.con), band, cfg.sem),
      Criteria.SoilFlag(c.soil, cfg.sem.con),
      Criteria.GroundwaterFlag(c.groundwater, cfg.sem))
  }

  /** The final class of one cell. */
  function ClassifyCell(c: Cell, cfg: Config): (r: Option<int>)
    ensures r.Some? ==> 0 <= r.value <= 4
    ensures cfg.sem.con == ElseBranch ==> r.Some?
  {
    Overlay.Classify(CellFlags(c, cfg), cfg.sem.con)
  }

  /** A cell with a built-up polygon is class 4, whatever else lies there,
      and no other cell is. */
  lemma BuiltUpCell(c: Cell, cfg: Config)
    ensures ClassifyCell(c, cfg) == Some(4) <==> c.builtUp.Some?
  {
  }

  /** Off built-up land, where the slope band is known, a cell is class 1
      exactly when a forest polygon covers it or its slope is steep. */
  lemma ForestCell(c: Cell, cfg: Config)
    requires c.builtUp.None?
    requires Slope.SlopeBand(c.slope, cfg.remap).Some?
    ensures ClassifyCell(c, cfg) == Some(1) <==>
              c.forest.Some? || Slope.SlopeBand(c.slope, cfg.remap) == Some(3)
  {
  }

  /** Off built-up and forest land with a known, not steep, slope band, a
      cell is class 2 exactly when its soil is high-quality (`klasa_num` 1). */
  lemma AgriculturalCell(c: Cell, cfg: Config)
    requires c.builtUp.None? && c.forest.None?
    requires Slope.SlopeBand(c.slope, cfg.remap).Some?
    requires Slope.SlopeBand(c.slope, cfg.remap) != Some(3)
    ensures ClassifyCell(c, cfg) == Some(2) <==> c.soil == Some(1)
  {
  }

  /** Where nothing of higher priority claims the cell, it is class 3
      exactly when its groundwater code is known and is neither 1 nor 2. */
  lemma DevelopableCell(c: Cell, cfg: Config)
    requires c.builtUp.None? && c.forest.None? && c.soil != Some(1)
    requires Slope.SlopeBand(c.slope, cfg.remap).Some?
    requires Slope.SlopeBand(c.slope, cfg.remap) != Some(3)
    requires c.groundwater.Some?
    ensures ClassifyCell(c, cfg) == Some(3) <==> c.groundwater.value != 1 && c.groundwater.value != 2
    ensures ClassifyCell(c, cfg) == Some(0) <==> c.groundwater.value == 1 || c.groundwater.value == 2
  {
  }

  /** Worked cells: forest and built-up together give 4; a 20-degree slope
      without forest or buildings gives 1; groundwater code 3 alone on gentle
      land gives 3; high-quality soil gives 2 even where the groundwater
      code is 1. */
  lemma Scenarios(cfg: Config, forestId: int, builtId: int, gentle: real)
    requires 0.0 < gentle < 5.0
    ensures ClassifyCell(Cell(Some(gentle), None, None, Some(forestId), Some(builtId)), cfg) == Some(4)
    ensures ClassifyCell(Cell(Some(20.0), None, None, None, None), cfg) == Some(1)
    ensures ClassifyCell(Cell(Some(gentle), Some(3), None, None, None), cfg) == Some(3)
    ensures ClassifyCell(Cell(Some(gentle), Some(1), Some(1), None, None), cfg) == Some(2)
  {
    Slope.SlopeBandInterior(20.0, cfg.remap);
    Slope.SlopeBandInterior(gentle, cfg.remap);
    DevelopableCell(Cell(Some(gentle), Some(3), None, None, None), cfg);
    AgriculturalCell(Cell(Some(gentle), Some(1), Some(1), None, None), cfg);
  }

  /** A forested cell on a 70-degree slope, with nothing else there. Where
      uncovered slopes keep their value, the forest decides and the cell is
      class 1. Where they become NoData, a strict `|` makes the forest flag
      NoData or 0, and the cell falls to the groundwater criterion. */
  lemma SteepForestedCell(cfg: Config, forestId: int)
    ensures cfg.remap.missing == Slope.KeepValue ==>
              ClassifyCell(Cell(Some(70.0), None, None, Some(forestId), None), cfg) == Some(1)
    ensures cfg.remap.missing == Slope.MissingToNoData && cfg.sem == Semantics(ElseBranch, StrictOr) ==>
              ClassifyCell(Cell(Some(70.0), None, None, Some(forestId), None), cfg) == Some(3)
    ensures cfg.remap.missing == Slope.MissingToNoData && cfg.sem.con == NoDataOut && cfg.sem.orRule == StrictOr ==>
              ClassifyCell(Cell(Some(70.0), None, None, Some(forestId), None), cfg).None?
  {
    Slope.SlopeBandInterior(70.0, cfg.remap);
  }

  /** The input rasters of one run, all on the same grid. */
  datatype Layers = Layers(slope: Grid<real>, groundwater: Grid<int>, soil: Grid<int>,
                           forest: Grid<int>, builtUp: Grid<int>)

  predicate Aligned(l: Layers)
  {
    && SameShape(l.slope, l.groundwater) && SameShape(l.slope, l.soil)
    && SameShape(l.slope, l.forest) && SameShape(l.slope, l.builtUp)
  }

  /** The input cells at one grid position. */
  function CellAt(l: Layers, i: int, j: int): Cell
    requires Aligned(l)
    requires 0 <= i < |l.slope| && 0 <= j < |l.slope[i]|
  {
    Cell(l.slope[i][j], l.groundwater[i][j], l.soil[i][j], l.forest[i][j], l.builtUp[i][j])
  }

  /** The four saved flag rasters of a run. */
  datatype FlagRasters = FlagRasters(builtUp: Grid<int>, forest: Grid<int>, agricultural: Grid<int>,
                                     developable: Grid<int>)

  /** The criterion rasters, each computed over the whole grid from its input. */
  function CriterionRasters(l: Layers, cfg: Config): FlagRasters
    requires Aligned(l)
  {
    var bands := Map(l.slope, (c: Option<real>) => Slope.SlopeBand(c, cfg.remap));
    var presence := Map(l.forest, (c: Option<int>) => Criteria.ForestPresence(c, cfg.sem.con));
    FlagRasters(
      Map(l.builtUp, (c: Option<int>) => Criteria.BuiltUpFlag(c, cfg.sem.con)),
      Zip(presence, bands, (p: Option<int>, b: Option<int>) => Criteria.ForestFlag(p, b, cfg.sem)),
      Map(l.soil, (c: Option<int>) => Criteria.SoilFlag(c, cfg.sem.con)),
      Map(l.groundwater, (c: Option<int>) => Criteria.GroundwaterFlag(c, cfg.sem)))
  }

  /** The overlay of four flag rasters of the same shape. */
  function OverlayRasters(fr: FlagRasters, con: NullCondition): (g: Grid<int>)
    requires SameShape(fr.builtUp, fr.forest) && SameShape(fr.builtUp, fr.agricultural)
    requires SameShape(fr.builtUp, fr.developable)
  {
    var b := fr.builtUp;
    seq(|b|, i requires 0 <= i < |b| => seq(|b[i]|, j requires 0 <= j < |b[i]| =>
      Overlay.Classify(Overlay.Flags(b[i][j], fr.forest[i][j], fr.agricultural[i][j], fr.developable[i][j]), con)))
  }

  /** The final classification raster of a run. */
  function FinalClassification(l: Layers, cfg: Config): Grid<int>
    requires Aligned(l)
  {
    var fr := CriterionRasters(l, cfg);
    OverlayRasters(fr, cfg.sem.con)
  }

  /** The raster computation is the per-cell classification at every cell:
      the result has the inputs' shape, and no cell depends on another. */
  lemma FinalClassificationCellwise(l: Layers, cfg: Config)
    requires Aligned(l)
    ensures SameShape(l.slope, FinalClassification(l, cfg))
    ensures forall i, j :: 0 <= i < |l.slope| && 0 <= j < |l.slope[i]| ==>
              FinalClassification(l, cfg)[i][j] == ClassifyCell(CellAt(l, i, j), cfg)
  {
    var fr := CriterionRasters(l, cfg);
    assert SameShape(fr.builtUp, fr.forest) && SameShape(fr.builtUp, fr.agricultural);
    assert SameShape(fr.builtUp, fr.developable);
    var g := FinalClassification(l, cfg);
    forall i, j | 0 <= i < |l.slope| && 0 <= j < |l.slope[i]|
      ensures g[i][j] == ClassifyCell(CellAt(l, i, j), cfg)
    {
      assert fr.builtUp[i][j] == CellFlags(CellAt(l, i, j), cfg).builtUp;
      assert fr.forest[i][j] == CellFlags(CellAt(l, i, j), cfg).forest;
    }
  }

  /** Every cell of the final raster is one of the classes 0 to 4 or NoData,
      and with NoData conditions taken as false it is never NoData. */
  lemma FinalClassificationClasses(l: Layers, cfg: Config, i: int, j: int)
    requires Aligned(l)
    requires 0 <= i < |l.slope| && 0 <= j < |l.slope[i]|
    ensures FinalClassification(l, cfg)[i][j].Some? ==> 0 <= FinalClassification(l, cfg)[i][j].value <= 4
    ensures cfg.sem.con == ElseBranch ==> FinalClassification(l, cfg)[i][j].Some?
  {
    FinalClassificationCellwise(l, cfg);
  }
}
