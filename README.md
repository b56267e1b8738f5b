# Land-suitability classification: a Dafny model

`Projekt.py` is a batch geoprocessing script. It reads five layers: a slope
raster, and vector layers for groundwater level, soil quality, forest cover and
built-up area. It turns each layer into a criterion raster, combines the four
criterion flags into one class per cell by a fixed priority order (4 built-up,
1 forest, 2 agricultural, 3 developable, 0 unclassified), and then writes a
description text into every row of the result's attribute table.

This project models that decision procedure cell by cell, and states and
proves what it does:

- `RasterAlgebra`: one raster cell (`Option`, where `None` is NoData) and the
  library operators the script uses (`==`, `|`, `IsNull`, `Con`).
- `Slope`: the `RemapRange` table and `Reclassify` on one cell.
- `Criteria`: the groundwater, soil (`klasa_num`, NoData fill, flag), forest
  and built-up flags.
- `SoilTable`: the field calculation that writes `klasa_num` into every soil
  record. It is an array method proved against a function on sequences.
- `Overlay`: the nested `Con` priority overlay. It is proved equal to a
  reference definition: the class of the first criterion, in priority order,
  whose flag is 1.
- `Annotation`: the cursor loop over the attribute table. It is an array
  method proved against a function on sequences.
- `Grids` and `Classification`: the rasters as grids of cells, the whole run
  from input cells to the final class, and worked example cells.

Three pieces of library behaviour are not fixed by the script. The model makes
them parameters and never asserts them:

- `Slope.Closure`: which ends of each `RemapRange` pair a range covers.
  - `HalfOpen` reads the ranges as 0 <= v < 5, 5 <= v < 15, 15 <= v < 61.
  - `Closed` covers both ends, and the first matching range wins, so a shared
    breakpoint falls in the lower band.
- `Slope.Missing`: what `Reclassify` writes for a slope that no range covers
  (below 0, above 61, and 61 itself under `HalfOpen`). The script does not
  pass the missing-values option, so the library default decides.
  - `KeepValue` keeps the value, written as its integer part. This is the
    library's documented default; the only thing the model uses about the
    integer part is that it is never 1, 2 or 3.
  - `MissingToNoData` turns the cell into NoData.
- `RasterAlgebra.Semantics`: what happens where a condition or an operand is
  NoData.
  - `Con` with a NoData condition takes its else branch (`ElseBranch`) or gives
    NoData (`NoDataOut`).
  - `|` with a NoData operand gives NoData (`StrictOr`), or gives true when the
    other operand is true (`KleeneOr`).

Every property below holds for all values of these parameters unless its
statement names one. Three examples: a NoData groundwater cell is developable
(1) exactly under `ElseBranch`. Under `StrictOr` with `ElseBranch`, a forest
cell whose slope band is NoData gets forest flag 0. So a forested 70-degree
cell with nothing else is class 1 under `KeepValue`, but class 3 under
`MissingToNoData` with `ElseBranch` and `StrictOr` (`Classification.SteepForestedCell`).

## Model

| member | source | states |
|---|---|---|
| `Slope.Lookup` | Projekt.py:36-39 | a range-table lookup gives NoData exactly when no range covers the value, and otherwise gives the band of the first range that covers it |
| `Slope.SlopeBand` | Projekt.py:39 | reclassifying a NoData slope cell gives NoData; when uncovered values are kept, a known slope is never NoData |
| `Slope.SlopeRemapExplicit` | Projekt.py:36-38 | the table lookup equals the interval-by-interval reading of 0-5 -> 1, 5-15 -> 2, 15-61 -> 3, for each reading of the range ends |
| `Slope.SlopeBandInterior` | Projekt.py:32-39 | for every library reading: slopes strictly inside (0,5), (5,15) and (15,61) get bands 1, 2 and 3; slopes below 0 or above 61 keep their integer part or become NoData, per the missing-values rule, and never get a band 1 to 3 |
| `Slope.SlopeBandRange` | Projekt.py:36-39 | every known result is a band 1, 2 or 3, or, when uncovered values are kept, an integer below 0 or of at least 61 |
| `Slope.SlopeBandMonotone` | Projekt.py:36-39 | over known results the reclassified value does not decrease as the slope grows, for every library reading |
| `Criteria.GroundwaterFlag` | Projekt.py:51-53 | a known code of 1 or 2 gives 0 and any other known code gives 1; a NoData code gives 1 under `ElseBranch` and NoData under `NoDataOut` |
| `Criteria.KlasaNum` | Projekt.py:59-62 | `klasa_num` is 1 or 2, and it is 1 exactly when `klasa` is the string `Gleby Wysokiej Jakosci` |
| `Criteria.FillSoil` | Projekt.py:70-71 | the fill leaves known soil cells unchanged and turns NoData into 2 |
| `Criteria.SoilFlag` | Projekt.py:72-73 | the agricultural flag is never NoData, is 0 or 1, and is 1 exactly when the filled value is 1, that is, when the soil cell is 1 |
| `Criteria.ForestPresence` | Projekt.py:83-84 | presence is 1 exactly when the forest cell has any value, and 0 exactly when it is NoData |
| `Criteria.ForestFlag` | Projekt.py:85-86 | with both inputs known the flag is 1 iff presence is 1 or the band is 3, else 0; a 1 always has one of those causes; a 0 rules both out unless NoData conditions take the else branch under `StrictOr` |
| `Criteria.ForestCriterion` | Projekt.py:83-86 | where the slope band is known, the forest flag is 1 iff a forest polygon covers the cell or the band is 3, else 0 |
| `Criteria.BuiltUpFlag` | Projekt.py:96-97 | the built-up flag is never NoData, is 0 or 1, and is 1 exactly when the built-up cell has a value |
| `SoilTable.Calculated` | Projekt.py:59-62 | the calculation keeps the number of soil records |
| `SoilTable.CalculateKlasaNum` | Projekt.py:58-62 | the in-place pass over the soil table leaves exactly `Calculated` of the old table |
| `SoilTable.CalculatedFields` | Projekt.py:59-62 | after the calculation, every record's `klasa_num` is 1 or 2, it is 1 exactly for the high-quality category, and the record's identifier and category are unchanged |
| `SoilTable.CalculatedIdempotent` | Projekt.py:59-62 | running the calculation twice gives the same table as running it once |
| `SoilTable.CategoryToFlag` | Projekt.py:59-73 | a calculated `klasa_num` is never changed by the NoData fill, and it gives agricultural flag 1 exactly for the high-quality category, else 0 |
| `Overlay.Classify` | Projekt.py:108-111 | the class is 0 to 4 wherever it is not NoData, and it is never NoData under `ElseBranch` |
| `Overlay.FirstRaised` | Projekt.py:103-107 | the reference priority overlay is 0 exactly when no criterion in the order has flag 1, and otherwise it is the class of the first criterion in the order whose flag is 1 |
| `Overlay.ClassifyIsPriorityOverlay` | Projekt.py:103-111 | where every flag decides its `Con`, the nested `Con` equals the first raised flag in the order built-up, forest, agricultural, developable |
| `Overlay.BuiltUpWins` | Projekt.py:108 | for any other flags and any NoData rule, the class is 4 exactly when the built-up flag is 1 |
| `Overlay.ClassifyCases` | Projekt.py:108-111 | the class is 1, 2 or 3 exactly when its own flag is 1 and no higher-priority flag is 1, wherever those higher-priority flags decide their `Con`; it is 0 exactly when no flag is 1, wherever all four decide |
| `Classification.ClassifyCell` | Projekt.py:36-111 | the final class of a cell is 0 to 4 wherever it is not NoData, and it is never NoData under `ElseBranch` |
| `Classification.BuiltUpCell` | Projekt.py:96-108 | a cell is class 4 exactly when a built-up polygon covers it, whatever else covers it |
| `Classification.ForestCell` | Projekt.py:83-109 | off built-up land, where the slope band is known, a cell is class 1 exactly when a forest polygon covers it or its slope band is 3 |
| `Classification.AgriculturalCell` | Projekt.py:70-110 | off built-up and forest land, with a known slope band other than 3, a cell is class 2 exactly when its soil cell is 1 |
| `Classification.DevelopableCell` | Projekt.py:51-111 | where no higher-priority criterion applies and the groundwater code is known, a cell is class 3 iff the code is neither 1 nor 2, and is class 0 iff the code is 1 or 2 |
| `Classification.Scenarios` | Projekt.py:36-111 | worked cells: forest plus built-up gives 4; a 20-degree slope alone gives 1; groundwater code 3 alone on gentle land gives 3; high-quality soil with groundwater code 1 gives 2 |
| `Classification.SteepForestedCell` | Projekt.py:36-39 | a forested 70-degree cell with nothing else is class 1 when uncovered slopes are kept; when they become NoData it is class 3 under `ElseBranch` with `StrictOr`, and NoData under `NoDataOut` with `StrictOr` |
| `Classification.FinalClassificationCellwise` | Projekt.py:108-112 | the final raster has the inputs' shape, and each of its cells is the per-cell class of the input cells at that position |
| `Classification.FinalClassificationClasses` | Projekt.py:108-111 | every cell of the final raster is 0 to 4 or NoData, and under `ElseBranch` it is never NoData |
| `Annotation.Described` | Projekt.py:124-136 | the description pass keeps the number of rows |
| `Annotation.DescribeRows` | Projekt.py:124-136 | the in-place loop over the attribute table leaves exactly `Described` of the old table |
| `Annotation.DescribedRows` | Projekt.py:124-136 | after the pass, each row's description is the text of its value (1-4 their own texts, anything else `Niezaklasyfikowane`), and its value and count are unchanged |
| `Annotation.DescribedIdempotent` | Projekt.py:124-136 | running the pass twice gives the same table as running it once |
| `Annotation.DescriptionsDistinct` | Projekt.py:126-135 | two values share a description exactly when they are equal or both lie outside 1 to 4 |

## Left out

- Workspace, `overwriteOutput` and the EPSG:2180 coordinate system (Projekt.py:5-7) are configuration of the geoprocessing runtime.
- `PolygonToRaster` with `MAXIMUM_AREA` at cell sizes 5 and 30 (Projekt.py:44-49, 63-68, 77-82, 90-95) is geometry done inside the library. The model takes its output as a given grid of cells.
- Resampling the 5 m groundwater grid against the 30 m grids is done implicitly by the library's raster algebra. The model assumes all input grids share one shape (`Classification.Aligned`).
- The library's NoData rules for `Con` and `|`, whether `RemapRange` includes its range ends, and what `Reclassify` writes for uncovered values are not visible in the script. They are the parameters `Semantics`, `Closure` and `Missing`. A property that holds only for some of their values names those values.
- `RasterAlgebra.Equals`: a comparison with a NoData cell gives NoData. This is fixed, not a parameter. The NoData clauses of `Criteria.GroundwaterFlag` and `Criteria.ForestFlag` depend on it.
- How the library stores a kept uncovered slope in its integer output is not modelled exactly. The model writes its integer part (`Floor`), and only uses the fact that this is never 1, 2 or 3.
- Slope is an exact `real`, not a floating-point number. Only comparisons with the integer breakpoints matter.
- `.save(...)`, `AddField`, `BuildRasterAttributeTable_management`, the `UpdateCursor` mechanics and `print` (Projekt.py:40, 54, 58, 112, 118, 121, 124, 138) are persistence and I/O. The added fields appear as record fields that start out null (`None`). The attribute table is an array of rows.
- That the attribute table has one row per distinct class value comes from `BuildRasterAttributeTable_management`. It is not modelled: the description pass is proved for whatever rows the table has.
- The 100-character text field length and the `SHORT` type of `klasa_num` are not modelled. Every description text and both `klasa_num` values fit them.
