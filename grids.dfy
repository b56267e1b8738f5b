/** Rasters as grids of cells. The library applies every operator of the
    script cell by cell, so a raster operation is a per-cell function
    lifted over the grid. */
module Grids {
  import opened RasterAlgebra

  /** Rows of cells; `None` is NoData. */
  type Grid<T> = seq<seq<Option<T>>>

  /** Two rasters cover the same cells. */
  predicate SameShape<A, B>(a: Grid<A>, b: Grid<B>)
  {
    |a| == |b| && forall i :: 0 <= i < |a| ==> |a[i]| == |b[i]|
  }

  /** A one-input raster operation. */
  function Map<A, B>(g: Grid<A>, f: Option<A> -> Option<B>): (r: Grid<B>)
    ensures SameShape(g, r)
    ensures forall i, j :: 0 <= i < |g| && 0 <= j < |g[i]| ==> r[i][j] == f(g[i][j])
  {
    seq(|g|, i requires 0 <= i < |g| => seq(|g[i]|, j requires 0 <= j < |g[i]| => f(g[i][j])))
  }

  /** A two-input raster operation on rasters of the same shape. */
  function Zip<A, B, C>(a: Grid<A>, b: Grid<B>, f: (Option<A>, Option<B>) -> Option<C>): (r: Grid<C>)
    requires SameShape(a, b)
    ensures SameShape(a, r)
    ensures forall i, j :: 0 <= i < |a| && 0 <= j < |a[i]| ==> r[i][j] == f(a[i][j], b[i][j])
  {
    seq(|a|, i requires 0 <= i < |a| => seq(|a[i]|, j requires 0 <= j < |a[i]| => f(a[i][j], b[i][j])))
  }
}
