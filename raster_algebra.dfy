/** Cell-wise raster algebra of the geoprocessing library, as the classification
    script uses it: a cell holds a value or NoData, and the operators `==`, `|`,
    `IsNull` and `Con` act on one cell at a time.

    The script does not pin down what `Con` does with a NoData condition, nor
    what `|` does with a NoData operand: both are behaviour of the library.
    They are therefore parameters of the model (`NullCondition`, `NullOr`),
    and every property proved about the script either holds for all of their
    values or names the value it assumes. */
module RasterAlgebra {

  /** A raster cell: `None` is NoData. */
  datatype Option<+T> = None | Some(value: T)

  /** What `Con(cond, t, f)` yields where `cond` is NoData. */
  datatype NullCondition =
    | ElseBranch   // the NoData condition counts as false: the `f` branch is taken
    | NoDataOut    // the output cell is NoData

  /** What `a | b` yields where an operand is NoData. */
  datatype NullOr =
    | StrictOr     // NoData in either operand gives NoData
    | KleeneOr     // a true operand decides; otherwise NoData gives NoData

  /** The library's NoData behaviour, fixed for one run. */
  datatype Semantics = Semantics(con: NullCondition, orRule: NullOr)

  /** `IsNull(r)`: defined on every cell, true exactly on NoData. */
  function IsNull<T>(c: Option<T>): bool
  {
    c.None?
  }

  /** `r == k`: a comparison with NoData is NoData. */
  function Equals(c: Option<int>, k: int): (r: Option<bool>)
    ensures r.None? <==> c.None?
    ensures r == Some(true) <==> c == Some(k)
  {
    match c
    case None => None
    case Some(v) => Some(v == k)
  }

  /** `a | b` under the chosen NoData rule. */
  function Or(a: Option<bool>, b: Option<bool>, rule: NullOr): (r: Option<bool>)
    ensures a.Some? && b.Some? ==> r == Some(a.value || b.value)
    ensures r == Some(true) ==> a == Some(true) || b == Some(true)
    ensures r == Some(false) ==> a == Some(false) && b == Some(false)
  {
    match (a, b)
    case (Some(x), Some(y)) => Some(x || y)
    case _ =>
      if rule == KleeneOr && (a == Some(true) || b == Some(true)) then Some(true) else None
  }

  /** `Con(cond, t, f)`: `t` where the condition holds, `f` where it does not. */
  function Con<T>(cond: Option<bool>, t: Option<T>, f: Option<T>, rule: NullCondition): (r: Option<T>)
    ensures cond == Some(true) ==> r == t
    ensures cond == Some(false) ==> r == f
    ensures cond.None? ==> r == (if rule == ElseBranch then f else None)
  {
    match cond
    case Some(b) => if b then t else f
    case None => if rule == ElseBranch then f else None
  }
}
