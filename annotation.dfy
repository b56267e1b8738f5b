/** The attribute pass over the final raster's attribute table: every row
    gets the description of its class value, overwritten in place. */
module Annotation {
  import opened RasterAlgebra

  /** One row of the raster attribute table: the class value, its cell
      count, and the added text field `Opis` (null until it is written). */
  datatype AttributeRow = AttributeRow(value: int, count: nat, description: Option<string>)

  const ForestText: string := "Obszar leśny (las lub wysoka nachylenie)"
  const AgriculturalText: string := "Obszar rolny (gleby wysokiej jakości)"
  const DevelopableText: string := "Obszary pod zabudowę (niski poziom wód)"
  const BuiltUpText: string := "Obszary zabudowane"
  const UnclassifiedText: string := "Niezaklasyfikowane"

  /** The description of a class value; anything but 1 to 4 is unclassified. */
  function DescriptionOf(value: int): string
  {
    if value == 1 then ForestText
    else if value == 2 then AgriculturalText
    else if value == 3 then DevelopableText
    else if value == 4 then BuiltUpText
    else UnclassifiedText
  }

  /** The row after the pass: only the description is written. */
  function Describe(row: AttributeRow): AttributeRow
  {
    row.(description := Some(DescriptionOf(row.value)))
  }

  /** The whole table after the pass. */
  function Described(rows: seq<AttributeRow>): (r: seq<AttributeRow>)
    ensures |r| == |rows|
  {
    seq(|rows|, i requires 0 <= i < |rows| => Describe(rows[i]))
  }

  /** The cursor loop: visits every row once and writes its description. */
  method DescribeRows(table: array<AttributeRow>)
    modifies table
    ensures table[..] == Described(old(table[..]))
  {
    var i := 0;
    while i < table.Length
      invariant 0 <= i <= table.Length
      invariant forall k :: 0 <= k < i ==> table[k] == Describe(old(table[k]))
      invariant forall k :: i <= k < table.Length ==> table[k] == old(table[k])
    {
      var row := table[i];
      table[i] := Describe(row);
      i := i + 1;
    }
  }

  /** After the pass, every row's description is the text of its value, and
      its value and count are what they were. */
  lemma DescribedRows(rows: seq<AttributeRow>, i: int)
    requires 0 <= i < |rows|
    ensures Described(rows)[i].value == rows[i].value
    ensures Described(rows)[i].count == rows[i].count
    ensures Described(rows)[i].description == Some(DescriptionOf(rows[i].value))
  {
  }

  /** Running the pass a second time changes nothing. */
  lemma DescribedIdempotent(rows: seq<AttributeRow>)
    ensures Described(Described(rows)) == Described(rows)
  {
  }

  /** Each of the classes 1 to 4 has a text of its own, and every other
      value shares the unclassified text. */
  lemma DescriptionsDistinct(v: int, w: int)
    ensures DescriptionOf(v) == DescriptionOf(w) <==>
              v == w || ((v < 1 || v > 4) && (w < 1 || w > 4))
  {
  }
}
