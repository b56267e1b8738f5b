/** The soil vector layer's attribute table and the field calculation that
    derives its numeric `klasa_num` field from the categorical `klasa` field,
    record by record and in place. */
module SoilTable {
  import opened RasterAlgebra
  import Criteria

  /** One soil polygon record. `klasaNum` is the added field; it is null
      (`None`) until it is calculated. */
  datatype SoilRecord = SoilRecord(objectId: int, klasa: Option<string>, klasaNum: Option<int>)

  /** The record after the calculation: only `klasaNum` is set. */
  function WithKlasaNum(rec: SoilRecord): SoilRecord
  {
    rec.(klasaNum := Some(Criteria.KlasaNum(rec.klasa)))
  }

  /** The whole table after the calculation. */
  function Calculated(recs: seq<SoilRecord>): (r: seq<SoilRecord>)
    ensures |r| == |recs|
  {
    seq(|recs|, i requires 0 <= i < |recs| => WithKlasaNum(recs[i]))
  }

  /** Computes `klasa_num` for every record of the table, in place. */
  method CalculateKlasaNum(table: array<SoilRecord>)
    modifies table
    ensures table[..] == Calculated(old(table[..]))
  {
    var i := 0;
    while i < table.Length
      invariant 0 <= i <= table.Length
      invariant forall k :: 0 <= k < i ==> table[k] == WithKlasaNum(old(table[k]))
      invariant forall k :: i <= k < table.Length ==> table[k] == old(table[k])
    {
      table[i] := WithKlasaNum(table[i]);
      i := i + 1;
    }
  }

  /** After the calculation every record's `klasa_num` is 1 or 2, it is 1
      exactly for the high-quality category, and the identifier and the
      category of every record are what they were. */
  lemma CalculatedFields(recs: seq<SoilRecord>, i: int)
    requires 0 <= i < |recs|
    ensures Calculated(recs)[i].klasaNum == Some(1) || Calculated(recs)[i].klasaNum == Some(2)
    ensures Calculated(recs)[i].klasaNum == Some(1) <==> recs[i].klasa == Some(Criteria.HighQualitySoil)
    ensures Calculated(recs)[i].objectId == recs[i].objectId
    ensures Calculated(recs)[i].klasa == recs[i].klasa
  {
  }

  /** Calculating a second time changes nothing. */
  lemma CalculatedIdempotent(recs: seq<SoilRecord>)
    ensures Calculated(Calculated(recs)) == Calculated(recs)
  {
  }

  /** From category to flag: once a record's `klasa_num` reaches a soil
      cell, the agricultural flag there is 1 exactly for the high-quality
      category, and the NoData fill never applies to it. */
  lemma CategoryToFlag(rec: SoilRecord, con: NullCondition)
    ensures Criteria.FillSoil(WithKlasaNum(rec).klasaNum, con) == WithKlasaNum(rec).klasaNum
    ensures Criteria.SoilFlag(WithKlasaNum(rec).klasaNum, con) ==
              Some(if rec.klasa == Some(Criteria.HighQualitySoil) then 1 else 0)
  {
  }
}
