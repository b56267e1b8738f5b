/** The priority overlay: the four criterion flags of a cell are combined
    into one class, 4 built-up, 1 forest, 2 agricultural, 3 developable,
    0 unclassified, by a nested `Con` that tries the flags in a fixed order. */
module Overlay {
  import opened RasterAlgebra

  /** The four criterion flags of one cell. */
  datatype Flags = Flags(builtUp: Option<int>, forest: Option<int>, agricultural: Option<int>, developable: Option<int>)

  /** The nested `Con` of the script: built-up, then forest, then soil,
      then groundwater, else unclassified. */
  function Classify(f: Flags, con: NullCondition): (r: Option<int>)
    ensures r.Some? ==> 0 <= r.value <= 4
    ensures con == ElseBranch ==> r.Some?
  {
    Con(Equals(f.builtUp, 1), Some(4),
      Con(Equals(f.forest, 1), Some(1),
        Con(Equals(f.agricultural, 1), Some(2),
          Con(Equals(f.developable, 1), Some(3), Some(0), con), con), con), con)
  }

  /** A flag decides its `Con` when it is not NoData, or when a NoData
      condition falls to the else branch. */
  predicate Decides(flag: Option<int>, con: NullCondition)
  {
    flag.Some? || con == ElseBranch
  }

  predicate AllDecide(f: Flags, con: NullCondition)
  {
    && Decides(f.builtUp, con) && Decides(f.forest, con)
    && Decides(f.agricultural, con) && Decides(f.developable, con)
  }

  /** The criteria, named by what they protect or allow. */
  datatype Criterion = BuiltUp | Forest | Agricultural | Developable

  /** The order in which the criteria claim a cell. */
  const Priority: seq<Criterion> := [BuiltUp, Forest, Agricultural, Developable]

  /** The class a criterion gives to the cells it claims. */
  function ClassOf(c: Criterion): (k: int)
    ensures 1 <= k <= 4
  {
    match c
    case BuiltUp => 4
    case Forest => 1
    case Agricultural => 2
    case Developable => 3
  }

  function FlagOf(f: Flags, c: Criterion): Option<int>
  {
    match c
    case BuiltUp => f.builtUp
    case Forest => f.forest
    case Agricultural => f.agricultural
    case Developable => f.developable
  }

  /** Reference definition of a priority overlay: the class of the first
      criterion in `order` whose flag is 1, or 0 when none is. */
  function FirstRaised(f: Flags, order: seq<Criterion>): (k: int)
    ensures k == 0 <==> forall i :: 0 <= i < |order| ==> FlagOf(f, order[i]) != Some(1)
    ensures k != 0 ==> exists i :: 0 <= i < |order| && FlagOf(f, order[i]) == Some(1) && k == ClassOf(order[i])
                                   && forall j :: 0 <= j < i ==> FlagOf(f, order[j]) != Some(1)
  {
    if order == [] then 0
    else if FlagOf(f, order[0]) == Some(1) then ClassOf(order[0])
    else
      var k := FirstRaised(f, order[1..]);
      assert forall i :: 1 <= i < |order| ==> order[i] == order[1..][i - 1];
      k
  }

  /** The nested `Con` is the priority overlay in the order built-up,
      forest, agricultural, developable. */
  lemma ClassifyIsPriorityOverlay(f: Flags, con: NullCondition)
    requires AllDecide(f, con)
    ensures Classify(f, con) == Some(FirstRaised(f, Priority))
  {
    var p0: seq<Criterion> := Priority;
    var p1, p2, p3 := p0[1..], p0[2..], p0[3..];
    assert p1 == [Forest, Agricultural, Developable] && p1[1..] == p2;
    assert p2 == [Agricultural, Developable] && p2[1..] == p3;
    assert p3 == [Developable] && p3[1..] == [];
    if f.builtUp == Some(1) {
    } else if f.forest == Some(1) {
      assert FirstRaised(f, p0) == FirstRaised(f, p1);
    } else if f.agricultural == Some(1) {
      assert FirstRaised(f, p0) == FirstRaised(f, p1) == FirstRaised(f, p2);
    } else {
      assert FirstRaised(f, p0) == FirstRaised(f, p1) == FirstRaised(f, p2) == FirstRaised(f, p3);
    }
  }

  /** A built-up cell is class 4 whatever its other flags and whatever the
      NoData rule; and class 4 arises only from a built-up cell. */
  lemma BuiltUpWins(f: Flags, con: NullCondition)
    ensures Classify(f, con) == Some(4) <==> f.builtUp == Some(1)
  {
  }

  /** Each class arises exactly from its own flag being 1 while every flag
      of higher priority is not 1; class 0 exactly when no flag is 1. Each
      statement needs only the flags it looks past to decide their `Con`. */
  lemma ClassifyCases(f: Flags, con: NullCondition)
    ensures Decides(f.builtUp, con) ==>
              (Classify(f, con) == Some(1) <==> f.builtUp != Some(1) && f.forest == Some(1))
    ensures Decides(f.builtUp, con) && Decides(f.forest, con) ==>
              (Classify(f, con) == Some(2) <==>
                 f.builtUp != Some(1) && f.forest != Some(1) && f.agricultural == Some(1))
    ensures Decides(f.builtUp, con) && Decides(f.forest, con) && Decides(f.agricultural, con) ==>
              (Classify(f, con) == Some(3) <==>
                 f.builtUp != Some(1) && f.forest != Some(1) && f.agricultural != Some(1) && f.developable == Some(1))
    ensures AllDecide(f, con) ==>
              (Classify(f, con) == Some(0) <==>
                 f.builtUp != Some(1) && f.forest != Some(1) && f.agricultural != Some(1) && f.developable != Some(1))
  {
  }
}
