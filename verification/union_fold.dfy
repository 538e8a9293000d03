/**
 * Flatten's left fold of `union` over its input datasets. The running result
 * starts as the null reference; a null result is replaced by the next input,
 * a non-null one is unioned with it.
 */
module UnionFold {
  import opened Plans

  /** The fold ((d1 ∪ d2) ∪ …) ∪ dn, starting from the null reference. */
  function FoldUnion(ds: seq<Plan>): (r: Plan) {
    if ds == [] then Null
    else
      var r := FoldUnion(ds[..|ds| - 1]);
      if r == Null then ds[|ds| - 1] else Union(r, ds[|ds| - 1])
  }

  /**
   * The operands of a dataset viewed as a bag union: a union contributes the
   * operands of both sides in order, the null reference none, any other
   * dataset itself.
   */
  function Operands(p: Plan): (r: seq<Plan>) {
    match p
    case Union(l, r) => Operands(l) + Operands(r)
    case Null => []
    case _ => [p]
  }

  /** The operands of several datasets, concatenated in list order. */
  function AllOperands(ds: seq<Plan>): (r: seq<Plan>) {
    if ds == [] then [] else AllOperands(ds[..|ds| - 1]) + Operands(ds[|ds| - 1])
  }

  /**
   * The fold loses, duplicates and reorders nothing: its operands are the
   * inputs' operands in list order.
   */
  lemma {:induction false} FoldUnionOperands(ds: seq<Plan>)
    ensures Operands(FoldUnion(ds)) == AllOperands(ds)
  {
    if ds != [] {
      FoldUnionOperands(ds[..|ds| - 1]);
    }
  }

  /** The result stays the null reference exactly when every input is null (in particular for no inputs). */
  lemma {:induction false} FoldUnionNull(ds: seq<Plan>)
    ensures FoldUnion(ds) == Null <==> forall i :: 0 <= i < |ds| ==> ds[i] == Null
  {
    if ds != [] {
      var n := |ds| - 1;
      FoldUnionNull(ds[..n]);
      if FoldUnion(ds[..n]) == Null {
        assert forall i :: 0 <= i < n ==> ds[..n][i] == ds[i];
      } else {
        var i :| 0 <= i < n && ds[..n][i] != Null;
        assert ds[i] != Null;
      }
    }
  }

  /** A single input is passed through unchanged. */
  lemma FoldUnionSingle(d: Plan)
    ensures FoldUnion([d]) == d
  {
    assert [d][..0] == [];
  }

  /**
   * When no input is null, the result for n >= 2 inputs is the union of the
   * result for the first n - 1 inputs with the last one: the fold nests to
   * the left.
   */
  lemma {:induction false} FoldUnionNestsLeft(ds: seq<Plan>)
    requires |ds| >= 2 && forall i :: 0 <= i < |ds| ==> ds[i] != Null
    ensures FoldUnion(ds) == Union(FoldUnion(ds[..|ds| - 1]), ds[|ds| - 1])
    ensures FoldUnion(ds[..|ds| - 1]) != Null
  {
    FoldUnionNull(ds[..|ds| - 1]);
    assert ds[..|ds| - 1][0] == ds[0];
  }
}
