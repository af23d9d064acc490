/** The key-success-factors editor (App.tsx:978-1001). The section is the
    plan's list of success factors itself. */
module SuccessFactorsEditor {
  import opened Plan
  import opened ListEdits

  const NewFactor := SuccessFactor("New Factor", "")

  datatype FactorField = Factor | Description

  function FactorText(s: SuccessFactor, f: FactorField): string {
    match f
    case Factor => s.factor
    case Description => s.description
  }

  function WithFactorText(s: SuccessFactor, f: FactorField, v: string): (r: SuccessFactor)
    ensures FactorText(r, f) == v
    ensures forall g :: g != f ==> FactorText(r, g) == FactorText(s, g)
  {
    match f
    case Factor => s.(factor := v)
    case Description => s.(description := v)
  }

  /** `handleFactorChange(index, field, value)` */
  function ChangeFactor(fs: seq<SuccessFactor>, i: int, f: FactorField, v: string): (r: seq<SuccessFactor>)
    requires 0 <= i < |fs|
    ensures SameExceptAt(fs, i, r)
    ensures FactorText(r[i], f) == v
    ensures forall g :: g != f ==> FactorText(r[i], g) == FactorText(fs[i], g)
  {
    SetAt(fs, i, WithFactorText(fs[i], f, v))
  }

  /** `handleAddFactor` */
  function AddFactor(fs: seq<SuccessFactor>): (r: seq<SuccessFactor>)
    ensures Appended(fs, NewFactor, r)
  {
    Append(fs, NewFactor)
  }

  /** `handleRemoveFactor(index)` */
  function RemoveFactor(fs: seq<SuccessFactor>, i: int): (r: seq<SuccessFactor>)
    ensures RemovedAt(fs, i, r)
  {
    RemoveAt(fs, i)
  }
}
