/** Tensors as opaque values. The core never looks inside a tensor except for the
    boolean attention mask, whose entries decide which attention scores are masked. */
module Tensors {
  import opened Outcomes

  /** One tensor entry. `NegInf` is the negative-infinity bias of a masked position;
      its integer cast is left abstract. */
  datatype Scalar = Bool(b: bool) | Int(i: int) | NegInf

  /** `Data` is an ordinary tensor. `Packed` is a Python tuple of tensors sitting where a
      single tensor is expected (what the activation-checkpointing primitive hands back
      when the wrapped function returns anything but exactly one output). */
  datatype Tensor = Data(elems: seq<Scalar>) | Packed(parts: seq<Tensor>)

  /** The fixed-arity group of tensors passed from one pipeline stage to the next. */
  type Tuple = seq<Tensor>

  /** Element-wise `x == True` in torch: true for a boolean true and for the integer 1. */
  predicate IsMasked(s: Scalar) {
    s == Bool(true) || s == Int(1)
  }

  /** `torch.where(mask == True, float("-inf"), 0).long()`: the additive attention bias
      of a decoder stage. A tuple in the mask position is not a tensor, and torch.where
      rejects the plain boolean that comparing a tuple with True produces. */
  function MaskToBias(mask: Tensor): (r: Result<Tensor>)
    ensures r.Ok? <==> mask.Data?
    ensures r.Ok? ==> r.value.Data? && |r.value.elems| == |mask.elems|
    ensures r.Ok? ==>
      forall i :: 0 <= i < |mask.elems| ==> (r.value.elems[i] == NegInf <==> IsMasked(mask.elems[i]))
    ensures r.Ok? ==>
      forall i :: 0 <= i < |mask.elems| ==> (r.value.elems[i] == Int(0) <==> !IsMasked(mask.elems[i]))
  {
    match mask
    case Data(elems) =>
      Ok(Data(seq(|elems|, i requires 0 <= i < |elems| => if IsMasked(elems[i]) then NegInf else Int(0))))
    case Packed(_) => Err(ConditionNotTensor)
  }

  /** The bias depends only on which positions are masked, not on how the mask spells
      "masked" (a boolean true and the integer 1 give the same bias). */
  lemma BiasDependsOnlyOnMaskedPositions(m1: seq<Scalar>, m2: seq<Scalar>)
    requires |m1| == |m2|
    requires forall i :: 0 <= i < |m1| ==> (IsMasked(m1[i]) <==> IsMasked(m2[i]))
    ensures MaskToBias(Data(m1)) == MaskToBias(Data(m2))
  {
    var b1 := MaskToBias(Data(m1)).value.elems;
    var b2 := MaskToBias(Data(m2)).value.elems;
    assert forall i :: 0 <= i < |b1| ==> b1[i] == b2[i];
    assert b1 == b2;
  }
}
