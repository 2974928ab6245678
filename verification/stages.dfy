/** The four stage wrappers of the pipeline model: embedding, decoder layer (plain and
    activation-checkpointed), RMS normalisation and LM head. Each takes a tuple and
    returns a tuple; the numerical work is an uninterpreted function stored in the stage. */
module Stages {
  import opened Outcomes
  import opened Tensors

  /** A Llama decoder layer called as `(hidden_states, attention_bias, position_ids)`;
      it returns its `outputs` tuple, whose first element is the new hidden state. */
  type DecoderLayer = (Tensor, Tensor, Tensor) -> seq<Tensor>

  /** A materialised stage. `checkpointing` is the `activation_checkpointing` attribute
      of a decoder stage; `None` means the attribute was never set on the object. */
  datatype Stage =
    | EmbeddingPipe(lookup: Tensor -> Tensor)
    | DecoderPipe(layer: DecoderLayer, checkpointing: Option<bool>)
    | NormPipe(rmsNorm: Tensor -> Tensor)
    | LmPipe(project: Tensor -> Tensor)

  datatype StageKind = EmbeddingKind | DecoderKind | NormKind | LmHeadKind

  function KindOf(s: Stage): StageKind {
    match s
    case EmbeddingPipe(_) => EmbeddingKind
    case DecoderPipe(_, _) => DecoderKind
    case NormPipe(_) => NormKind
    case LmPipe(_) => LmHeadKind
  }

  /** The tuple shape each kind of stage unpacks. */
  function InputArity(k: StageKind): Arity {
    match k
    case EmbeddingKind => Exactly(3)
    case DecoderKind => Exactly(3)
    case NormKind => AtLeast(1)
    case LmHeadKind => Exactly(1)
  }

  /** The arity of the tuple each kind of stage emits. */
  function OutputArity(k: StageKind): nat {
    match k
    case EmbeddingKind => 3
    case DecoderKind => 3
    case NormKind => 1
    case LmHeadKind => 1
  }

  /** A stage whose forward reaches its unpacking step: every stage except a decoder
      whose checkpointing attribute is missing. */
  predicate Configured(s: Stage) {
    !(s.DecoderPipe? && s.checkpointing.None?)
  }

  /** Embedding stage: looks up the token ids, passes position ids and mask through. */
  function EmbeddingForward(lookup: Tensor -> Tensor, args: Tuple): (r: Result<Tuple>)
    ensures r.Ok? <==> |args| == 3
    ensures !r.Ok? ==> r.error == UnpackMismatch(Exactly(3), |args|)
    ensures r.Ok? ==> |r.value| == 3 && r.value[1..] == args[1..] && r.value[0] == lookup(args[0])
  {
    if |args| != 3 then Err(UnpackMismatch(Exactly(3), |args|))
    else Ok([lookup(args[0]), args[1], args[2]])
  }

  /** Plain decoder path: derive the bias from the mask, run the layer on
      `(hidden_states, bias, position_ids)` and keep `outputs[0]`. */
  function PlainDecoderForward(layer: DecoderLayer, args: Tuple): (r: Result<Tuple>)
    ensures |args| != 3 ==> r == Err(UnpackMismatch(Exactly(3), |args|))
    ensures |args| == 3 && !args[2].Data? ==> r == Err(ConditionNotTensor)
    ensures |args| == 3 && args[2].Data? ==>
      (r.Ok? <==> |layer(args[0], MaskToBias(args[2]).value, args[1])| >= 1)
    ensures r.Ok? ==> |r.value| == 3 && r.value[1..] == args[1..]
    ensures r.Ok? ==> r.value[0] == layer(args[0], MaskToBias(args[2]).value, args[1])[0]
  {
    if |args| != 3 then Err(UnpackMismatch(Exactly(3), |args|))
    else
      var bias :- MaskToBias(args[2]);
      var outputs := layer(args[0], bias, args[1]);
      if |outputs| == 0 then Err(IndexOutOfRange)
      else Ok([outputs[0], args[1], args[2]])
  }

  /** The forward value of the recompute-on-backward primitive, an external runtime
      call whose return rule is assumed: the wrapped function's outputs, unwrapped when
      there is exactly one of them and handed back as a tuple otherwise. */
  function Checkpoint(layer: DecoderLayer, hidden: Tensor, bias: Tensor, positions: Tensor): (t: Tensor)
    ensures |layer(hidden, bias, positions)| >= 1 ==>
      (t == layer(hidden, bias, positions)[0] <==> |layer(hidden, bias, positions)| == 1)
    ensures |layer(hidden, bias, positions)| != 1 ==> t == Packed(layer(hidden, bias, positions))
  {
    var outputs := layer(hidden, bias, positions);
    if |outputs| == 1 then outputs[0] else Packed(outputs)
  }

  /** Checkpointed decoder path: same bias, same layer call, but through the
      recompute-on-backward primitive, whose result is used whole. */
  function CheckpointedDecoderForward(layer: DecoderLayer, args: Tuple): (r: Result<Tuple>)
    ensures |args| != 3 ==> r == Err(UnpackMismatch(Exactly(3), |args|))
    ensures r.Ok? <==> |args| == 3 && args[2].Data?
    ensures r.Ok? ==> |r.value| == 3 && r.value[1..] == args[1..]
    ensures r.Ok? ==> r.value[0] == Checkpoint(layer, args[0], MaskToBias(args[2]).value, args[1])
  {
    if |args| != 3 then Err(UnpackMismatch(Exactly(3), |args|))
    else
      var bias :- MaskToBias(args[2]);
      Ok([Checkpoint(layer, args[0], bias, args[1]), args[1], args[2]])
  }

  /** The decoder stage's forward: the checkpointing attribute is read before anything
      is unpacked. */
  function DecoderForward(layer: DecoderLayer, checkpointing: Option<bool>, args: Tuple): (r: Result<Tuple>)
    ensures checkpointing.None? <==> r == Err(MissingAttribute("activation_checkpointing"))
    ensures checkpointing.Some? && |args| != 3 ==> r == Err(UnpackMismatch(Exactly(3), |args|))
    ensures r.Ok? ==> |r.value| == 3 && r.value[1..] == args[1..]
    ensures checkpointing == Some(true) ==> r == CheckpointedDecoderForward(layer, args)
    ensures checkpointing == Some(false) ==> r == PlainDecoderForward(layer, args)
  {
    match checkpointing
    case None => Err(MissingAttribute("activation_checkpointing"))
    case Some(true) => CheckpointedDecoderForward(layer, args)
    case Some(false) => PlainDecoderForward(layer, args)
  }

  /** Normalisation stage: reads only the first element and emits a 1-tuple. */
  function NormForward(rmsNorm: Tensor -> Tensor, args: Tuple): (r: Result<Tuple>)
    ensures r.Ok? <==> |args| >= 1
    ensures !r.Ok? ==> r.error == UnpackMismatch(AtLeast(1), 0)
    ensures r.Ok? ==> |r.value| == 1 && r.value[0] == rmsNorm(args[0])
  {
    if |args| == 0 then Err(UnpackMismatch(AtLeast(1), 0))
    else Ok([rmsNorm(args[0])])
  }

  /** LM-head stage: accepts exactly a 1-tuple and emits the projected 1-tuple. */
  function LmForward(project: Tensor -> Tensor, args: Tuple): (r: Result<Tuple>)
    ensures r.Ok? <==> |args| == 1
    ensures !r.Ok? ==> r.error == UnpackMismatch(Exactly(1), |args|)
    ensures r.Ok? ==> r.value == [project(args[0])]
  {
    if |args| != 1 then Err(UnpackMismatch(Exactly(1), |args|))
    else Ok([project(args[0])])
  }

  /** One stage's forward, checked against the arity contract of its kind: it succeeds
      only on a tuple its kind admits and then emits its kind's output arity; embedding
      and decoder stages keep position ids and mask. */
  function Forward(s: Stage, args: Tuple): (r: Result<Tuple>)
    ensures r.Ok? ==> Admits(InputArity(KindOf(s)), |args|) && |r.value| == OutputArity(KindOf(s))
    ensures Configured(s) && !Admits(InputArity(KindOf(s)), |args|) ==>
      r == Err(UnpackMismatch(InputArity(KindOf(s)), |args|))
    ensures r.Ok? && (s.EmbeddingPipe? || s.DecoderPipe?) ==> r.value[1..] == args[1..]
    ensures Configured(s) && !s.DecoderPipe? ==> (r.Ok? <==> Admits(InputArity(KindOf(s)), |args|))
  {
    match s
    case EmbeddingPipe(lookup) => EmbeddingForward(lookup, args)
    case DecoderPipe(layer, checkpointing) => DecoderForward(layer, checkpointing, args)
    case NormPipe(rmsNorm) => NormForward(rmsNorm, args)
    case LmPipe(project) => LmForward(project, args)
  }

  /** The plain and checkpointed decoder paths compute the same bias and call the layer
      on the same arguments: they fail alike, and they agree on a well-formed tuple
      exactly when the layer returns a single output (which is what a Llama decoder
      layer does when neither attention weights nor a cache are requested). */
  lemma CheckpointedAgreesWithPlain(layer: DecoderLayer, args: Tuple)
    ensures |args| != 3 || !args[2].Data? ==>
      CheckpointedDecoderForward(layer, args) == PlainDecoderForward(layer, args)
    ensures |args| == 3 && args[2].Data? ==>
      (CheckpointedDecoderForward(layer, args) == PlainDecoderForward(layer, args)
       <==> |layer(args[0], MaskToBias(args[2]).value, args[1])| == 1)
  {
  }

  /** The normalisation stage discards everything after the first element. */
  lemma NormDiscardsTail(rmsNorm: Tensor -> Tensor, args: Tuple)
    requires |args| >= 1
    ensures NormForward(rmsNorm, args) == NormForward(rmsNorm, args[..1])
  {
  }
}
