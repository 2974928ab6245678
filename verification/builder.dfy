/** The stage-sequence builder: the lazy layer-spec list built from a model
    configuration, its instantiation into stages, and the eager path that re-tags the
    layers of an already built causal language model. */
module Builder {
  import opened Outcomes
  import opened Tensors
  import opened Stages

  /** The fields of a Llama configuration the builder reads. */
  datatype ModelConfig = ModelConfig(vocabSize: int, hiddenSize: int, numHiddenLayers: int, rmsNormEps: real)

  /** A lazy stage description: which wrapper to construct and with which arguments. */
  datatype LayerSpec =
    | EmbeddingSpec(numEmbeddings: int, embeddingDim: int)
    | DecoderSpec(config: ModelConfig, activationCheckpointing: bool)
    | NormSpec(hiddenSize: int, eps: real)
    | LmSpec(inFeatures: int, outFeatures: int, bias: bool)

  /** A value stored in the activation-checkpointing options mapping; `Unset` is None. */
  datatype Setting = Flag(b: bool) | Count(n: int) | Unset

  type CheckpointingConfig = map<string, Setting>

  /** The keyword arguments handed to the external checkpointing configuration call. */
  datatype ConfigureCall = ConfigureCall(
    partitionActivations: Setting,
    contiguousCheckpointing: Setting,
    checkpointInCpu: Setting,
    numCheckpoints: Setting,
    synchronize: Setting,
    profile: Setting)

  /** The weights of freshly constructed layers, supplied by the external runtime;
      `decoder(i)` is the layer built for position `i` of the spec list. */
  datatype Weights = Weights(
    embed: Tensor -> Tensor,
    decoder: nat -> DecoderLayer,
    norm: Tensor -> Tensor,
    head: Tensor -> Tensor)

  /** An already built causal language model whose sub-modules the eager path re-tags. */
  datatype CausalLm = CausalLm(
    embedTokens: Tensor -> Tensor,
    layers: seq<DecoderLayer>,
    norm: Tensor -> Tensor,
    lmHead: Tensor -> Tensor)

  /** The number of decoder specs: `range(n)` is empty for a negative `n`. */
  function BlockCount(c: ModelConfig): (n: nat)
    ensures c.numHiddenLayers >= 0 ==> n == c.numHiddenLayers
    ensures c.numHiddenLayers < 0 ==> n == 0
  {
    if c.numHiddenLayers < 0 then 0 else c.numHiddenLayers
  }

  /** The reference stage order for `n` decoder layers, defined position by position. */
  function CanonicalKinds(n: nat): seq<StageKind> {
    seq(n + 3, i => if i == 0 then EmbeddingKind
                    else if i <= n then DecoderKind
                    else if i == n + 1 then NormKind
                    else LmHeadKind)
  }

  function SpecKind(spec: LayerSpec): StageKind {
    match spec
    case EmbeddingSpec(_, _) => EmbeddingKind
    case DecoderSpec(_, _) => DecoderKind
    case NormSpec(_, _) => NormKind
    case LmSpec(_, _, _) => LmHeadKind
  }

  function SpecKinds(specs: seq<LayerSpec>): (ks: seq<StageKind>)
    ensures |ks| == |specs|
  {
    seq(|specs|, i requires 0 <= i < |specs| => SpecKind(specs[i]))
  }

  function StageKinds(stages: seq<Stage>): (ks: seq<StageKind>)
    ensures |ks| == |stages|
  {
    seq(|stages|, i requires 0 <= i < |stages| => KindOf(stages[i]))
  }

  /** Decoder stages are checkpointed exactly when an options mapping is given at all
      (`is not None`): an empty mapping still turns checkpointing on. */
  function CheckpointFlag(cfg: Option<CheckpointingConfig>): (on: bool)
    ensures on <==> cfg != None
  {
    cfg.Some?
  }

  /** `dict.get(key, default)`. */
  function Lookup(m: CheckpointingConfig, key: string, default: Setting): (v: Setting)
    ensures key in m ==> v == m[key]
    ensures key !in m ==> v == default
  {
    if key in m then m[key] else default
  }

  /** The checkpointing configuration call made before the pipeline is constructed. It
      is made only for a truthy mapping, i.e. a present and non-empty one; each option
      is read under its configuration key and defaults to false, or to None for the
      number of checkpoints. */
  function ConfigureArgs(cfg: Option<CheckpointingConfig>): (call: Option<ConfigureCall>)
    ensures call.Some? <==> cfg.Some? && |cfg.value| > 0
    ensures call.Some? ==> call.value.partitionActivations == Lookup(cfg.value, "partition_activations", Flag(false))
    ensures call.Some? ==> call.value.contiguousCheckpointing == Lookup(cfg.value, "contiguous_memory_optimization", Flag(false))
    ensures call.Some? ==> call.value.checkpointInCpu == Lookup(cfg.value, "cpu_checkpointing", Flag(false))
    ensures call.Some? ==> call.value.numCheckpoints == Lookup(cfg.value, "number_checkpoints", Unset)
    ensures call.Some? ==> call.value.synchronize == Lookup(cfg.value, "synchronize_checkpoint_boundary", Flag(false))
    ensures call.Some? ==> call.value.profile == Lookup(cfg.value, "profile", Flag(false))
  {
    match cfg
    case None => None
    case Some(m) =>
      if |m| == 0 then None
      else Some(ConfigureCall(
        Lookup(m, "partition_activations", Flag(false)),
        Lookup(m, "contiguous_memory_optimization", Flag(false)),
        Lookup(m, "cpu_checkpointing", Flag(false)),
        Lookup(m, "number_checkpoints", Unset),
        Lookup(m, "synchronize_checkpoint_boundary", Flag(false)),
        Lookup(m, "profile", Flag(false))))
  }

  /** An empty options mapping is the one configuration on which the two readings
      disagree: decoders are checkpointed but the checkpointing call is skipped. */
  lemma EmptyConfigChecksWithoutConfiguring(cfg: Option<CheckpointingConfig>)
    ensures CheckpointFlag(cfg) && ConfigureArgs(cfg).None? <==> cfg == Some(map[])
  {
  }

  /** The lazy spec list: one embedding spec, one decoder spec per hidden layer, one norm
      spec and one LM-head spec. Every decoder shares the checkpointing flag; the
      embedding table and the LM head both cover `vocab_size + 1` entries. */
  function BuildSpecs(c: ModelConfig, cfg: Option<CheckpointingConfig>): (specs: seq<LayerSpec>)
    ensures |specs| == BlockCount(c) + 3
    ensures SpecKinds(specs) == CanonicalKinds(BlockCount(c))
    ensures specs[0] == EmbeddingSpec(c.vocabSize + 1, c.hiddenSize)
    ensures forall i :: 1 <= i <= BlockCount(c) ==> specs[i] == DecoderSpec(c, cfg.Some?)
    ensures specs[BlockCount(c) + 1] == NormSpec(c.hiddenSize, c.rmsNormEps)
    ensures specs[BlockCount(c) + 2] == LmSpec(c.hiddenSize, c.vocabSize + 1, false)
    ensures specs[0].numEmbeddings == specs[|specs| - 1].outFeatures
  {
    var n := BlockCount(c);
    var specs := [EmbeddingSpec(c.vocabSize + 1, c.hiddenSize)]
      + seq(n, _ => DecoderSpec(c, CheckpointFlag(cfg)))
      + [NormSpec(c.hiddenSize, c.rmsNormEps), LmSpec(c.hiddenSize, c.vocabSize + 1, false)];
    assert SpecKinds(specs) == CanonicalKinds(n);
    specs
  }

  /** Constructing the wrapper a spec names; a decoder records its checkpointing flag. */
  function Instantiate(spec: LayerSpec, position: nat, w: Weights): (s: Stage)
    ensures KindOf(s) == SpecKind(spec)
    ensures spec.DecoderSpec? ==> s.checkpointing == Some(spec.activationCheckpointing)
  {
    match spec
    case EmbeddingSpec(_, _) => EmbeddingPipe(w.embed)
    case DecoderSpec(_, flag) => DecoderPipe(w.decoder(position), Some(flag))
    case NormSpec(_, _) => NormPipe(w.norm)
    case LmSpec(_, _, _) => LmPipe(w.head)
  }

  /** Instantiating every spec of a list, in order. */
  function Materialize(specs: seq<LayerSpec>, w: Weights): (stages: seq<Stage>)
    ensures StageKinds(stages) == SpecKinds(specs)
    ensures forall i :: 0 <= i < |specs| && specs[i].DecoderSpec? ==>
      stages[i].DecoderPipe? && stages[i].checkpointing == Some(specs[i].activationCheckpointing)
  {
    seq(|specs|, i requires 0 <= i < |specs| => Instantiate(specs[i], i, w))
  }

  /** The eager path as written: the decoder layers are re-tagged without their
      constructor running, so the checkpointing attribute is never set and the
      `activation_checkpointing` argument has no effect. */
  function ToLayers(m: CausalLm, activationCheckpointing: bool): (stages: seq<Stage>)
    ensures |stages| == |m.layers| + 3
    ensures StageKinds(stages) == CanonicalKinds(|m.layers|)
    ensures forall i :: 1 <= i <= |m.layers| ==>
      stages[i].DecoderPipe? && stages[i].layer == m.layers[i - 1] && stages[i].checkpointing.None?
  {
    var stages := [EmbeddingPipe(m.embedTokens)]
      + seq(|m.layers|, i requires 0 <= i < |m.layers| => DecoderPipe(m.layers[i], None))
      + [NormPipe(m.norm), LmPipe(m.lmHead)];
    assert StageKinds(stages) == CanonicalKinds(|m.layers|);
    stages
  }

  /** The eager path with the decoder wrapper's attribute set from the argument. */
  function ToLayersFixed(m: CausalLm, activationCheckpointing: bool): (stages: seq<Stage>)
    ensures |stages| == |m.layers| + 3
    ensures StageKinds(stages) == CanonicalKinds(|m.layers|)
    ensures forall i :: 1 <= i <= |m.layers| ==>
      stages[i].DecoderPipe? && stages[i].layer == m.layers[i - 1]
      && stages[i].checkpointing == Some(activationCheckpointing)
  {
    var stages := [EmbeddingPipe(m.embedTokens)]
      + seq(|m.layers|, i requires 0 <= i < |m.layers| => DecoderPipe(m.layers[i], Some(activationCheckpointing)))
      + [NormPipe(m.norm), LmPipe(m.lmHead)];
    assert StageKinds(stages) == CanonicalKinds(|m.layers|);
    stages
  }

  /** The eager path as written yields the same stages whatever flag it is given. */
  lemma EagerIgnoresCheckpointingArgument(m: CausalLm)
    ensures ToLayers(m, true) == ToLayers(m, false)
  {
  }

  /** The lazy and the (corrected) eager paths agree stage by stage on kind, and hence
      on tuple contract, and on every decoder's checkpointing flag. */
  lemma EagerMatchesSpecPath(c: ModelConfig, cfg: Option<CheckpointingConfig>, w: Weights, m: CausalLm)
    requires |m.layers| == BlockCount(c)
    ensures StageKinds(ToLayersFixed(m, CheckpointFlag(cfg))) == StageKinds(Materialize(BuildSpecs(c, cfg), w))
    ensures forall i :: 1 <= i <= BlockCount(c) ==>
      ToLayersFixed(m, CheckpointFlag(cfg))[i].checkpointing == Materialize(BuildSpecs(c, cfg), w)[i].checkpointing
  {
  }
}
