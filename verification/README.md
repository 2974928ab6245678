# Pipeline stage decomposition of a Llama model

This project models the discrete core of `models/llama_pipeline_model.py`, which cuts a
Llama causal language model into a flat list of pipeline stages for a DeepSpeed pipeline
engine. The list is one embedding stage, one stage per decoder layer, an RMS-norm stage
and an LM-head stage. The model covers:

- **Stage wrappers** (`stages.dfy`, module `Stages`). These are the four `forward`
  functions. Each takes a tuple of tensors and returns one. Embedding and decoder stages
  map a 3-tuple `(hidden, position_ids, mask)` to a 3-tuple and pass the last two
  elements through. The norm stage keeps only the first element. The LM head takes
  exactly a 1-tuple. Tensors are opaque values (`tensors.dfy`). Layer math is an
  uninterpreted function stored in the stage. A decoder layer returns its `outputs` tuple.
  The plain path keeps `outputs[0]`. The checkpointed path uses the value of the
  recompute primitive, which unwraps a 1-tuple and otherwise hands back the whole tuple.
- **Mask to bias** (`Tensors.MaskToBias`). A masked entry (`== True`, so a boolean true
  or the integer 1) becomes negative infinity. Every other entry becomes zero.
- **Stage-sequence builder** (`builder.dfy`). It has two paths: the lazy layer-spec list
  built from a configuration, and the eager re-tagging of an already built model. It
  also covers the checkpointing configuration call built from the options mapping.
- **Pipeline run** (`pipeline.dfy`). Stages are applied front to back. An arity-level
  reference fold (`FlowArity`) is tied to the concrete run. Lemmas show that a
  well-formed 3-tuple comes out as a 1-tuple that the loss function's unpacking accepts.
- **Topology and seed** (`parallelism.dfy`, `model_pipe.dfy`). The divisibility check
  and derivation of the data-parallel degree, the seed offset of interior pipeline
  stages, and `get_model` as a pure function of its inputs.

Python exceptions become `Error` values (`outcomes.dfy`): a failed tuple unpacking,
`outputs[0]` on an empty tuple, `torch.where` on a non-tensor, a missing attribute,
division by zero and a failing `assert`. Dafny functions are deterministic, so the
checkpointed and plain decoder paths are compared under a deterministic layer function.

Modelling decisions taken from the code itself:

- The stage list has `num_hidden_layers + 3` entries: one embedding, the decoders, one
  norm and one head.
- A negative `num_hidden_layers` gives no decoder stages, as `range` does.
- The checkpointed and plain decoder paths agree only when the decoder layer returns
  exactly one output. `Stages.CheckpointedAgreesWithPlain` proves this in both
  directions. A Llama decoder layer returns one output when neither attention weights
  nor a cache is requested, and the code requests neither.
- `activation_checkpointing_config` is read two ways. The checkpointing call needs a
  non-empty mapping (truthiness, line 147). The decoder flag only needs a mapping to be
  present (`is not None`, line 160). So an empty mapping turns checkpointing on without
  configuring it.

## Model

| member | source | states |
|---|---|---|
| `Tensors.MaskToBias` | models/llama_pipeline_model.py:30 | a bias exists exactly for a tensor mask; it has the mask's length; an entry is negative infinity iff the mask entry is masked and zero iff it is not |
| `Tensors.BiasDependsOnlyOnMaskedPositions` | models/llama_pipeline_model.py:41 | two masks that mask the same positions yield the same bias, whether they spell "masked" as true or as 1 |
| `Stages.EmbeddingForward` | models/llama_pipeline_model.py:10-13 | succeeds iff given a 3-tuple, else an unpacking error; returns a 3-tuple whose position ids and mask are the input's, with the looked-up embeddings first |
| `Stages.PlainDecoderForward` | models/llama_pipeline_model.py:29-37 | a non-3-tuple is an unpacking error, a non-tensor mask a type error; on a well-formed tuple it succeeds iff the layer returns an output; on success a 3-tuple whose first element is the layer's `outputs[0]` for `(hidden, bias of the mask, position ids)` and whose position ids and mask are unchanged |
| `Stages.Checkpoint` | models/llama_pipeline_model.py:48-54 | the assumed return rule of the external recompute primitive: when the wrapped layer returns outputs, its value is the first output exactly when there is only one; whenever the count is not one, the value is the whole outputs tuple |
| `Stages.CheckpointedDecoderForward` | models/llama_pipeline_model.py:39-56 | succeeds iff the input is a 3-tuple with a tensor mask; on success a 3-tuple whose first element is the recompute primitive's value for the layer on `(hidden, bias of the mask, position ids)` and whose position ids and mask are unchanged |
| `Stages.DecoderForward` | models/llama_pipeline_model.py:25-27 | a missing checkpointing attribute is an attribute error, before any unpacking; a true attribute selects the checkpointed path and a false one the plain path; a non-3-tuple is an unpacking error |
| `Stages.NormForward` | models/llama_pipeline_model.py:67-70 | succeeds iff the tuple has at least one element; returns a 1-tuple built from the first element only |
| `Stages.LmForward` | models/llama_pipeline_model.py:78-81 | succeeds iff given exactly a 1-tuple, else an unpacking error; returns the 1-tuple of the projection |
| `Stages.Forward` | models/llama_pipeline_model.py:9-81 | a stage succeeds only on an arity its kind admits and then emits its kind's arity; a configured stage rejects any other arity with an unpacking error; embedding and decoder stages pass position ids and mask through |
| `Stages.CheckpointedAgreesWithPlain` | models/llama_pipeline_model.py:29-56 | plain and checkpointed paths fail alike on a malformed tuple; on a well-formed tuple they return equal results iff the layer returns exactly one output |
| `Stages.NormDiscardsTail` | models/llama_pipeline_model.py:68-70 | the norm stage gives the same result on a tuple and on its first element alone |
| `Builder.BlockCount` | models/llama_pipeline_model.py:160-161 | the number of decoder specs is `num_hidden_layers`, or zero when that is negative |
| `Builder.CheckpointFlag` | models/llama_pipeline_model.py:160 | decoders are checkpointed iff an options mapping is present |
| `Builder.ConfigureArgs` | models/llama_pipeline_model.py:147-156 | the checkpointing call is made iff the mapping is present and non-empty; each argument is the mapping's value under its own key, or false (None for the number of checkpoints) when the key is absent |
| `Builder.EmptyConfigChecksWithoutConfiguring` | models/llama_pipeline_model.py:147-160 | decoders are checkpointed without the configuration call exactly when the mapping is present but empty |
| `Builder.BuildSpecs` | models/llama_pipeline_model.py:157-164 | length `N + 3`; kinds equal the reference order (embedding, N decoders, norm, head); every decoder carries the same flag, "options present"; embedding rows and head width are both `vocab_size + 1` |
| `Builder.Instantiate` | models/llama_pipeline_model.py:20-23 | a constructed stage has its spec's kind, and a decoder stores the spec's checkpointing flag |
| `Builder.Materialize` | models/llama_pipeline_model.py:157-166 | instantiating a spec list keeps every position's kind and every decoder's flag |
| `Builder.ToLayers` | models/llama_pipeline_model.py:88-95 | the eager list as written has `len(layers) + 3` stages in the reference order, keeps each decoder layer in place, and leaves every decoder's checkpointing attribute unset |
| `Builder.ToLayersFixed` | models/llama_pipeline_model.py:59-63 | the corrected eager list has the same order and layers, and every decoder's attribute equals the argument |
| `Builder.EagerIgnoresCheckpointingArgument` | models/llama_pipeline_model.py:59-63 | the eager list as written is the same whatever checkpointing argument is given |
| `Builder.EagerMatchesSpecPath` | models/llama_pipeline_model.py:88-95 | with as many layers as configured, the corrected eager list and the instantiated spec list agree on every kind and every decoder flag |
| `Pipeline.Run` | models/llama_pipeline_model.py:157-164 | a successful run emits exactly the arity the arity-level reference fold predicts for its stage kinds |
| `Pipeline.UnpackLogits` | models/llama_pipeline_model.py:100 | the loss accepts exactly a 1-tuple and reads its element; any other arity is an unpacking error |
| `Pipeline.CanonicalArityFlow` | models/llama_pipeline_model.py:157-164 | for any N, the reference order takes a 3-tuple to a 1-tuple at the arity level |
| `Pipeline.RunAppend` | models/llama_pipeline_model.py:157-164 | running a concatenated stage list is running the first part and then the second on its result |
| `Pipeline.RunnableDecoderHandsOnFirstOutput` | models/llama_pipeline_model.py:25-56 | a decoder whose layer fits its path (at least one output on the plain path, exactly one on the checkpointed path) succeeds on a well-formed tuple and hands on the layer's first output, never a tuple of outputs |
| `Pipeline.RunDecoders` | models/llama_pipeline_model.py:25-56 | runnable decoder stages in sequence succeed on a well-formed 3-tuple and keep position ids and mask |
| `Pipeline.RunCanonical` | models/llama_pipeline_model.py:157-164 | runnable stages in the reference order take a well-formed 3-tuple to a 1-tuple the loss accepts; up to the norm stage, position ids and mask are unchanged |
| `Pipeline.CheckpointingPreservesRun` | models/llama_pipeline_model.py:39-56 | with single-output layers, a pipeline with every decoder checkpointed computes exactly what it computes with none checkpointed |
| `Pipeline.EagerAsWrittenFails` | models/llama_pipeline_model.py:59-63 | the eager list as written fails with a missing-attribute error at its first decoder, on any 3-tuple |
| `Pipeline.EagerFixedRuns` | models/llama_pipeline_model.py:88-95 | when every layer fits the path the flag selects, the corrected eager list takes a well-formed 3-tuple to a 1-tuple |
| `Pipeline.SpecPathRuns` | models/llama_pipeline_model.py:157-164 | when every decoder's weights fit the path the options select, the stages instantiated from the spec list take a well-formed 3-tuple to a 1-tuple the loss accepts |
| `Parallelism.DeriveTopology` | models/llama_pipeline_model.py:168-171 | a zero `pp*mp` is a division error; success iff `world_size % (pp*mp) == 0`, otherwise an assertion error; on success `pp*mp*dp == world_size`, and `1 <= dp <= world_size` for positive sizes |
| `Parallelism.FactorisationIsAccepted` | models/llama_pipeline_model.py:168-171 | every exact factorisation `pp*mp*dp == world_size` with a nonzero `pp*mp` is accepted, and `dp` is the unique derived degree |
| `Parallelism.StageSeed` | models/llama_pipeline_model.py:176-178 | an interior stage (`0 < stage_id < pp - 1`) gets `seed + stage_id * mp`; every other stage, the first and last included, keeps `seed` |
| `Parallelism.PipelineSeeds` | models/llama_pipeline_model.py:176-178 | the seeds of all `pp` stages: both boundary seeds equal the base seed; with `mp >= 1` every interior seed exceeds it and no two stages share a seed except the first and the last |
| `Parallelism.ShortPipelinesKeepSeed` | models/llama_pipeline_model.py:177 | with at most two stages no seed is offset |
| `Parallelism.SeedsCollideOnlyAtBoundary` | models/llama_pipeline_model.py:177-178 | with `mp >= 1`, two stages share a seed iff they are the first and the last; interior seeds exceed the base seed |
| `Parallelism.SeedsDistinctAwayFromBoundary` | models/llama_pipeline_model.py:176-178 | with `mp >= 1`, every pair of stages other than (first, last) gets different seeds, and every interior seed exceeds the base seed |
| `Parallelism.FourStageExample` | models/llama_pipeline_model.py:176-178 | `pp=4, mp=2, seed=10` gives seeds 10, 12, 14, 10 |
| `ModelPipe.GetModel` | models/llama_pipeline_model.py:144-183 | succeeds iff the topology is valid, with the topology's error otherwise; on success it holds the builder's `N + 3` specs, the configuration call, a topology with the given `pp` and `mp` whose degrees multiply to the world size, and this stage's seed |

## Findings

| source | as written | input that shows it | evidently intended | confidence | as-written member | corrected member |
|---|---|---|---|---|---|---|
| models/llama_pipeline_model.py:59-63 | `_wrap_decoder_layer` swaps the layer's class without running `ParallelTransformerLayerPipe.__init__`, so the `activation_checkpointing` attribute is never set; `forward` reads it first (line 26) and raises AttributeError | any model with at least one decoder layer, fed any 3-tuple through `_to_layers(model, ...)`; the failure is latent, because the file's only call of `_to_layers` is in the commented-out `get_model` (line 122) | the wrapped decoder carries `activation_checkpointing` from the argument, as the commented-out lines 60-61 and the lazy path (line 160) suggest | medium; not executed | `Builder.ToLayers`, shown by `Pipeline.EagerAsWrittenFails` | `Builder.ToLayersFixed`, proved by `Pipeline.EagerFixedRuns` and `Builder.EagerMatchesSpecPath` |

## Left out

- Tensor numerics are uninterpreted functions held in the stages and in `Weights` / `CausalLm`. This covers the embedding lookup, RMS normalisation, the linear projection and the decoder layer's attention and feed-forward. They are external library code.
- The stage numerics are total functions on tensors, a `Packed` tuple included. The real norm and decoder layers would raise on a tuple where a tensor is expected. The run lemmas exclude that case by requiring each decoder layer to fit its path.
- The integer cast of negative infinity in the bias (`.long()`) is left abstract as the `NegInf` value. A float-to-int64 cast of infinity is platform behaviour.
- The cross-entropy computation of `loss_fn` and its not-a-number result on an all-ignored batch are left out. This is floating-point library code. Only the 1-tuple unpacking is modelled (`Pipeline.UnpackLogits`).
- `deepspeed.checkpointing.configure` and `checkpoint` are external runtime. The model keeps only the arguments of the configuration call and the forward value of the recompute primitive, not its memory or recompute mechanics.
- `PipelineModule`, the partitioning of stages across workers and `LayerSpec` construction are external runtime. Freshly built weights are the `Weights` parameter. The configuration sizes stored in each spec are not used by the weights.
- `PipeModelDataParallelTopology`'s rank-to-coordinate mapping is external runtime. So is its handling of negative degrees. The worker's pipeline coordinate `stageId` is an input of `ModelPipe.GetModel`.
- `torch.distributed.get_rank()` is a runtime call, and the in-place update of `args.seed` is replaced by the pure `Parallelism.StageSeed`.
- The commented-out earlier version of `get_model` (lines 108-141) is dead code.
- Python's `__class__` re-tagging is modelled only by its effect: which stage kind results and which attributes the stage has.
- Python's floor `%` and `//` are modelled with Dafny's Euclidean operators. They agree on whether a remainder is zero and on the quotient of an exact division, which is all the topology check uses.
