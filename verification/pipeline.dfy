/** Running a list of stages front to back, as the pipeline engine does across its
    workers, and what the stage lists built by the builder do when run. */
module Pipeline {
  import opened Outcomes
  import opened Tensors
  import opened Stages
  import opened Builder

  /** The arity-level pipeline: feeds a tuple arity through the kinds' contracts and
      yields the final arity, or None at the first stage that cannot unpack its input. */
  function FlowArity(kinds: seq<StageKind>, arity: nat): Option<nat>
    decreases |kinds|
  {
    if |kinds| == 0 then Some(arity)
    else if Admits(InputArity(kinds[0]), arity) then FlowArity(kinds[1..], OutputArity(kinds[0]))
    else None
  }

  /** Feeding a tuple through the stages in order; the first failing stage's error is
      the pipeline's error. A successful run emits exactly the arity the arity-level
      pipeline predicts. */
  function Run(stages: seq<Stage>, args: Tuple): (r: Result<Tuple>)
    ensures r.Ok? ==> FlowArity(StageKinds(stages), |args|) == Some(|r.value|)
    decreases |stages|
  {
    if |stages| == 0 then Ok(args)
    else
      assert StageKinds(stages[1..]) == StageKinds(stages)[1..];
      var out :- Forward(stages[0], args);
      Run(stages[1..], out)
  }

  /** The loss function's unpacking of the final tuple: it accepts only a 1-tuple. */
  function UnpackLogits(outputs: Tuple): (r: Result<Tensor>)
    ensures r.Ok? <==> |outputs| == 1
    ensures r.Ok? ==> r.value == outputs[0]
    ensures !r.Ok? ==> r.error == UnpackMismatch(Exactly(1), |outputs|)
  {
    if |outputs| != 1 then Err(UnpackMismatch(Exactly(1), |outputs|)) else Ok(outputs[0])
  }

  /** A layer that always returns at least one output, so `outputs[0]` exists. */
  ghost predicate ProducesOutput(layer: DecoderLayer) {
    forall h, bias, p :: |layer(h, bias, p)| >= 1
  }

  /** A layer that always returns exactly one output. */
  ghost predicate SingleOutput(layer: DecoderLayer) {
    forall h, bias, p :: |layer(h, bias, p)| == 1
  }

  /** The condition a decoder layer must meet on the given path: the plain path needs
      `outputs[0]` to exist; the checkpointed path needs exactly one output, or the
      recompute primitive hands a tuple on where the next stage expects a tensor. */
  ghost predicate LayerFitsPath(layer: DecoderLayer, checkpointed: bool) {
    if checkpointed then SingleOutput(layer) else ProducesOutput(layer)
  }

  /** A stage that never fails on a well-formed tuple and never hands on a tuple as its
      hidden state: a decoder must carry its checkpointing attribute and its layer must
      fit the path that attribute selects. */
  ghost predicate Runnable(s: Stage) {
    s.DecoderPipe? ==> s.checkpointing.Some? && LayerFitsPath(s.layer, s.checkpointing.value)
  }

  /** A 3-tuple whose mask is a tensor: what the first stage is fed. */
  predicate WellFormedInput(args: Tuple) {
    |args| == 3 && args[2].Data?
  }

  lemma {:induction false} FlowFromDecoders(n: nat, k: nat)
    requires 1 <= k <= n + 1
    ensures FlowArity(CanonicalKinds(n)[k..], 3) == Some(1)
    decreases n + 1 - k
  {
    var ks := CanonicalKinds(n)[k..];
    if k <= n {
      assert ks[0] == DecoderKind;
      assert ks[1..] == CanonicalKinds(n)[k + 1..];
      FlowFromDecoders(n, k + 1);
    } else {
      assert ks == [NormKind, LmHeadKind];
      assert ks[1..] == [LmHeadKind];
      assert ks[1..][1..] == [];
      assert FlowArity(ks[1..][1..], 1) == Some(1);
      assert FlowArity(ks[1..], 1) == Some(1);
    }
  }

  /** The builder's stage order composes: a 3-tuple enters and a 1-tuple leaves. */
  lemma CanonicalArityFlow(n: nat)
    ensures FlowArity(CanonicalKinds(n), 3) == Some(1)
  {
    FlowFromDecoders(n, 1);
    assert CanonicalKinds(n)[1..] == CanonicalKinds(n)[1..][0..];
  }

  /** Running two stage lists one after the other is running their concatenation. */
  lemma {:induction false} RunAppend(a: seq<Stage>, b: seq<Stage>, args: Tuple)
    ensures Run(a + b, args) == (match Run(a, args) case Ok(mid) => Run(b, mid) case Err(e) => Err(e))
    decreases |a|
  {
    if |a| == 0 {
      assert a + b == b;
    } else {
      assert (a + b)[0] == a[0];
      assert (a + b)[1..] == a[1..] + b;
      match Forward(a[0], args)
      case Err(_) =>
      case Ok(out) => RunAppend(a[1..], b, out);
    }
  }

  /** A runnable decoder stage, on either path, succeeds on a well-formed tuple and
      hands on the layer's first output itself, never a tuple of outputs. */
  lemma RunnableDecoderHandsOnFirstOutput(s: Stage, args: Tuple)
    requires s.DecoderPipe? && Runnable(s)
    requires WellFormedInput(args)
    ensures Forward(s, args).Ok?
    ensures Forward(s, args).value[0] == s.layer(args[0], MaskToBias(args[2]).value, args[1])[0]
  {
  }

  /** A run of runnable decoder stages succeeds on a well-formed tuple and hands on
      position ids and mask unchanged. */
  lemma {:induction false} RunDecoders(ds: seq<Stage>, args: Tuple)
    requires forall i :: 0 <= i < |ds| ==> ds[i].DecoderPipe? && Runnable(ds[i])
    requires WellFormedInput(args)
    ensures Run(ds, args).Ok?
    ensures |Run(ds, args).value| == 3 && Run(ds, args).value[1..] == args[1..]
    decreases |ds|
  {
    if |ds| > 0 {
      var out := Forward(ds[0], args);
      assert out.Ok?;
      assert out.value[2] == out.value[1..][1] == args[1..][1] == args[2];
      RunDecoders(ds[1..], out.value);
    }
  }

  /** A stage list in the builder's order whose stages are all runnable turns a
      well-formed 3-tuple into a 1-tuple; up to the normalisation stage position ids
      and mask pass through unchanged. */
  lemma RunCanonical(stages: seq<Stage>, args: Tuple)
    requires |stages| >= 3 && StageKinds(stages) == CanonicalKinds(|stages| - 3)
    requires forall i :: 0 <= i < |stages| ==> Runnable(stages[i])
    requires WellFormedInput(args)
    ensures Run(stages[..|stages| - 2], args).Ok?
    ensures |Run(stages[..|stages| - 2], args).value| == 3
    ensures Run(stages[..|stages| - 2], args).value[1..] == args[1..]
    ensures Run(stages, args).Ok? && |Run(stages, args).value| == 1
    ensures UnpackLogits(Run(stages, args).value).Ok?
  {
    var n := |stages| - 3;
    var ks := StageKinds(stages);
    assert ks[0] == CanonicalKinds(n)[0] == EmbeddingKind;
    forall i | 1 <= i <= n
      ensures stages[i].DecoderPipe?
    {
      assert ks[i] == CanonicalKinds(n)[i] == DecoderKind;
    }
    assert ks[n + 1] == CanonicalKinds(n)[n + 1] == NormKind;
    assert ks[n + 2] == CanonicalKinds(n)[n + 2] == LmHeadKind;

    var prefix := stages[..n + 1];
    var tail := stages[n + 1..];
    assert stages == prefix + tail;
    var emb := Forward(stages[0], args);
    assert emb.Ok?;
    assert emb.value[2] == emb.value[1..][1] == args[1..][1] == args[2];
    assert prefix[1..] == stages[1..n + 1];
    RunDecoders(prefix[1..], emb.value);
    var mid := Run(prefix, args).value;
    assert mid[2] == mid[1..][1] == args[1..][1] == args[2];
    RunAppend(prefix, tail, args);
    assert tail[1..] == [stages[n + 2]];
    assert tail[1..][1..] == [];
    var normed := Forward(tail[0], mid);
    assert normed.Ok? && |normed.value| == 1;
    var logits := Forward(tail[1], normed.value);
    assert logits.Ok?;
    assert Run(tail[1..][1..], logits.value) == Ok(logits.value);
    assert Run(tail[1..], normed.value) == Ok(logits.value);
    assert Run(tail, mid) == Ok(logits.value);
    CanonicalArityFlow(n);
  }

  /** Sets every decoder's checkpointing attribute to `flag`, leaving other stages alone. */
  function WithCheckpointing(stages: seq<Stage>, flag: bool): (r: seq<Stage>)
    ensures |r| == |stages| && StageKinds(r) == StageKinds(stages)
    ensures forall i :: 0 <= i < |r| && r[i].DecoderPipe? ==> r[i].checkpointing == Some(flag)
  {
    seq(|stages|, i requires 0 <= i < |stages| =>
      if stages[i].DecoderPipe? then DecoderPipe(stages[i].layer, Some(flag)) else stages[i])
  }

  /** Turning activation checkpointing on or off never changes what a pipeline computes,
      provided every decoder layer returns a single output. */
  lemma {:induction false} CheckpointingPreservesRun(stages: seq<Stage>, args: Tuple)
    requires forall i :: 0 <= i < |stages| && stages[i].DecoderPipe? ==> SingleOutput(stages[i].layer)
    ensures Run(WithCheckpointing(stages, true), args) == Run(WithCheckpointing(stages, false), args)
    decreases |stages|
  {
    if |stages| > 0 {
      var on := WithCheckpointing(stages, true);
      var off := WithCheckpointing(stages, false);
      assert on[1..] == WithCheckpointing(stages[1..], true);
      assert off[1..] == WithCheckpointing(stages[1..], false);
      if stages[0].DecoderPipe? {
        CheckpointedAgreesWithPlain(stages[0].layer, args);
        assert Forward(on[0], args) == Forward(off[0], args);
      } else {
        assert on[0] == off[0] == stages[0];
      }
      match Forward(on[0], args)
      case Err(_) =>
      case Ok(out) => CheckpointingPreservesRun(stages[1..], out);
    }
  }

  /** The eager path as written fails at its first decoder stage, whatever it was given:
      the decoder's checkpointing attribute does not exist. */
  lemma EagerAsWrittenFails(m: CausalLm, flag: bool, args: Tuple)
    requires |m.layers| >= 1 && |args| == 3
    ensures Run(ToLayers(m, flag), args) == Err(MissingAttribute("activation_checkpointing"))
  {
  }

  /** The corrected eager path runs a well-formed 3-tuple to a 1-tuple. */
  lemma EagerFixedRuns(m: CausalLm, flag: bool, args: Tuple)
    requires forall i :: 0 <= i < |m.layers| ==> LayerFitsPath(m.layers[i], flag)
    requires WellFormedInput(args)
    ensures Run(ToLayersFixed(m, flag), args).Ok? && |Run(ToLayersFixed(m, flag), args).value| == 1
  {
    var stages := ToLayersFixed(m, flag);
    forall i | 0 <= i < |stages|
      ensures Runnable(stages[i])
    {
      if 1 <= i <= |m.layers| {
        assert stages[i].layer == m.layers[i - 1];
      } else {
        assert StageKinds(stages)[i] == CanonicalKinds(|m.layers|)[i];
      }
    }
    RunCanonical(stages, args);
  }

  /** The stages instantiated from the builder's spec list run a well-formed 3-tuple to
      a 1-tuple that the loss function accepts. */
  lemma SpecPathRuns(c: ModelConfig, cfg: Option<CheckpointingConfig>, w: Weights, args: Tuple)
    requires forall i :: 1 <= i <= BlockCount(c) ==> LayerFitsPath(w.decoder(i), cfg.Some?)
    requires WellFormedInput(args)
    ensures Run(Materialize(BuildSpecs(c, cfg), w), args).Ok?
    ensures UnpackLogits(Run(Materialize(BuildSpecs(c, cfg), w), args).value).Ok?
  {
    var specs := BuildSpecs(c, cfg);
    var stages := Materialize(specs, w);
    forall i | 0 <= i < |stages|
      ensures Runnable(stages[i])
    {
      if 1 <= i <= BlockCount(c) {
        assert specs[i] == DecoderSpec(c, cfg.Some?);
        assert stages[i] == Instantiate(specs[i], i, w);
      } else {
        assert StageKinds(stages)[i] == SpecKinds(specs)[i] == CanonicalKinds(BlockCount(c))[i];
      }
    }
    RunCanonical(stages, args);
  }
}
