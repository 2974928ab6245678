/** Assembling the pipeline: validate the topology, offset the seed of this worker's
    stage, and hand the lazy spec list to the pipeline engine. */
module ModelPipe {
  import opened Outcomes
  import opened Builder
  import opened Parallelism

  /** The caller-supplied arguments the assembly reads. */
  datatype PipelineArgs = PipelineArgs(pipeParallelSize: int, modelParallelSize: int, worldSize: int, seed: int)

  /** What the pipeline engine is constructed from: the lazy layer list, the topology,
      the base seed of this worker, and the checkpointing configuration call if any. */
  datatype PipelineModel = PipelineModel(
    layers: seq<LayerSpec>,
    topology: Topology,
    baseSeed: int,
    configure: Option<ConfigureCall>)

  /** The whole assembly for the worker whose pipeline coordinate is `stageId`. An
      invalid topology fails before any layer or configuration call is made; otherwise
      the base seed is the stage's seed and the layer list is the builder's. */
  function GetModel(c: ModelConfig, args: PipelineArgs, cfg: Option<CheckpointingConfig>, stageId: int)
    : (r: Result<PipelineModel>)
    ensures r.Ok? <==> args.pipeParallelSize * args.modelParallelSize != 0
                       && args.worldSize % (args.pipeParallelSize * args.modelParallelSize) == 0
    ensures r.Err? ==> r == DeriveTopology(args.worldSize, args.pipeParallelSize, args.modelParallelSize).PropagateFailure()
    ensures r.Ok? ==> |r.value.layers| == BlockCount(c) + 3
    ensures r.Ok? ==> r.value.layers == BuildSpecs(c, cfg) && r.value.configure == ConfigureArgs(cfg)
    ensures r.Ok? ==> r.value.topology.numPp == args.pipeParallelSize
                      && r.value.topology.numMp == args.modelParallelSize
    ensures r.Ok? ==> r.value.topology.numPp * r.value.topology.numMp * r.value.topology.numDp == args.worldSize
    ensures r.Ok? ==> r.value.baseSeed == StageSeed(args.seed, stageId, args.pipeParallelSize, args.modelParallelSize)
  {
    var topo :- DeriveTopology(args.worldSize, args.pipeParallelSize, args.modelParallelSize);
    var seed := StageSeed(args.seed, stageId, topo.numPp, args.modelParallelSize);
    Ok(PipelineModel(BuildSpecs(c, cfg), topo, seed, ConfigureArgs(cfg)))
  }
}
