/** The process topology and the per-stage seed offset: the integer arithmetic that
    validates the parallelism degrees and decorrelates interior pipeline stages. */
module Parallelism {
  import opened Outcomes

  /** Pipeline, model-parallel and data-parallel degrees. */
  datatype Topology = Topology(numPp: int, numMp: int, numDp: int)

  /** An exact Euclidean division multiplies back. */
  lemma DivExact(w: int, q: int)
    requires q != 0 && w % q == 0
    ensures q * (w / q) == w
  {
  }

  /** A positive factor of a positive product lies between one and the product. */
  lemma FactorBounds(q: int, d: int, w: int)
    requires q >= 1 && w >= 1 && q * d == w
    ensures 1 <= d <= w
  {
  }

  /** Checks that the world divides into `pp * mp` groups and derives the data-parallel
      degree. Python's `%` and `//` round toward negative infinity while Dafny's are
      Euclidean; they agree on whether a remainder is zero and on the quotient of an
      exact division, which is all this uses. */
  function DeriveTopology(worldSize: int, pp: int, mp: int): (r: Result<Topology>)
    ensures pp * mp == 0 <==> r == Err(ZeroDivision)
    ensures r.Ok? <==> pp * mp != 0 && worldSize % (pp * mp) == 0
    ensures r.Err? && pp * mp != 0 ==> r.error == AssertionFailed
    ensures r.Ok? ==> r.value.numPp == pp && r.value.numMp == mp
    ensures r.Ok? ==> r.value.numPp * r.value.numMp * r.value.numDp == worldSize
    ensures r.Ok? && pp * mp > 0 && worldSize > 0 ==> 1 <= r.value.numDp <= worldSize
  {
    var q := pp * mp;
    if q == 0 then Err(ZeroDivision)
    else if worldSize % q != 0 then Err(AssertionFailed)
    else
      var dp := worldSize / q;
      DivExact(worldSize, q);
      if q > 0 && worldSize > 0 then FactorBounds(q, dp, worldSize); Ok(Topology(pp, mp, dp))
      else Ok(Topology(pp, mp, dp))
  }

  /** A multiple of a positive `a` that lies in `[0, a)` is the zero multiple. */
  lemma SmallMultipleIsZero(k: int, a: int, r: int)
    requires a >= 1 && k * a == r && 0 <= r < a
    ensures k == 0
  {
  }

  /** Euclidean division recovers the factor of an exact product. */
  lemma ProductQuotient(q: int, d: int)
    requires q != 0
    ensures (q * d) % q == 0 && (q * d) / q == d
  {
    var w := q * d;
    var r := w % q;
    var d' := w / q;
    var aq := if q > 0 then q else -q;
    var k := if q > 0 then d - d' else d' - d;
    assert w == q * d' + r && 0 <= r < aq;
    assert q * (d - d') == r;
    assert k * aq == r;
    SmallMultipleIsZero(k, aq, r);
  }

  /** Every exact factorisation of the world is accepted, and the data-parallel degree is
      the unique factor that completes it. */
  lemma FactorisationIsAccepted(worldSize: int, pp: int, mp: int, dp: int)
    requires pp * mp != 0 && pp * mp * dp == worldSize
    ensures DeriveTopology(worldSize, pp, mp) == Ok(Topology(pp, mp, dp))
  {
    ProductQuotient(pp * mp, dp);
  }

  /** The seed a stage hands to the pipeline engine: interior stages (neither the first
      nor the last) add `stage_id * mp`; the boundary stages keep the base seed. */
  function StageSeed(seed: int, stageId: int, pipeDim: int, mp: int): (s: int)
    ensures s != seed ==> 0 < stageId < pipeDim - 1
    ensures stageId == 0 || stageId == pipeDim - 1 ==> s == seed
    ensures 0 < stageId < pipeDim - 1 ==> s == seed + stageId * mp
    ensures !(0 < stageId < pipeDim - 1) ==> s == seed
  {
    if 0 < stageId < pipeDim - 1 then seed + stageId * mp else seed
  }

  /** The seeds of all stages of a `pp`-stage pipeline, in stage order, as the workers
      compute them one each. Both boundary stages keep the base seed; with `mp >= 1`
      every interior seed exceeds it, and no two stages share a seed except the two
      boundary stages. */
  function PipelineSeeds(seed: int, pp: nat, mp: int): (seeds: seq<int>)
    ensures |seeds| == pp
    ensures forall s :: 0 <= s < pp ==> seeds[s] == StageSeed(seed, s, pp, mp)
    ensures pp >= 1 ==> seeds[0] == seed && seeds[pp - 1] == seed
    ensures mp >= 1 ==> forall s :: 0 < s < pp - 1 ==> seeds[s] > seed
    ensures mp >= 1 ==>
      forall a, b :: 0 <= a < b < pp && !(a == 0 && b == pp - 1) ==> seeds[a] != seeds[b]
  {
    var seeds := seq(pp, s => StageSeed(seed, s, pp, mp));
    if mp >= 1 then
      SeedsDistinctAwayFromBoundary(seed, pp, mp);
      seeds
    else seeds
  }

  /** With at most two stages there is no interior stage, so no seed is offset. */
  lemma ShortPipelinesKeepSeed(seed: int, pp: int, mp: int)
    requires pp <= 2
    ensures forall s :: StageSeed(seed, s, pp, mp) == seed
  {
  }

  /** With `mp >= 1` two different stages share a seed only when they are the two
      boundary stages; every interior seed differs from the base seed. */
  lemma SeedsCollideOnlyAtBoundary(seed: int, pp: int, mp: int, a: int, b: int)
    requires mp >= 1 && 0 <= a < b < pp
    ensures StageSeed(seed, a, pp, mp) == StageSeed(seed, b, pp, mp) <==> a == 0 && b == pp - 1
    ensures 0 < a < pp - 1 ==> StageSeed(seed, a, pp, mp) > seed
  {
  }

  /** All pairs of stages at once: only the two boundary stages share a seed. */
  lemma SeedsDistinctAwayFromBoundary(seed: int, pp: int, mp: int)
    requires mp >= 1
    ensures forall a, b :: 0 <= a < b < pp && !(a == 0 && b == pp - 1) ==>
      StageSeed(seed, a, pp, mp) != StageSeed(seed, b, pp, mp)
    ensures forall a :: 0 < a < pp - 1 ==> StageSeed(seed, a, pp, mp) > seed
  {
  }

  /** Four stages, two-way model parallelism, base seed 10. */
  lemma FourStageExample()
    ensures PipelineSeeds(10, 4, 2) == [10, 12, 14, 10]
  {
  }
}
