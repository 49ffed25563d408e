/**
 Properties of the gRPC handlers: what validation lets through, what it
 keeps away from the shard, and the per-item dimension check the batch
 handler evidently meant to make.
 */
module ServerProperties {
  import opened Outcomes
  import opened Engine
  import CC = CollectionConfig
  import C = Collection
  import opened CollectionServer

  /** A rejected batch never reaches the engine: the reply is the same whatever the engine would have answered. */
  lemma RejectedBatchIgnoresEngine(s: C.Shard, req: Option<AddMultiRequest>, a: C.BatchScript, b: C.BatchScript, da: bool, db: bool)
    requires ValidateBatch(req, s.config.dimensions).Some?
    ensures AddMulti(s, req, a, da) == AddMulti(s, req, b, db)
    ensures AddMulti(s, req, a, da).after == s
  {
  }

  /** A rejected single add never reaches the engine and leaves the shard as it was. */
  lemma RejectedAddIgnoresEngine(s: C.Shard, req: Option<AddRequest>, a: C.BatchScript, b: C.BatchScript)
    requires ValidateVector(VectorOf(req), s.config.dimensions).Some?
    ensures Add(s, req, a) == Add(s, req, b)
    ensures Add(s, req, a).after == s
  {
  }

  /** As written, a dimension-mismatch message never names the configured dimension as the expected one. */
  lemma MismatchMessageSwapsNumbers(dims: nat, v: VectorPB)
    requires |v.values| != dims
    ensures var r := ValidateVector(Some(v), dims);
      r.Some? && r.value.reason.DimensionMismatch? && r.value.reason.expected != dims && r.value.reason.got == dims
  {
  }

  /** A 3-component vector sent to a 128-dimension shard is refused as an invalid argument and nothing is inserted. */
  lemma ShortVectorRefused(s: C.Shard, key: Key, script: C.BatchScript)
    requires s.config.dimensions == 128
    ensures var v := VectorPB([Float32(0), Float32(0), Float32(0)]);
      var r := Add(s, Some(AddRequest(key, Some(v))), script);
      r.after == s && r.err.Some? && r.err.value.StatusError? && r.err.value.status.code == InvalidArgument
  {
  }

  /** A lookup of zero vectors is refused as an invalid argument whatever the engine holds. */
  lemma ZeroCountRefused(key: Key, found: Result<Vector, EngineError>)
    ensures var r := Get(Some(GetRequest(key, 0)), found);
      r.err == Some(StatusError(Invalid(CountNotPositive)))
  {
  }

  // ---------------------------------------------------------------------------
  // The batch dimension check

  /**
   The per-item check the batch handler's message describes ("vector %d"):
   every vector is tested, and the first one of the wrong length is reported
   with its index, the configured dimension and its own length.
   */
  function PerItemCheck(vectors: seq<VectorPB>, dims: nat, i: nat): (r: Option<Status>)
    requires i <= |vectors|
    ensures r.None? <==> forall j :: i <= j < |vectors| ==> |vectors[j].values| == dims
    ensures r.Some? ==> r.value.code == InvalidArgument && r.value.details.None?
    ensures r.Some? ==> r.value.reason.DimensionMismatch? && r.value.reason.index.Some?
    ensures r.Some? ==>
      var j := r.value.reason.index.value;
      && i <= j < |vectors|
      && |vectors[j].values| != dims
      && (forall t :: i <= t < j ==> |vectors[t].values| == dims)
      && r.value.reason.expected == dims
      && r.value.reason.got == |vectors[j].values|
    decreases |vectors| - i
  {
    if i == |vectors| then None
    else if |vectors[i].values| != dims then Some(Invalid(DimensionMismatch(Some(i), dims, |vectors[i].values|)))
    else PerItemCheck(vectors, dims, i + 1)
  }

  /** The batch checks with the per-item dimension test in place of the first-vector one. */
  function ValidateBatchPerItem(req: Option<AddMultiRequest>, dims: nat): (r: Option<Status>)
    ensures r.None? <==>
      WellShaped(req) && forall j :: 0 <= j < |req.value.vectors.value| ==> |req.value.vectors.value[j].values| == dims
    ensures !WellShaped(req) ==> r == ValidateBatch(req, dims)
  {
    if !WellShaped(req) then ValidateBatch(req, dims)
    else PerItemCheck(req.value.vectors.value, dims, 0)
  }

  /** The per-item check refuses everything the first-vector check refuses. */
  lemma PerItemIsStricter(req: Option<AddMultiRequest>, dims: nat)
    ensures ValidateBatch(req, dims).Some? ==> ValidateBatchPerItem(req, dims).Some?
  {
  }

  /** With the per-item check, every vector handed to the shard has the configured length. */
  lemma PerItemAdmitsOnlyRightLengths(req: Option<AddMultiRequest>, dims: nat, j: nat)
    requires ValidateBatchPerItem(req, dims).None?
    requires j < |Values(req.value.vectors.value)|
    ensures |Values(req.value.vectors.value)[j]| == dims
  {
  }

  /** A vector of `n` zero components. */
  function Zeros(n: nat): Vector {
    seq(n, i => Float32(0))
  }

  /**
   A two-item batch for a 2-dimension shard whose second vector has one
   component: the first-vector check accepts it, the shard stores the short
   vector under the second key, and the per-item check refuses the batch at
   index 1.
   */
  lemma FirstVectorCheckAdmitsShortVector()
    ensures
      var s := C.Shard(map[], false, CC.NewCollectionConfig().(dimensions := 2, maxSize := 1000));
      var req := Some(AddMultiRequest(Some([7, 8]), Some([VectorPB(Zeros(2)), VectorPB(Zeros(1))])));
      var script := C.BatchScript(None, Success(10), (i: nat) => C.Step(None, Success(10)));
      var r := AddMulti(s, req, script, true);
      && ValidateBatch(req, 2).None?
      && r.err.None? && r.response == Some(AddMultiResponse(2, false))
      && 8 in r.after.entries && |r.after.entries[8]| != 2
      && ValidateBatchPerItem(req, 2) == Some(Invalid(DimensionMismatch(Some(1), 2, 1)))
  {
  }
}
