/**
 The worker's gRPC handlers: request validation in front of the shard and
 the mapping of the shard's results onto responses and status errors.

 A nil request, a nil sub-message or a nil repeated field is `None`. A
 handler returns the response pointer (`None` when Go returns nil) and the
 error; the handlers that change the shard also return the shard after the
 call.
 */
module CollectionServer {
  import opened Outcomes
  import opened Engine
  import C = Collection

  /** The gRPC status codes these handlers produce. */
  datatype Code = InvalidArgument | Internal

  /**
   Why a status error was produced; each carries the values its message
   prints. `DimensionMismatch` keeps the two numbers in the order the
   message prints them: `expected` is the slot after "expected", `got` the
   slot after "got".
   */
  datatype Reason =
    | MissingArguments
    | DimensionMismatch(index: Option<nat>, expected: nat, got: nat)
    | LengthsDiffer
    | NoData
    | CountNotPositive
    | AddVectorsFailed(cause: C.CollectionError)
    | DetailsUnbuildable(cause: C.CollectionError)

  datatype Status = Status(code: Code, reason: Reason, details: Option<AddMultiResponse>)

  /** A status error built here, or a shard error returned as it came (gRPC reports those as Unknown). */
  datatype RpcError = StatusError(status: Status) | ShardError(cause: C.CollectionError)

  datatype VectorPB = VectorPB(values: Vector)
  datatype SearchRequest = SearchRequest(query: Option<VectorPB>, limit: nat)
  datatype SearchResponse = SearchResponse(keys: seq<Key>, distances: seq<Float32>)
  datatype AddRequest = AddRequest(key: Key, vector: Option<VectorPB>)
  datatype AddResponse = AddResponse(shardFull: bool)
  datatype AddMultiRequest = AddMultiRequest(keys: Option<seq<Key>>, vectors: Option<seq<VectorPB>>)
  datatype AddMultiResponse = AddMultiResponse(inserted: nat, shardFull: bool)
  datatype GetRequest = GetRequest(key: Key, count: int)
  datatype GetResponse = GetResponse(vector: Option<VectorPB>)
  datatype HasRequest = HasRequest(key: Key)
  datatype HasResponse = HasResponse(ok: bool)
  datatype DeleteRequest = DeleteRequest(key: Key)
  datatype DeleteResponse = DeleteResponse(ok: bool)
  datatype Empty = Empty
  datatype CountResponse = CountResponse(value: nat)

  /** A handler's answer: the response pointer and the error. */
  datatype Answer<T> = Answer(response: Option<T>, err: Option<RpcError>)

  /** A state-changing handler's answer: the shard after the call, the response pointer and the error. */
  datatype Reply<T> = Reply(after: C.Shard, response: Option<T>, err: Option<RpcError>)

  function Invalid(reason: Reason): Status {
    Status(InvalidArgument, reason, None)
  }

  function ShardFailure(e: Option<C.CollectionError>): (r: Option<RpcError>)
    ensures r.None? <==> e.None?
    ensures r.Some? ==> r.value == ShardError(e.value)
  {
    match e
    case None => None
    case Some(err) => Some(ShardError(err))
  }

  /**
   The checks in front of a one-vector request: the request and its vector
   are present and the vector has the configured length. `v` is None when
   either the request or its vector is nil. As written, the mismatch message
   prints the received length where it says "expected".
   */
  function ValidateVector(v: Option<VectorPB>, dims: nat): (r: Option<Status>)
    ensures r.None? <==> v.Some? && |v.value.values| == dims
    ensures v.None? ==> r == Some(Invalid(MissingArguments))
    ensures v.Some? && |v.value.values| != dims ==>
      r == Some(Invalid(DimensionMismatch(None, |v.value.values|, dims)))
  {
    match v
    case None => Some(Invalid(MissingArguments))
    case Some(vec) =>
      if |vec.values| != dims then Some(Invalid(DimensionMismatch(None, |vec.values|, dims))) else None
  }

  function QueryOf(req: Option<SearchRequest>): Option<VectorPB> {
    if req.Some? then req.value.query else None
  }

  function VectorOf(req: Option<AddRequest>): Option<VectorPB> {
    if req.Some? then req.value.vector else None
  }

  /** `found` is the engine's answer to the search, consulted only when the request is valid. */
  function Search(s: C.Shard, req: Option<SearchRequest>, found: Result<(seq<Key>, seq<Float32>), EngineError>): (r: Answer<SearchResponse>)
    ensures r.err.Some? && r.err.value.StatusError? <==> ValidateVector(QueryOf(req), s.config.dimensions).Some?
    ensures ValidateVector(QueryOf(req), s.config.dimensions).Some? ==>
      r == Answer(Some(SearchResponse([], [])), Some(StatusError(ValidateVector(QueryOf(req), s.config.dimensions).value)))
    ensures ValidateVector(QueryOf(req), s.config.dimensions).None? && found.Success? ==>
      r == Answer(Some(SearchResponse(found.value.0, found.value.1)), None)
    ensures ValidateVector(QueryOf(req), s.config.dimensions).None? && found.Failure? ==>
      r == Answer(None, Some(ShardError(C.CollectionError(C.SearchIndex, found.error))))
  {
    match ValidateVector(QueryOf(req), s.config.dimensions)
    case Some(st) => Answer(Some(SearchResponse([], [])), Some(StatusError(st)))
    case None =>
      match C.Search(req.value.query.value.values, req.value.limit, found)
      case Failure(e) => Answer(None, Some(ShardError(e)))
      case Success(hits) => Answer(Some(SearchResponse(hits.0, hits.1)), None)
  }

  /** `script` is the engine's answers for the batch of one, consulted only when the request is valid. */
  function Add(s: C.Shard, req: Option<AddRequest>, script: C.BatchScript): (r: Reply<AddResponse>)
    ensures r.response.Some?
    ensures ValidateVector(VectorOf(req), s.config.dimensions).Some? ==>
      r == Reply(s, Some(AddResponse(false)), Some(StatusError(ValidateVector(VectorOf(req), s.config.dimensions).value)))
    ensures ValidateVector(VectorOf(req), s.config.dimensions).None? ==>
      var res := C.Add(s, req.value.key, req.value.vector.value.values, script);
      && r.after == res.after
      && r.response.value.shardFull == res.full
      && r.err == ShardFailure(res.err)
  {
    match ValidateVector(VectorOf(req), s.config.dimensions)
    case Some(st) => Reply(s, Some(AddResponse(false)), Some(StatusError(st)))
    case None =>
      var res := C.Add(s, req.value.key, req.value.vector.value.values, script);
      Reply(res.after, Some(AddResponse(res.full)), ShardFailure(res.err))
  }

  /**
   The per-item dimension loop of AddMulti as written: at every index it
   tests the FIRST vector's length, so only that vector is ever checked.
   */
  function FirstVectorCheck(vectors: seq<VectorPB>, dims: nat, i: nat): (r: Option<Status>)
    requires 0 < |vectors| && i <= |vectors|
    ensures r.Some? <==> i < |vectors| && |vectors[0].values| != dims
    ensures r.Some? ==> r.value == Invalid(DimensionMismatch(Some(i), |vectors[0].values|, dims))
    decreases |vectors| - i
  {
    if i == |vectors| then None
    else if |vectors[0].values| != dims then Some(Invalid(DimensionMismatch(Some(i), |vectors[0].values|, dims)))
    else FirstVectorCheck(vectors, dims, i + 1)
  }

  /** The request has both repeated fields, of equal non-zero length. */
  predicate WellShaped(req: Option<AddMultiRequest>) {
    && req.Some? && req.value.keys.Some? && req.value.vectors.Some?
    && |req.value.keys.value| == |req.value.vectors.value|
    && |req.value.keys.value| > 0
  }

  /**
   The checks in front of AddMulti, in source order: presence, equal
   lengths, non-empty, then the dimension loop as written.
   */
  function ValidateBatch(req: Option<AddMultiRequest>, dims: nat): (r: Option<Status>)
    ensures r.None? <==> WellShaped(req) && |req.value.vectors.value[0].values| == dims
    ensures r.Some? ==> r.value.code == InvalidArgument && r.value.details.None?
    ensures (req.None? || req.value.keys.None? || req.value.vectors.None?) ==> r == Some(Invalid(MissingArguments))
    ensures req.Some? && req.value.keys.Some? && req.value.vectors.Some? ==>
      (|req.value.keys.value| != |req.value.vectors.value| ==> r == Some(Invalid(LengthsDiffer)))
    ensures req.Some? && req.value.keys.Some? && req.value.vectors.Some? ==>
      (|req.value.keys.value| == |req.value.vectors.value| == 0 ==> r == Some(Invalid(NoData)))
    ensures WellShaped(req) && |req.value.vectors.value[0].values| != dims ==>
      r == Some(Invalid(DimensionMismatch(Some(0), |req.value.vectors.value[0].values|, dims)))
  {
    if req.None? || req.value.vectors.None? || req.value.keys.None? then Some(Invalid(MissingArguments))
    else if |req.value.keys.value| != |req.value.vectors.value| then Some(Invalid(LengthsDiffer))
    else if |req.value.keys.value| == 0 then Some(Invalid(NoData))
    else FirstVectorCheck(req.value.vectors.value, dims, 0)
  }

  /** The vectors' values, in order (the copy loop of AddMulti). */
  function Values(vs: seq<VectorPB>): (r: seq<Vector>)
    ensures |r| == |vs|
    ensures forall i :: 0 <= i < |vs| ==> r[i] == vs[i].values
  {
    seq(|vs|, i requires 0 <= i < |vs| => vs[i].values)
  }

  /** The error AddMulti reports when the shard failed: Internal, carrying the partial result when it can be attached. */
  function BatchFailure(res: C.AddResult, detailsAttached: bool): Status
    requires res.err.Some?
  {
    if detailsAttached then Status(Internal, AddVectorsFailed(res.err.value), Some(AddMultiResponse(res.inserted, res.full)))
    else Status(Internal, DetailsUnbuildable(res.err.value), None)
  }

  /**
   `script` is the engine's answers for the batch; `detailsAttached` says
   whether attaching the partial result to the status succeeded.
   */
  function AddMulti(s: C.Shard, req: Option<AddMultiRequest>, script: C.BatchScript, detailsAttached: bool): (r: Reply<AddMultiResponse>)
    ensures r.response.Some?
    ensures ValidateBatch(req, s.config.dimensions).Some? ==>
      r == Reply(s, Some(AddMultiResponse(0, false)), Some(StatusError(ValidateBatch(req, s.config.dimensions).value)))
    ensures ValidateBatch(req, s.config.dimensions).None? ==>
      var res := C.AddMulti(s, req.value.keys.value, Values(req.value.vectors.value), script);
      && r.after == res.after
      && (res.err.None? ==> r.response.value == AddMultiResponse(res.inserted, res.full) && r.err.None?)
      && (res.err.Some? ==> r.response.value == AddMultiResponse(0, false)
                            && r.err.Some? && r.err.value.StatusError?
                            && r.err.value.status.code == Internal
                            && r.err.value.status.reason == (if detailsAttached then AddVectorsFailed(res.err.value) else DetailsUnbuildable(res.err.value))
                            && (detailsAttached ==> r.err.value.status.details == Some(AddMultiResponse(res.inserted, res.full)))
                            && (!detailsAttached ==> r.err.value.status.details.None?))
  {
    match ValidateBatch(req, s.config.dimensions)
    case Some(st) => Reply(s, Some(AddMultiResponse(0, false)), Some(StatusError(st)))
    case None =>
      var res := C.AddMulti(s, req.value.keys.value, Values(req.value.vectors.value), script);
      if res.err.Some? then Reply(res.after, Some(AddMultiResponse(0, false)), Some(StatusError(BatchFailure(res, detailsAttached))))
      else Reply(res.after, Some(AddMultiResponse(res.inserted, res.full)), None)
  }

  /** `found` is the engine's answer to the lookup, consulted only when the request is valid. */
  function Get(req: Option<GetRequest>, found: Result<Vector, EngineError>): (r: Answer<GetResponse>)
    ensures req.None? ==> r == Answer(Some(GetResponse(None)), Some(StatusError(Invalid(MissingArguments))))
    ensures req.Some? && req.value.count <= 0 ==>
      r == Answer(Some(GetResponse(None)), Some(StatusError(Invalid(CountNotPositive))))
    ensures req.Some? && req.value.count > 0 ==>
      (found.Success? ==> r == Answer(Some(GetResponse(Some(VectorPB(found.value)))), None))
      && (found.Failure? ==> r == Answer(None, Some(ShardError(C.CollectionError(C.GetVector, found.error)))))
  {
    if req.None? then Answer(Some(GetResponse(None)), Some(StatusError(Invalid(MissingArguments))))
    else if req.value.count <= 0 then Answer(Some(GetResponse(None)), Some(StatusError(Invalid(CountNotPositive))))
    else match C.Get(req.value.key, req.value.count as nat, found)
      case Failure(e) => Answer(None, Some(ShardError(e)))
      case Success(vec) => Answer(Some(GetResponse(Some(VectorPB(vec)))), None)
  }

  /** `found` is the engine's answer to the lookup of one vector that the shard's Has makes. */
  function Has(req: Option<HasRequest>, found: Result<Vector, EngineError>): (r: Answer<HasResponse>)
    ensures r.response.Some?
    ensures r.err.None? <==> req.Some?
    ensures req.None? ==> r.err == Some(StatusError(Invalid(MissingArguments)))
    ensures req.Some? ==> (r.response.value.ok <==> C.Get(req.value.key, 1, found).Success?)
  {
    if req.None? then Answer(Some(HasResponse(false)), Some(StatusError(Invalid(MissingArguments))))
    else Answer(Some(HasResponse(C.Has(req.value.key, found))), None)
  }

  /** `removal` is the engine's answer to the removal, consulted only when the request is present. */
  function Delete(s: C.Shard, req: Option<DeleteRequest>, removal: Option<EngineError>): (r: Reply<DeleteResponse>)
    ensures r.response.Some?
    ensures r.response.value.ok <==> r.err.None?
    ensures req.None? ==> r == Reply(s, Some(DeleteResponse(false)), Some(StatusError(Invalid(MissingArguments))))
    ensures req.Some? ==>
      var res := C.Delete(s, req.value.key, removal);
      r.after == res.after && r.err == ShardFailure(res.err)
  {
    if req.None? then Reply(s, Some(DeleteResponse(false)), Some(StatusError(Invalid(MissingArguments))))
    else
      var res := C.Delete(s, req.value.key, removal);
      Reply(res.after, Some(DeleteResponse(res.err.None?)), ShardFailure(res.err))
  }

  /** Saving always answers with an empty message, paired with the shard's save error if any. */
  function Save(written: Option<EngineError>): (r: Answer<Empty>)
    ensures r.response == Some(Empty)
    ensures r.err.None? <==> written.None?
    ensures r.err.Some? ==> r.err == Some(ShardError(C.CollectionError(C.SaveIndex, written.value)))
  {
    Answer(Some(Empty), ShardFailure(C.Save(written)))
  }

  /** Length, Capacity and Size share one shape: the value on success, no response and the shard's error otherwise. */
  function CountAnswer(res: Result<nat, C.CollectionError>): (r: Answer<CountResponse>)
    ensures res.Success? ==> r == Answer(Some(CountResponse(res.value)), None)
    ensures res.Failure? ==> r == Answer(None, Some(ShardError(res.error)))
  {
    match res
    case Success(n) => Answer(Some(CountResponse(n)), None)
    case Failure(e) => Answer(None, Some(ShardError(e)))
  }

  function Length(answer: Result<nat, EngineError>): (r: Answer<CountResponse>)
    ensures answer.Success? <==> r.err.None?
    ensures answer.Success? ==> r.response == Some(CountResponse(answer.value))
    ensures answer.Failure? ==> r == Answer(None, Some(ShardError(C.CollectionError(C.ReadLength, answer.error))))
  {
    CountAnswer(C.Length(answer))
  }

  function Capacity(answer: Result<nat, EngineError>): (r: Answer<CountResponse>)
    ensures answer.Success? <==> r.err.None?
    ensures answer.Success? ==> r.response == Some(CountResponse(answer.value))
    ensures answer.Failure? ==> r == Answer(None, Some(ShardError(C.CollectionError(C.ReadCapacity, answer.error))))
  {
    CountAnswer(C.Capacity(answer))
  }

  function Size(answer: Result<nat, EngineError>): (r: Answer<CountResponse>)
    ensures answer.Success? <==> r.err.None?
    ensures answer.Success? ==> r.response == Some(CountResponse(answer.value))
    ensures answer.Failure? ==> r == Answer(None, Some(ShardError(C.CollectionError(C.ReadSize, answer.error))))
  {
    CountAnswer(C.Size(answer))
  }
}
