/**
 The shard: one usearch index plus the `isFull` flag that records whether
 the index's serialized size has reached the configured budget.

 Every operation is a pure function from the shard before the call and the
 engine's answers during the call to the shard after the call and the
 values Go returns. The engine's answers come in as parameters: a
 `BatchScript` for the sequence of calls `AddMulti` makes, a single
 response for every other operation.
 */
module Collection {
  import opened Outcomes
  import opened Engine
  import CC = CollectionConfig

  /** The operation whose engine call failed; `Describe` gives the text each error is prefixed with. */
  datatype Context =
    | CreateIndex | LoadFromPath | ReadSize | SearchIndex | ReserveSpace | AddVector
    | GetVector | DeleteVector | ReadLength | ReadCapacity | SaveIndex

  function Describe(ctx: Context): string {
    match ctx
    case CreateIndex => "failed to create index"
    case LoadFromPath => "failed to load collection from path"
    case ReadSize => "failed to get size of index"
    case SearchIndex => "failed to search"
    case ReserveSpace => "failed to reserve space in index"
    case AddVector => "failed to add vector to index"
    case GetVector => "failed to get vector from index"
    case DeleteVector => "failed to delete vector from index"
    case ReadLength => "failed to get length of index"
    case ReadCapacity => "failed to get capacity of index"
    case SaveIndex => "failed to save index"
  }

  /** An engine error wrapped with the operation that met it (Go's `fmt.Errorf("...: %w", err)`). */
  datatype CollectionError = CollectionError(context: Context, cause: EngineError) {
    function Message(): string {
      Describe(context) + ": " + cause.message
    }
  }

  /** Go's Collection: the index contents, the fullness flag and the configuration. */
  datatype Shard = Shard(entries: Entries, isFull: bool, config: CC.Config)

  /** The shard after a state-changing call, and the error the call returned. */
  datatype Mutated = Mutated(after: Shard, err: Option<CollectionError>)

  /** Passes an engine answer through, wrapping a failure with the operation that met it. */
  function Wrap<T>(ctx: Context, answer: Result<T, EngineError>): (r: Result<T, CollectionError>)
    ensures r.Success? <==> answer.Success?
    ensures r.Success? ==> r.value == answer.value
    ensures r.Failure? ==> r.error == CollectionError(ctx, answer.error)
  {
    match answer
    case Success(v) => Success(v)
    case Failure(e) => Failure(CollectionError(ctx, e))
  }

  /** A new shard over a freshly created index, given whether usearch.NewIndex failed. */
  function NewCollection(config: CC.Config, created: Option<EngineError>): (r: Result<Shard, CollectionError>)
    ensures r.Success? <==> created.None?
    ensures r.Success? ==> r.value.entries == map[] && !r.value.isFull && r.value.config == config
    ensures r.Failure? ==> r.error == CollectionError(CreateIndex, created.value)
  {
    match created
    case None => Success(Shard(map[], false, config))
    case Some(e) => Failure(CollectionError(CreateIndex, e))
  }

  /**
   Loads a persisted index. `loaded` is the engine's answer to loading the
   path (the contents it now holds), `size` its serialized length afterwards.
   */
  function Load(s: Shard, loaded: Result<Entries, EngineError>, size: Result<nat, EngineError>): (r: Mutated)
    ensures r.after.config == s.config
    ensures r.after.isFull <==> s.isFull || (loaded.Success? && size.Success? && size.value >= s.config.maxSize)
    ensures r.err.None? <==> loaded.Success? && size.Success?
    ensures loaded.Failure? ==> r == Mutated(s, Some(CollectionError(LoadFromPath, loaded.error)))
    ensures loaded.Success? ==> r.after.entries == loaded.value
    ensures loaded.Success? && size.Failure? ==> r.err == Some(CollectionError(ReadSize, size.error))
  {
    match loaded
    case Failure(e) => Mutated(s, Some(CollectionError(LoadFromPath, e)))
    case Success(contents) =>
      var s' := s.(entries := contents);
      match size
      case Failure(e) => Mutated(s', Some(CollectionError(ReadSize, e)))
      case Success(n) => Mutated(if n >= s.config.maxSize then s'.(isFull := true) else s', None)
  }

  // ---------------------------------------------------------------------------
  // Insertion

  /** The engine's answers for the i-th item of a batch: the add itself, then the size read after it. */
  datatype Step = Step(add: Option<EngineError>, size: Result<nat, EngineError>)

  /**
   Every answer the engine gives during one AddMulti call, in call order:
   the reservation, the size read before the first insert, then one `Step`
   per item attempted.
   */
  datatype BatchScript = BatchScript(
    reserve: Option<EngineError>,
    initialSize: Result<nat, EngineError>,
    steps: nat -> Step)

  /** What AddMulti returns: the shard after the call, the inserted count, the full flag and the error. */
  datatype AddResult = AddResult(after: Shard, inserted: nat, full: bool, err: Option<CollectionError>)

  /** The size read after an insert shows growth that reaches the budget. */
  predicate GrewPastBudget(reading: nat, initialSize: nat, maxSize: nat) {
    reading != initialSize && reading >= maxSize
  }

  /** Item `i` ends the batch: its add fails, the size read after it fails, or that read shows the budget reached. */
  predicate Halts(steps: nat -> Step, initialSize: nat, maxSize: nat, i: nat) {
    var st := steps(i);
    st.add.Some? || st.size.Failure? || GrewPastBudget(st.size.value, initialSize, maxSize)
  }

  /** The first item at or after `i` that ends the batch, or `n` when none of the remaining items does. */
  function FirstHalt(steps: nat -> Step, initialSize: nat, maxSize: nat, i: nat, n: nat): (h: nat)
    requires i <= n
    ensures i <= h <= n
    ensures forall j :: i <= j < h ==> !Halts(steps, initialSize, maxSize, j)
    ensures h < n ==> Halts(steps, initialSize, maxSize, h)
    decreases n - i
  {
    if i == n || Halts(steps, initialSize, maxSize, i) then i
    else FirstHalt(steps, initialSize, maxSize, i + 1, n)
  }

  /** The contents after writing items `i..j` into `m` one at a time in input order (a later key overwrites). */
  function PutRange(m: Entries, keys: seq<Key>, vectors: seq<Vector>, i: nat, j: nat): Entries
    requires i <= j <= |keys| <= |vectors|
    decreases j - i
  {
    if i == j then m else PutRange(m[keys[i] := vectors[i]], keys, vectors, i + 1, j)
  }

  /**
   What a batch that ran from item 0 reports when item `h` is where it
   stopped (`h == |keys|`: it ran to the end).
   */
  predicate ReportsStopAt(keys: seq<Key>, steps: nat -> Step, h: nat, r: AddResult) {
    if h >= |keys| then
      r.inserted == |keys| && !r.full && r.err.None?
    else match steps(h).add
      case Some(e) => r.inserted == h && !r.full && r.err == Some(CollectionError(AddVector, e))
      case None => match steps(h).size
        case Failure(e) => r.inserted == h + 1 && !r.full && r.err == Some(CollectionError(ReadSize, e))
        case Success(_) => r.inserted == h + 1 && r.full && r.err.None?
  }

  /** The insert loop of AddMulti from item `i` on, on a shard that is not full. */
  function InsertFrom(s: Shard, keys: seq<Key>, vectors: seq<Vector>, steps: nat -> Step, initialSize: nat, i: nat): (r: AddResult)
    requires !s.isFull
    requires i <= |keys| <= |vectors|
    ensures i <= r.inserted <= |keys|
    ensures r.after.entries == PutRange(s.entries, keys, vectors, i, r.inserted)
    ensures r.after.config == s.config && r.after.isFull == r.full
    ensures ReportsStopAt(keys, steps, FirstHalt(steps, initialSize, s.config.maxSize, i, |keys|), r)
    decreases |keys| - i
  {
    if i == |keys| then AddResult(s, i, s.isFull, None)
    else
      var st := steps(i);
      match st.add
      case Some(e) => AddResult(s, i, false, Some(CollectionError(AddVector, e)))
      case None =>
        var s' := s.(entries := s.entries[keys[i] := vectors[i]]);
        match st.size
        case Failure(e) => AddResult(s', i + 1, false, Some(CollectionError(ReadSize, e)))
        case Success(n) =>
          if initialSize != n && n >= s.config.maxSize then AddResult(s'.(isFull := true), i + 1, true, None)
          else InsertFrom(s', keys, vectors, steps, initialSize, i + 1)
  }

  /**
   Inserts `keys[i] -> vectors[i]` one item at a time. Go indexes `vectors`
   by the position in `keys`, so it needs at least as many vectors as keys.
   */
  function AddMulti(s: Shard, keys: seq<Key>, vectors: seq<Vector>, script: BatchScript): (r: AddResult)
    requires |keys| <= |vectors|
    ensures r.inserted <= |keys|
    ensures r.after.entries == PutRange(s.entries, keys, vectors, 0, r.inserted)
    ensures r.after.config == s.config
    ensures r.after.isFull == (s.isFull || r.full)
    ensures script.reserve.Some? ==>
      r == AddResult(s, 0, false, Some(CollectionError(ReserveSpace, script.reserve.value)))
    ensures script.reserve.None? && s.isFull ==> r == AddResult(s, 0, true, None)
    ensures script.reserve.None? && !s.isFull && script.initialSize.Failure? ==>
      r == AddResult(s, 0, false, Some(CollectionError(ReadSize, script.initialSize.error)))
    ensures script.reserve.None? && !s.isFull && script.initialSize.Success? ==>
      ReportsStopAt(keys, script.steps, FirstHalt(script.steps, script.initialSize.value, s.config.maxSize, 0, |keys|), r)
  {
    match script.reserve
    case Some(e) => AddResult(s, 0, false, Some(CollectionError(ReserveSpace, e)))
    case None =>
      if s.isFull then AddResult(s, 0, true, None)
      else match script.initialSize
        case Failure(e) => AddResult(s, 0, false, Some(CollectionError(ReadSize, e)))
        case Success(initialSize) => InsertFrom(s, keys, vectors, script.steps, initialSize, 0)
  }

  /** A batch of one. */
  function Add(s: Shard, key: Key, vector: Vector, script: BatchScript): (r: AddResult)
    ensures r.after.config == s.config
    ensures script.reserve.Some? ==>
      r == AddResult(s, 0, false, Some(CollectionError(ReserveSpace, script.reserve.value)))
    ensures script.reserve.None? && s.isFull ==> r == AddResult(s, 0, true, None)
    ensures script.reserve.None? && !s.isFull && script.initialSize.Failure? ==>
      r == AddResult(s, 0, false, Some(CollectionError(ReadSize, script.initialSize.error)))
    ensures script.reserve.None? && !s.isFull && script.initialSize.Success? ==>
      var st := script.steps(0);
      var s' := s.(entries := s.entries[key := vector]);
      match st.add
      case Some(e) => r == AddResult(s, 0, false, Some(CollectionError(AddVector, e)))
      case None => match st.size
        case Failure(e) => r == AddResult(s', 1, false, Some(CollectionError(ReadSize, e)))
        case Success(n) =>
          var full := GrewPastBudget(n, script.initialSize.value, s.config.maxSize);
          r == AddResult(s'.(isFull := full), 1, full, None)
  {
    AddMulti(s, [key], [vector], script)
  }

  // ---------------------------------------------------------------------------
  // Queries and removal. Each takes the engine's answer to the call it makes.

  function Search(query: Vector, limit: nat, found: Result<(seq<Key>, seq<Float32>), EngineError>): (r: Result<(seq<Key>, seq<Float32>), CollectionError>)
    ensures r.Success? ==> found.Success? && r.value == found.value
    ensures r.Failure? ==> found.Failure? && r.error == CollectionError(SearchIndex, found.error)
  {
    Wrap(SearchIndex, found)
  }

  /** Looks up the vectors stored under `key`, at most `count` of them. */
  function Get(key: Key, count: nat, found: Result<Vector, EngineError>): (r: Result<Vector, CollectionError>)
    ensures r.Success? ==> found.Success? && r.value == found.value
    ensures r.Failure? ==> found.Failure? && r.error == CollectionError(GetVector, found.error)
  {
    Wrap(GetVector, found)
  }

  /** Whether `key` is present: a lookup of one vector that does not fail. `found` is the engine's answer to that lookup. */
  function Has(key: Key, found: Result<Vector, EngineError>): (r: bool)
    ensures r <==> Get(key, 1, found).Success?
  {
    found.Success?
  }

  /** Removes `key`; a failed removal leaves the index as it was. The flag is never touched. */
  function Delete(s: Shard, key: Key, removal: Option<EngineError>): (r: Mutated)
    ensures r.after.isFull == s.isFull && r.after.config == s.config
    ensures r.err.None? <==> removal.None?
    ensures removal.Some? ==> r == Mutated(s, Some(CollectionError(DeleteVector, removal.value)))
    ensures removal.None? ==> key !in r.after.entries
    ensures forall k :: k != key ==> (k in r.after.entries <==> k in s.entries)
    ensures forall k :: k != key && k in s.entries ==> r.after.entries[k] == s.entries[k]
  {
    match removal
    case Some(e) => Mutated(s, Some(CollectionError(DeleteVector, e)))
    case None => Mutated(s.(entries := s.entries - {key}), None)
  }

  function Length(answer: Result<nat, EngineError>): (r: Result<nat, CollectionError>)
    ensures r.Success? ==> answer.Success? && r.value == answer.value
    ensures r.Failure? ==> answer.Failure? && r.error == CollectionError(ReadLength, answer.error)
  {
    Wrap(ReadLength, answer)
  }

  function Capacity(answer: Result<nat, EngineError>): (r: Result<nat, CollectionError>)
    ensures r.Success? ==> answer.Success? && r.value == answer.value
    ensures r.Failure? ==> answer.Failure? && r.error == CollectionError(ReadCapacity, answer.error)
  {
    Wrap(ReadCapacity, answer)
  }

  function Size(answer: Result<nat, EngineError>): (r: Result<nat, CollectionError>)
    ensures r.Success? ==> answer.Success? && r.value == answer.value
    ensures r.Failure? ==> answer.Failure? && r.error == CollectionError(ReadSize, answer.error)
  {
    Wrap(ReadSize, answer)
  }

  /** Persists the index; `written` is the engine's answer to saving. */
  function Save(written: Option<EngineError>): (r: Option<CollectionError>)
    ensures r.None? <==> written.None?
    ensures r.Some? ==> r.value == CollectionError(SaveIndex, written.value)
  {
    match written
    case None => None
    case Some(e) => Some(CollectionError(SaveIndex, e))
  }
}
