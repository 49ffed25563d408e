# Shard capacity accounting of the svdb vector-store worker, in Dafny

The worker owns one shard: a usearch approximate-nearest-neighbour index and
a flag, `isFull`, that records whether the index's serialized size has reached
the configured byte budget. This project models that shard and what sits in
front of it:

- `collection_config.dfy` (module `CollectionConfig`): the quantization and
  metric enumerations with their `iota` codes, the case-insensitive parsers,
  the default configuration and the fields handed to the index constructor.
- `collection.dfy` (module `Collection`): the shard record and its operations.
  The main one is the bulk insert protocol: reserve, refuse if already full,
  read the initial size, insert one item at a time in input order, re-read
  the size after each, stop at the first growth that reaches the budget, and
  return the partial count on an engine error.
- `collection_properties.dfy` (module `CollectionProperties`): what a batch
  leaves in the index, and the permanence of the full flag across any
  sequence of state-changing calls.
- `collection_server.dfy` (module `CollectionServer`): the gRPC handlers'
  validation chains and their mapping of shard results to responses and
  status errors. This includes AddMulti's dual channel: an Internal status
  whose details carry the inserted count and the full flag.
- `server_properties.dfy` (module `ServerProperties`): validation keeps
  rejected requests away from the engine, and the per-item dimension check
  the batch handler evidently meant to make.
- `worker_config.dfy` and `worker_config_properties.dfy` (modules
  `WorkerConfig`, `WorkerConfigProperties`): the ordered startup checks and
  the shard configuration built from checked settings.
- `outcomes.dfy`, `engine.dfy`: `Option`/`Result`, and the types the index
  trades in (`Key`, `Float32`, `Vector`, `EngineError`).

The index engine is abstract. Its contents are a map from key to vector.
Every answer it gives (success or error, sizes, lookups) is a parameter of
the operation that asks for it:
- `BatchScript` holds the answers during one AddMulti: the reservation
  outcome, the size read before the loop, and one `Step` per item (the add's
  outcome, then the size read after it).
- Every other operation receives the engine's single answer directly.

So the early exit, the partial counts and the flag are stated for every
sequence of engine answers. What the index contents become after each call
is fixed by the model, not supplied by the engine: a successful add
overwrites the key's vector, a failed add or load leaves the contents
unchanged, and a successful removal deletes exactly the key (see "Left
out").

Where the code and its evident intent differ, the model follows the code:
- The batch handler's dimension loop tests `Vectors[0]` at every index, so
  only the first vector's length is checked (see Findings). Its refusal
  message names "vector %d" by the loop index
  (engine-worker/server/collection_grpc_server_implementation.go:106), which
  shows a per-item check was meant.
- The three dimension-mismatch messages (Search, Add, AddMulti) print the
  received length in the "expected" slot and the configured dimension in
  the "got" slot. `DimensionMismatch` keeps the numbers in printed order.
  `ServerProperties.MismatchMessageSwapsNumbers` states the consequence.
- The item whose insert makes the size reach the budget is kept and counted.
  A batch that stops at item `h` (0-based) reports `h + 1` inserted.
- Reservation comes before the full check. A full shard whose reservation
  fails therefore returns `(0, false, err)`, with `false` although the
  shard is full.
- `Has` fails for a nil request (InvalidArgument). It never fails otherwise.
- `ValidateConfig` checks the names with the parsers of a `shared/collection`
  package, which is not part of this model; they are uninterpreted
  predicates in `WorkerConfig.Parsers`. `main.go` builds the shard
  configuration with the worker's own `ParseQuantization` and `ParseMetric`,
  discarding their errors. A name that only the shared parser accepts
  therefore validates and reaches the shard as the zero constant (F32, or
  InnerProduct rather than the default Cosine).

## Model

| member | source | states |
|---|---|---|
| CollectionConfig.QuantizationCode | engine-worker/collection/collection_config.go:22-29 | each quantization's `iota` code is below 6 and decodes back to it, so the codes are distinct |
| CollectionConfig.MetricCode | engine-worker/collection/collection_config.go:9-19 | each metric's `iota` code is below 9 and decodes back to it, so the codes are distinct |
| CollectionConfig.Lower | engine-worker/collection/collection_config.go:35 | lowercasing keeps the length and lowercases each ASCII character in place |
| CollectionConfig.LowerIdempotent | engine-worker/collection/collection_config.go:35 | lowercasing an already lowercased string changes nothing |
| CollectionConfig.ParseQuantization | engine-worker/collection/collection_config.go:34-51 | accepts a string only when its lowercase form is a quantization's name, and returns that quantization; otherwise fails with the string as received, and no quantization has that lowercase name |
| CollectionConfig.ParseMetric | engine-worker/collection/collection_config.go:53-76 | accepts a string only when its lowercase form is one of the nine metric names, and returns that metric; otherwise fails with the string as received |
| CollectionConfig.QuantizationNameInjective | engine-worker/collection/collection_config.go:36-47 | distinct quantizations have distinct accepted names |
| CollectionConfig.MetricNameInjective | engine-worker/collection/collection_config.go:55-72 | distinct metrics have distinct accepted names |
| CollectionConfig.ParseQuantizationExactly | engine-worker/collection/collection_config.go:34-51 | a string parses to `q` if and only if its lowercase form is `q`'s name |
| CollectionConfig.ParseMetricExactly | engine-worker/collection/collection_config.go:53-76 | a string parses to `m` if and only if its lowercase form is `m`'s name |
| CollectionConfig.ParseIgnoresCase | engine-worker/collection/collection_config.go:35-54 | a string and its lowercase form are accepted alike and parse to the same value |
| CollectionConfig.ParseInjective | engine-worker/collection/collection_config.go:34-76 | two accepted strings that parse to the same value are equal once lowercased |
| CollectionConfig.ParseAcceptsAnyCase | engine-worker/collection/collection_config.go:35-40 | "F32", "BF16", "Cosine" and "L2SQ" are accepted as F32, BF16, Cosine and L2sq |
| CollectionConfig.ParseRejectsLongL2Name | engine-worker/collection/collection_config.go:61-74 | "l2squared" is refused as an invalid metric |
| CollectionConfig.NewCollectionConfig | engine-worker/collection/collection_config.go:89-99 | the default is F32 and Cosine, with zero dimensions, connectivity and expansions, multi off and the size budget left at 0 |
| CollectionConfig.ToUsearchConfig | engine-worker/collection/collection_config.go:101-110 | the index parameters decode back to the configuration's quantization and metric and carry its dimensions, connectivity and expansions unchanged |
| CollectionConfig.ToUsearchConfigIgnoresCapacity | engine-worker/collection/collection_config.go:101-110 | the index parameters do not depend on multi or on the size budget |
| CollectionConfig.ToUsearchConfigInjective | engine-worker/collection/collection_config.go:101-110 | two configurations with equal index parameters agree on every field the parameters carry |
| Collection.Wrap | engine-worker/collection/collection.go:167-192 | an engine success passes through unchanged; an engine error comes back wrapped with the failing operation |
| Collection.NewCollection | engine-worker/collection/collection.go:21-31 | a new shard is empty, not full and keeps its configuration; an index-creation failure is reported as such |
| Collection.Load | engine-worker/collection/collection.go:33-52 | afterwards the shard is full exactly when it was already full or the load and size read succeeded with size at least the budget; a failed load changes nothing; after a successful load the shard holds the loaded contents even if the size read fails |
| Collection.FirstHalt | engine-worker/collection/collection.go:112-128 | the least item at or after `i` whose add fails, whose size read fails, or whose size read shows growth reaching the budget; `n` when there is none |
| Collection.InsertFrom | engine-worker/collection/collection.go:112-137 | the loop stops at `FirstHalt`: it counts every item before it, plus that item unless its add failed; it writes exactly the counted items in order; it sets the flag only when it stops on budget growth, and then without error |
| Collection.AddMulti | engine-worker/collection/collection.go:81-138 | a failed reservation inserts nothing and returns `(0, false, err)` even on a full shard; a full shard with a successful reservation returns `(0, true, nil)` unchanged; otherwise the result is the loop's stop report; in every case the contents afterwards are the first `inserted` items written in input order, and the flag afterwards is the old flag or the returned full flag |
| Collection.Add | engine-worker/collection/collection.go:77-79 | a batch of one: the same refusals as AddMulti; then an add failure gives `(0, false, err)`, a size-read failure `(1, false, err)` with the key stored, otherwise `(1, full, nil)` where full means the size grew to at least the budget |
| Collection.Search | engine-worker/collection/collection.go:67-75 | the engine's keys and distances pass through; an engine failure comes back wrapped as a search failure |
| Collection.Get | engine-worker/collection/collection.go:140-147 | the engine's vector passes through; an engine failure comes back wrapped as a get failure |
| Collection.Has | engine-worker/collection/collection.go:149-156 | true exactly when a lookup of one vector under the key succeeds |
| Collection.Delete | engine-worker/collection/collection.go:158-165 | a successful removal deletes the key and nothing else; a failed one changes nothing and is wrapped; the full flag is never changed |
| Collection.Length | engine-worker/collection/collection.go:167-174 | the engine's item count, or its error wrapped as a length failure |
| Collection.Capacity | engine-worker/collection/collection.go:176-183 | the engine's capacity, or its error wrapped as a capacity failure |
| Collection.Size | engine-worker/collection/collection.go:185-192 | the engine's serialized size, or its error wrapped as a size failure |
| Collection.Save | engine-worker/collection/collection.go:194-202 | saving fails exactly when the engine's save fails, wrapped as a save failure |
| CollectionProperties.PutRangeUntouched | engine-worker/collection/collection.go:112-118 | writing items in order leaves a key the range does not mention as it was |
| CollectionProperties.PutRangeLastWins | engine-worker/collection/collection.go:112-118 | an item not overwritten later in the range is stored with its own vector |
| CollectionProperties.PutRangeKeys | engine-worker/collection/collection.go:112-118 | writing a range adds exactly the range's keys |
| CollectionProperties.AddMultiKeys | engine-worker/collection/collection.go:112-128 | after a batch the shard holds its old keys plus exactly the first `inserted` keys of the batch |
| CollectionProperties.AddMultiLeavesOthers | engine-worker/collection/collection.go:112-128 | a key outside the inserted prefix keeps its old vector, or stays absent |
| CollectionProperties.AddMultiStores | engine-worker/collection/collection.go:112-118 | an inserted item that no later inserted item overwrites is stored with its vector |
| CollectionProperties.AddMultiSkipsRest | engine-worker/collection/collection.go:124-127 | a key past the stopping point that is new to the shard and not in the inserted prefix is absent afterwards |
| CollectionProperties.AddMultiCountsOnlyCommittedAdds | engine-worker/collection/collection.go:113-118 | every item counted as inserted is one whose engine add succeeded |
| CollectionProperties.AddMultiAddFailureIsNextItem | engine-worker/collection/collection.go:113-116 | a reported add failure is the failure of the item just past the inserted ones, and the batch is not reported full |
| CollectionProperties.AddMultiFullIsNotAnError | engine-worker/collection/collection.go:124-127 | a batch that makes a non-full shard full returns no error and has inserted at least one item |
| CollectionProperties.ApplyKeepsFlag | engine-worker/collection/collection.go:15-19 | no load, add, batch or delete clears the flag or changes the configuration |
| CollectionProperties.FullIsPermanent | engine-worker/collection/collection.go:47-48 | once full, the shard stays full across every later sequence of state-changing calls, and its configuration never changes |
| CollectionProperties.FullShardRefusesLaterBatches | engine-worker/collection/collection.go:102-104 | once full, every later batch whose reservation succeeds returns `(0, true, nil)` and changes nothing |
| CollectionProperties.UnsetBudgetFillsOnLoad | engine-worker/collection/collection.go:47-49 | with the budget left at 0, every successful load marks the shard full |
| CollectionProperties.BudgetReachedMidBatch | engine-worker/collection/collection.go:112-137 | a three-item batch whose second insert grows the size past the budget returns `(2, true, nil)`, leaves the third key out, and a retry of it returns `(0, true, nil)` |
| CollectionServer.ValidateVector | engine-worker/server/collection_grpc_server_implementation.go:34-46 | a one-vector request passes exactly when it and its vector are present and the length matches; otherwise it is refused as missing arguments or as a dimension mismatch that prints the received length as the expected one |
| CollectionServer.Search | engine-worker/server/collection_grpc_server_implementation.go:31-57 | a refused query gets an empty response and an InvalidArgument status, whatever the engine would answer; a valid one gets the engine's keys and distances, or no response and the wrapped search error |
| CollectionServer.Add | engine-worker/server/collection_grpc_server_implementation.go:59-80 | a refused request leaves the shard unchanged with an InvalidArgument status; otherwise the response carries the shard's full flag and the error is the shard's error |
| CollectionServer.FirstVectorCheck | engine-worker/server/collection_grpc_server_implementation.go:100-113 | the loop as written refuses exactly when the first vector's length differs from the dimension, reporting that length and the current index |
| CollectionServer.ValidateBatch | engine-worker/server/collection_grpc_server_implementation.go:85-113 | in order: missing fields, unequal lengths, an empty batch, then a first vector of the wrong length are each refused with their own reason; the batch passes exactly when none applies |
| CollectionServer.Values | engine-worker/server/collection_grpc_server_implementation.go:100-113 | the vectors handed to the shard are the request's vectors' values, in order |
| CollectionServer.AddMulti | engine-worker/server/collection_grpc_server_implementation.go:82-140 | a refused batch leaves the shard unchanged; on a shard error the response is empty and the Internal status carries the same inserted count and full flag as details, when they can be attached; on success both values come back in the response with no error |
| CollectionServer.Get | engine-worker/server/collection_grpc_server_implementation.go:142-161 | a nil request or a count of 0 or less is refused as an invalid argument before any lookup, with a response whose vector is absent; otherwise the engine's vector, or no response and the wrapped error |
| CollectionServer.Has | engine-worker/server/collection_grpc_server_implementation.go:163-174 | fails only for a nil request; otherwise answers whether a lookup of one vector under the key succeeds |
| CollectionServer.Delete | engine-worker/server/collection_grpc_server_implementation.go:176-189 | `ok` is true exactly when no error is returned; a present request gets the shard's delete result and error |
| CollectionServer.Save | engine-worker/server/collection_grpc_server_implementation.go:191-196 | always an empty response, with an error exactly when the engine's save failed |
| CollectionServer.CountAnswer | engine-worker/server/collection_grpc_server_implementation.go:198-226 | a count on success; no response and the shard's error otherwise |
| CollectionServer.Length | engine-worker/server/collection_grpc_server_implementation.go:198-206 | the engine's item count, or no response and the wrapped length error |
| CollectionServer.Capacity | engine-worker/server/collection_grpc_server_implementation.go:208-216 | the engine's capacity, or no response and the wrapped capacity error |
| CollectionServer.Size | engine-worker/server/collection_grpc_server_implementation.go:218-226 | the engine's serialized size, or no response and the wrapped size error |
| ServerProperties.RejectedBatchIgnoresEngine | engine-worker/server/collection_grpc_server_implementation.go:85-113 | a refused batch gets the same reply whatever the engine would answer, and the shard is unchanged |
| ServerProperties.RejectedAddIgnoresEngine | engine-worker/server/collection_grpc_server_implementation.go:62-74 | a refused single add gets the same reply whatever the engine would answer, and the shard is unchanged |
| ServerProperties.MismatchMessageSwapsNumbers | engine-worker/server/collection_grpc_server_implementation.go:39-45 | the mismatch message's "expected" number is never the configured dimension; its "got" number always is |
| ServerProperties.ShortVectorRefused | engine-worker/server/collection_grpc_server_implementation.go:67-74 | a 3-component vector sent to a 128-dimension shard is refused as an invalid argument and the shard is unchanged |
| ServerProperties.ZeroCountRefused | engine-worker/server/collection_grpc_server_implementation.go:150-153 | a lookup of zero vectors is refused as an invalid argument |
| ServerProperties.PerItemCheck | engine-worker/server/collection_grpc_server_implementation.go:100-113 | the intended check: passes exactly when every vector has the dimension, else reports the first wrong vector's index, the dimension as expected and that vector's length as received |
| ServerProperties.ValidateBatchPerItem | engine-worker/server/collection_grpc_server_implementation.go:85-113 | the batch checks with the per-item test: a batch passes exactly when it is well shaped and every vector has the dimension |
| ServerProperties.PerItemIsStricter | engine-worker/server/collection_grpc_server_implementation.go:100-113 | the per-item check refuses every batch the first-vector check refuses |
| ServerProperties.PerItemAdmitsOnlyRightLengths | engine-worker/server/collection_grpc_server_implementation.go:100-113 | with the per-item check, every vector handed to the shard has the configured length |
| ServerProperties.FirstVectorCheckAdmitsShortVector | engine-worker/server/collection_grpc_server_implementation.go:101-110 | a batch whose second vector is short passes the check as written, and the shard stores the short vector; the per-item check refuses it at index 1 |
| WorkerConfig.ParseShardMaxSize | engine-worker/config/config.go:27-35 | the byte-size parser's value when it parses, else a parse error naming the string |
| WorkerConfig.ValidateConfig | engine-worker/config/config.go:50-104 | returns the error of the first failing check in source order, with every earlier check passing; returns nil exactly when all eleven checks pass |
| WorkerConfig.ShardConfig | engine-worker/main.go:49-53 | the shard gets the settings' dimensions, the parsed budget (0 when it does not parse), the parsed quantization (F32 when it does not parse) and metric (InnerProduct, not the default Cosine, when it does not parse); connectivity, expansions and multi keep the defaults' 0 and false |
| WorkerConfigProperties.AddressChecks | engine-worker/config/config.go:55-63 | an empty host, a port of 0 or less, and an empty shard path are each refused with their own error, in that order |
| WorkerConfigProperties.ReadOnlyIgnoresShardSettings | engine-worker/config/config.go:81-101 | for a read-only shard, the budget and auto-sync settings do not affect the verdict |
| WorkerConfigProperties.IntervalCheckedOnlyWithAutoSync | engine-worker/config/config.go:91-100 | the interval affects the verdict only when the shard is writable and auto-sync is on |
| WorkerConfigProperties.DefaultsNeedShardPath | engine-worker/config/config.go:13-24 | the default settings are refused because the shard path has no default |
| WorkerConfigProperties.DefaultsWithPathValidate | engine-worker/config/config.go:13-24 | the defaults plus a shard path validate, given a log parser that accepts "info" and shared name parsers that accept "F32" and "Cosine" |
| WorkerConfigProperties.ValidatedWriteableHasBudget | engine-worker/config/config.go:81-89 | a writable shard built from validated settings has a positive budget |
| WorkerConfigProperties.ValidatedNamesReachShard | engine-worker/config/config.go:69-79 | from validated settings the shard gets the parsed quantization and metric and positive dimensions, provided the shared parsers the checks use accept no name the worker's parsers refuse |
| WorkerConfigProperties.SharedOnlyMetricBecomesInnerProduct | engine-worker/main.go:53 | a validated metric name that the worker's parser refuses was accepted by the shared parser, and the shard gets InnerProduct |
| WorkerConfigProperties.ReadOnlyUnparseableBudgetLoadsFull | engine-worker/config/config.go:81-89 | a read-only shard whose budget does not parse validates whenever the same settings with any other budget do; the shard built from it gets a budget of 0 and is marked full by any successful load |

## Findings

| source | as written | input that shows it | evidently intended | confidence | as-written member | corrected member |
|---|---|---|---|---|---|---|
| engine-worker/server/collection_grpc_server_implementation.go:101-110 | the per-item loop tests `len(req.Vectors[0].Values)` at every index, so only the first vector's length is checked | a 2-dimension shard, keys [7, 8], vectors of 2 and 1 components: accepted, and the 1-component vector is stored under key 8 | test each vector `v` and refuse the batch at the first one of the wrong length, naming its index | not executed; high: the message names "vector %d" | ServerProperties.FirstVectorCheckAdmitsShortVector | ServerProperties.PerItemCheck |

The handler `CollectionServer.AddMulti` models the code as written.
`ServerProperties.ValidateBatchPerItem` is the corrected validation.

## Left out

- Engine internals (HNSW graph, k-NN search and ranking, serialized-size computation, file format): every engine answer is a parameter.
- How the engine reports a missing key on lookup or removal: `Get` and `Has` take the engine's answer as given. The model does not derive it from the contents.
- Collection.Delete: assumes a successful removal deletes exactly the key, and a failed one leaves the index unchanged; the engine's own removal semantics are not visible.
- Collection.Load: assumes a failed engine load leaves the shard unchanged; file I/O and the path are replaced by the engine's answer (the loaded contents).
- Multiple vectors per key (`Multi`): the contents hold one vector per key, and `Get`'s count is passed on but not interpreted.
- `Destroy` and the "collection not initialized" check: releasing engine resources is lifecycle, not capacity accounting.
- The final size read and the info log line after the insert loop (collection.go:130-135): their result is discarded.
- `unsafe.Pointer` casts between wire and domain key/vector slices: treated as the identity on values.
- Vector contents and distances: a vector is a sequence of bit patterns, and only its length is checked.
- Message formatting: status messages are `Reason` values holding the printed numbers in printed order. Only the shard's error prefixes are kept as text (`Collection.Describe`).
- Nil elements inside a repeated vector field: the protobuf decoder does not produce them, so the model has none.
- `WithDetails` failure: a boolean parameter; whether it can fail is inside gRPC.
- The gRPC code (Unknown) that plain shard errors get on the wire: they are kept as `ShardError`.
- Integer widths: counts, sizes and dimensions are `uint` in Go and `nat` here. The inserted count never exceeds the batch length, so no wrap-around can arise. Keys keep their 64-bit bound.
- `FromEnv` environment loading, `log.ParseLevel`, `datasize.ParseString` and `time.ParseDuration`: the parsers are uninterpreted functions in `WorkerConfig.Parsers`.
- `shared/collection` (whose parsers `config.go` calls) is not part of this model; which names its parsers accept is an uninterpreted predicate.
- CollectionConfig.Lower: lowercases ASCII letters only. Go's `strings.ToLower` (collection_config.go:35 and :54) uses Unicode simple case mapping, which maps U+0130 to `i`, so Go parses "\u0130" + "8" as I8 and "\u0130" + "nnerproduct" as InnerProduct; the model refuses both. Unicode case tables are not modelled.
- Collection.AddMulti: `requires |keys| <= |vectors|`, so the index-out-of-range panic at collection.go:113 on a shorter vector slice, and the short-slice calls that return before reaching it, are not modelled. Both callers meet it: the handler's length check (collection_grpc_server_implementation.go:90) and `Add` (collection.go:78).
- Collection.InsertFrom: assumes a failed engine add leaves the index contents unchanged, so the failing item is absent afterwards; `AddMultiSkipsRest` for the item at `inserted` rests on this. Whether usearch can leave a partial insert behind is not visible in the source.
- Collection.InsertFrom: assumes a successful engine add of a key already present overwrites its vector, as a map does; `PutRangeLastWins` and `AddMultiStores` rest on this. How usearch treats a duplicate key with Multi off is not visible in the source.
- Concurrency: the shard is unsynchronised in Go, and the model is sequential.
- The process bootstrap and shutdown ordering, the listener lifecycle, the frontend stub, logging, Sentry and signal handling.
