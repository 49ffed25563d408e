/**
 The usearch index as the shard layer sees it.

 The index engine itself (graph, search, serialization) is not modelled:
 its contents are a map from key to vector, and each answer it gives to a
 call is supplied from outside as a parameter of the operation that makes
 the call.
 */
module Engine {

  /** usearch.Key: an unsigned 64-bit identifier. */
  newtype Key = k: int | 0 <= k < 0x1_0000_0000_0000_0000

  /** One float32 component, kept as its bit pattern: this layer never computes with vector contents. */
  datatype Float32 = Float32(bits: bv32)

  /** A vector is an ordered sequence of components; only its length is ever checked. */
  type Vector = seq<Float32>

  /** What the index holds: one vector per key. */
  type Entries = map<Key, Vector>

  /** An error value returned by a usearch call, carrying its message. */
  datatype EngineError = EngineError(message: string)
}
