/**
 Properties of the shard that relate several calls or look inside the
 contents an insert leaves behind.
 */
module CollectionProperties {
  import opened Outcomes
  import opened Engine
  import CC = CollectionConfig
  import opened Collection

  // ---------------------------------------------------------------------------
  // Writing a range of items

  /** A key outside `keys[i..j]` is neither added nor changed by writing that range. */
  lemma {:induction false} PutRangeUntouched(m: Entries, keys: seq<Key>, vectors: seq<Vector>, i: nat, j: nat, k: Key)
    requires i <= j <= |keys| <= |vectors|
    requires forall t :: i <= t < j ==> keys[t] != k
    ensures k in PutRange(m, keys, vectors, i, j) <==> k in m
    ensures k in m ==> PutRange(m, keys, vectors, i, j)[k] == m[k]
    decreases j - i
  {
    if i < j {
      PutRangeUntouched(m[keys[i] := vectors[i]], keys, vectors, i + 1, j, k);
    }
  }

  /** After writing `keys[i..j]`, an item of the range that is not overwritten later in it holds its own vector. */
  lemma {:induction false} PutRangeLastWins(m: Entries, keys: seq<Key>, vectors: seq<Vector>, i: nat, j: nat, t: nat)
    requires i <= t < j <= |keys| <= |vectors|
    requires forall u :: t < u < j ==> keys[u] != keys[t]
    ensures keys[t] in PutRange(m, keys, vectors, i, j)
    ensures PutRange(m, keys, vectors, i, j)[keys[t]] == vectors[t]
    decreases j - i
  {
    if i == t {
      PutRangeUntouched(m[keys[i] := vectors[i]], keys, vectors, i + 1, j, keys[t]);
    } else {
      PutRangeLastWins(m[keys[i] := vectors[i]], keys, vectors, i + 1, j, t);
    }
  }

  /** Writing `keys[i..j]` leaves exactly the old keys plus the keys of the range. */
  lemma {:induction false} PutRangeKeys(m: Entries, keys: seq<Key>, vectors: seq<Vector>, i: nat, j: nat)
    requires i <= j <= |keys| <= |vectors|
    ensures PutRange(m, keys, vectors, i, j).Keys == m.Keys + (set t | i <= t < j :: keys[t])
    decreases j - i
  {
    if i < j {
      PutRangeKeys(m[keys[i] := vectors[i]], keys, vectors, i + 1, j);
      assert (set t | i <= t < j :: keys[t]) == {keys[i]} + (set t | i + 1 <= t < j :: keys[t]);
    }
  }

  // ---------------------------------------------------------------------------
  // What AddMulti leaves in the index

  /** Exactly the inserted prefix of the batch is added: the shard afterwards holds its old keys plus `keys[..inserted]`. */
  lemma AddMultiKeys(s: Shard, keys: seq<Key>, vectors: seq<Vector>, script: BatchScript)
    requires |keys| <= |vectors|
    ensures var r := AddMulti(s, keys, vectors, script);
      r.after.entries.Keys == s.entries.Keys + (set t | 0 <= t < r.inserted :: keys[t])
  {
    var r := AddMulti(s, keys, vectors, script);
    PutRangeKeys(s.entries, keys, vectors, 0, r.inserted);
  }

  /** A key the inserted prefix does not mention keeps its old vector, or stays absent. */
  lemma AddMultiLeavesOthers(s: Shard, keys: seq<Key>, vectors: seq<Vector>, script: BatchScript, k: Key)
    requires |keys| <= |vectors|
    requires forall t :: 0 <= t < AddMulti(s, keys, vectors, script).inserted ==> keys[t] != k
    ensures var r := AddMulti(s, keys, vectors, script);
      (k in r.after.entries <==> k in s.entries) && (k in s.entries ==> r.after.entries[k] == s.entries[k])
  {
    var r := AddMulti(s, keys, vectors, script);
    PutRangeUntouched(s.entries, keys, vectors, 0, r.inserted, k);
  }

  /** An inserted item that no later inserted item overwrites is stored with its own vector. */
  lemma AddMultiStores(s: Shard, keys: seq<Key>, vectors: seq<Vector>, script: BatchScript, t: nat)
    requires |keys| <= |vectors|
    requires t < AddMulti(s, keys, vectors, script).inserted
    requires forall u :: t < u < AddMulti(s, keys, vectors, script).inserted ==> keys[u] != keys[t]
    ensures var r := AddMulti(s, keys, vectors, script);
      keys[t] in r.after.entries && r.after.entries[keys[t]] == vectors[t]
  {
    var r := AddMulti(s, keys, vectors, script);
    PutRangeLastWins(s.entries, keys, vectors, 0, r.inserted, t);
  }

  /** A key of the batch past the stopping point, new to the shard and not among the inserted prefix, is absent afterwards. */
  lemma AddMultiSkipsRest(s: Shard, keys: seq<Key>, vectors: seq<Vector>, script: BatchScript, j: nat)
    requires |keys| <= |vectors|
    requires AddMulti(s, keys, vectors, script).inserted <= j < |keys|
    requires keys[j] !in s.entries
    requires forall t :: 0 <= t < AddMulti(s, keys, vectors, script).inserted ==> keys[t] != keys[j]
    ensures keys[j] !in AddMulti(s, keys, vectors, script).after.entries
  {
    AddMultiLeavesOthers(s, keys, vectors, script, keys[j]);
  }

  /** Every item AddMulti counts as inserted is one whose engine add succeeded. */
  lemma {:induction false} AddMultiCountsOnlyCommittedAdds(s: Shard, keys: seq<Key>, vectors: seq<Vector>, script: BatchScript, j: nat)
    requires |keys| <= |vectors|
    requires j < AddMulti(s, keys, vectors, script).inserted
    ensures script.steps(j).add.None?
  {
    var r := AddMulti(s, keys, vectors, script);
    var h := FirstHalt(script.steps, script.initialSize.value, s.config.maxSize, 0, |keys|);
    assert ReportsStopAt(keys, script.steps, h, r);
    if j < h {
      assert !Halts(script.steps, script.initialSize.value, s.config.maxSize, j);
    }
  }

  /** When AddMulti reports an add failure, that failure belongs to the item just past the inserted ones. */
  lemma AddMultiAddFailureIsNextItem(s: Shard, keys: seq<Key>, vectors: seq<Vector>, script: BatchScript)
    requires |keys| <= |vectors|
    requires AddMulti(s, keys, vectors, script).err.Some?
    requires AddMulti(s, keys, vectors, script).err.value.context == AddVector
    ensures var r := AddMulti(s, keys, vectors, script);
      r.inserted < |keys| && script.steps(r.inserted).add == Some(r.err.value.cause) && !r.full
  {
  }

  /** Reaching the budget is not an error: a batch that sets the flag returns no error. */
  lemma AddMultiFullIsNotAnError(s: Shard, keys: seq<Key>, vectors: seq<Vector>, script: BatchScript)
    requires |keys| <= |vectors|
    requires !s.isFull && AddMulti(s, keys, vectors, script).after.isFull
    ensures var r := AddMulti(s, keys, vectors, script);
      r.full && r.err.None? && 0 < r.inserted
  {
  }

  // ---------------------------------------------------------------------------
  // The flag never goes back to false

  /** A state-changing call on the shard, with the engine's answers for it. */
  datatype Mutation =
    | LoadShard(loaded: Result<Entries, EngineError>, size: Result<nat, EngineError>)
    | AddBatch(keys: seq<Key>, vectors: seq<Vector>, script: BatchScript)
    | AddOne(key: Key, vector: Vector, script: BatchScript)
    | DeleteKey(key: Key, removal: Option<EngineError>)

  /** A batch the shard can be handed at all: Go indexes the vectors by the keys' positions. */
  predicate WellFormed(m: Mutation) {
    m.AddBatch? ==> |m.keys| <= |m.vectors|
  }

  function Apply(s: Shard, m: Mutation): Shard
    requires WellFormed(m)
  {
    match m
    case LoadShard(loaded, size) => Load(s, loaded, size).after
    case AddBatch(keys, vectors, script) => AddMulti(s, keys, vectors, script).after
    case AddOne(key, vector, script) => Add(s, key, vector, script).after
    case DeleteKey(key, removal) => Delete(s, key, removal).after
  }

  /** The shard after a sequence of calls. Queries take no shard and return none, so they cannot appear here. */
  function Replay(s: Shard, ms: seq<Mutation>): Shard
    requires forall i :: 0 <= i < |ms| ==> WellFormed(ms[i])
    decreases |ms|
  {
    if ms == [] then s else Replay(Apply(s, ms[0]), ms[1..])
  }

  /** No single call clears the flag or changes the configuration. */
  lemma ApplyKeepsFlag(s: Shard, m: Mutation)
    requires WellFormed(m)
    ensures s.isFull ==> Apply(s, m).isFull
    ensures Apply(s, m).config == s.config
  {
  }

  /** Once full, the shard stays full whatever sequence of calls follows, and its configuration never changes. */
  lemma {:induction false} FullIsPermanent(s: Shard, ms: seq<Mutation>)
    requires forall i :: 0 <= i < |ms| ==> WellFormed(ms[i])
    ensures s.isFull ==> Replay(s, ms).isFull
    ensures Replay(s, ms).config == s.config
    decreases |ms|
  {
    if ms != [] {
      ApplyKeepsFlag(s, ms[0]);
      assert forall i :: 0 <= i < |ms[1..]| ==> WellFormed(ms[1..][i]) by {
        forall i | 0 <= i < |ms[1..]| ensures WellFormed(ms[1..][i]) {
          assert ms[1..][i] == ms[i + 1];
        }
      }
      FullIsPermanent(Apply(s, ms[0]), ms[1..]);
    }
  }

  /** Once full, every later batch whose reservation succeeds inserts nothing and changes nothing. */
  lemma {:induction false} FullShardRefusesLaterBatches(s: Shard, ms: seq<Mutation>, keys: seq<Key>, vectors: seq<Vector>, script: BatchScript)
    requires forall i :: 0 <= i < |ms| ==> WellFormed(ms[i])
    requires s.isFull && |keys| <= |vectors| && script.reserve.None?
    ensures var t := Replay(s, ms);
      AddMulti(t, keys, vectors, script) == AddResult(t, 0, true, None)
  {
    FullIsPermanent(s, ms);
  }

  /** With the budget left at zero, any successful load marks the shard full. */
  lemma UnsetBudgetFillsOnLoad(s: Shard, contents: Entries, size: nat)
    requires s.config.maxSize == 0
    ensures Load(s, Success(contents), Success(size)).after.isFull
  {
  }

  // ---------------------------------------------------------------------------
  // A worked batch

  /** A four-component vector whose every component has the bits `b`. */
  function FourOf(b: bv32): Vector {
    [Float32(b), Float32(b), Float32(b), Float32(b)]
  }

  /**
   Four dimensions, a budget of 100 bytes, an index of 40 bytes. The first
   insert leaves the size at 40, the second takes it to 120: the batch stops
   after two items, reports the shard full without error, and the third key
   never reaches the index; a retry of the third key is refused outright.
   */
  lemma BudgetReachedMidBatch()
    ensures
      var cfg := CC.NewCollectionConfig().(dimensions := 4, maxSize := 100);
      var s := Shard(map[], false, cfg);
      var script := BatchScript(None, Success(40),
                                (i: nat) => Step(None, Success(if i == 0 then 40 else 120)));
      var r := AddMulti(s, [1, 2, 3], [FourOf(1), FourOf(2), FourOf(3)], script);
      && r.inserted == 2 && r.full && r.err.None?
      && r.after.isFull
      && 1 in r.after.entries && 2 in r.after.entries && 3 !in r.after.entries
      && AddMulti(r.after, [3], [FourOf(3)], script) == AddResult(r.after, 0, true, None)
  {
  }
}
