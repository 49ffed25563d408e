/** Consequences of the startup checks, alone and for the shard built from the checked settings. */
module WorkerConfigProperties {
  import opened Outcomes
  import opened Engine
  import CC = CollectionConfig
  import Collection
  import opened WorkerConfig

  /** The first three checks: an empty host, a non-positive port, an empty shard path, each with its own error. */
  lemma AddressChecks(c: Config, p: Parsers)
    ensures c.host == "" ==> ValidateConfig(c, p) == Some(HostRequired)
    ensures c.host != "" && c.port <= 0 ==> ValidateConfig(c, p) == Some(PortNotPositive)
    ensures c.host != "" && c.port > 0 && c.shardPath == "" ==> ValidateConfig(c, p) == Some(ShardPathRequired)
  {
  }

  /** A read-only shard's budget and auto-sync settings are never looked at: changing them changes nothing. */
  lemma ReadOnlyIgnoresShardSettings(c: Config, p: Parsers, maxSize: string, autoSync: bool, interval: string)
    requires !c.writeable
    ensures ValidateConfig(c.(maxSize := maxSize, autoSync := autoSync, autoSyncInterval := interval), p) == ValidateConfig(c, p)
  {
  }

  /** The interval is looked at only when the shard is writable and auto-sync is on. */
  lemma IntervalCheckedOnlyWithAutoSync(c: Config, p: Parsers, interval: string)
    requires !(c.writeable && c.autoSync)
    ensures ValidateConfig(c.(autoSyncInterval := interval), p) == ValidateConfig(c, p)
  {
  }

  /** The defaults alone do not validate: the shard path has no default. */
  lemma DefaultsNeedShardPath(p: Parsers)
    ensures ValidateConfig(EnvDefaults(), p) == Some(ShardPathRequired)
  {
  }

  /** The defaults with a shard path validate, given a log parser that accepts "info" and shared name parsers that accept "F32" and "Cosine". */
  lemma DefaultsWithPathValidate(p: Parsers, path: string)
    requires path != "" && p.level("info") <= p.panicLevel
    requires p.sharedQuantization("F32") && p.sharedMetric("Cosine")
    ensures ValidateConfig(EnvDefaults().(shardPath := path), p).None?
  {
  }

  /** A writable shard built from validated settings has a positive budget. */
  lemma ValidatedWriteableHasBudget(c: Config, p: Parsers)
    requires ValidateConfig(c, p).None? && c.writeable
    ensures ShardConfig(c, p).maxSize > 0
  {
  }

  /**
   From validated settings the shard gets the parsed names, never the zero
   constant a parse error would leave, provided the shared name parsers the
   checks use accept no name the worker's own parsers refuse.
   */
  lemma ValidatedNamesReachShard(c: Config, p: Parsers)
    requires ValidateConfig(c, p).None?
    requires p.sharedQuantization(c.quantization) ==> CC.ParseQuantization(c.quantization).Success?
    requires p.sharedMetric(c.metric) ==> CC.ParseMetric(c.metric).Success?
    ensures CC.ParseQuantization(c.quantization) == Success(ShardConfig(c, p).quantization)
    ensures CC.ParseMetric(c.metric) == Success(ShardConfig(c, p).metric)
    ensures ShardConfig(c, p).dimensions > 0
  {
  }

  /**
   The checks and the shard use different name parsers: a metric the shared
   parser accepts and the worker's refuses passes validation and reaches the
   shard as InnerProduct.
   */
  lemma SharedOnlyMetricBecomesInnerProduct(c: Config, p: Parsers)
    requires ValidateConfig(c, p).None? && CC.ParseMetric(c.metric).Failure?
    ensures p.sharedMetric(c.metric)
    ensures ShardConfig(c, p).metric == CC.InnerProduct
  {
  }

  /**
   A read-only shard whose budget does not parse validates whenever the same
   settings with some other budget do, the shard built from it has a budget
   of 0, and so any successful load marks it full.
   */
  lemma ReadOnlyUnparseableBudgetLoadsFull(c: Config, p: Parsers, m: string, contents: Entries, size: nat)
    requires !c.writeable && p.byteSize(c.maxSize).None?
    requires ValidateConfig(c.(maxSize := m), p).None?
    ensures ValidateConfig(c, p).None?
    ensures ShardConfig(c, p).maxSize == 0
    ensures var s := Collection.Shard(map[], false, ShardConfig(c, p));
      Collection.Load(s, Success(contents), Success(size)).after.isFull
  {
    ReadOnlyIgnoresShardSettings(c.(maxSize := m), p, c.maxSize, c.autoSync, c.autoSyncInterval);
  }
}
