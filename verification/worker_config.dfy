/**
 Startup configuration of the worker and the ordered checks that decide
 whether it may start.

 The third-party parsers are not modelled: `Parsers` carries them as
 uninterpreted functions (log level, byte size, duration), and so are the
 name parsers of the shared collection package, which the checks call
 instead of the worker's own.
 */
module WorkerConfig {
  import opened Outcomes
  import CC = CollectionConfig

  /** The settings read from the environment (Go's config.Config). `port` is a signed int. */
  datatype Config = Config(
    host: string,
    port: int,
    logLevel: string,
    quantization: string,
    metric: string,
    dimensions: nat,
    shardPath: string,
    writeable: bool,
    maxSize: string,
    autoSync: bool,
    autoSyncInterval: string)

  /**
   The parsers the checks call. `level` is log.ParseLevel read as a level
   number and `panicLevel` the number of log.PanicLevel; `byteSize` is
   datasize.ParseString (None on a parse error); `duration` is
   time.ParseDuration in nanoseconds (None on a parse error);
   `sharedQuantization` and `sharedMetric` say whether the shared collection
   package's ParseQuantization and ParseMetric accept a name.
   */
  datatype Parsers = Parsers(
    level: string -> int,
    panicLevel: int,
    byteSize: string -> Option<nat>,
    duration: string -> Option<int>,
    sharedQuantization: string -> bool,
    sharedMetric: string -> bool)

  /** The first check that failed; each check has its own error. */
  datatype ConfigError =
    | HostRequired
    | PortNotPositive
    | ShardPathRequired
    | InvalidLogLevel(level: string)
    | DimensionsNotPositive
    | InvalidQuantization(given: string)
    | InvalidMetric(given: string)
    | MaxSizeUnparseable(given: string)
    | MaxSizeNotPositive
    | IntervalUnparseable(given: string)
    | IntervalNotPositive

  /** The settings' defaults as the `envDefault` tags give them; the shard path has none. */
  function EnvDefaults(): Config {
    Config("0.0.0.0", 3000, "info", "F32", "Cosine", 128, "", false, "1GB", false, "1m")
  }

  /** The shard size budget in bytes, or the parse error. */
  function ParseShardMaxSize(size: string, p: Parsers): (r: Result<nat, ConfigError>)
    ensures r.Success? <==> p.byteSize(size).Some?
    ensures r.Success? ==> r.value == p.byteSize(size).value
    ensures r.Failure? ==> r.error == MaxSizeUnparseable(size)
  {
    match p.byteSize(size)
    case Some(n) => Success(n)
    case None => Failure(MaxSizeUnparseable(size))
  }

  /** The number of checks ValidateConfig makes. */
  const CheckCount: nat := 11

  /**
   Check `k` of the chain, in source order: host, port, shard path, log
   level, dimensions, quantization, metric, then (writable shards only) the
   size budget parses, is positive, and (with auto-sync only) the interval
   parses, is positive. A check whose input an earlier check already refused
   passes vacuously.
   */
  predicate Passes(c: Config, p: Parsers, k: nat) {
    if k == 0 then c.host != ""
    else if k == 1 then c.port > 0
    else if k == 2 then c.shardPath != ""
    else if k == 3 then p.level(c.logLevel) <= p.panicLevel
    else if k == 4 then c.dimensions > 0
    else if k == 5 then p.sharedQuantization(c.quantization)
    else if k == 6 then p.sharedMetric(c.metric)
    else if k == 7 then !c.writeable || p.byteSize(c.maxSize).Some?
    else if k == 8 then !c.writeable || p.byteSize(c.maxSize).None? || p.byteSize(c.maxSize).value > 0
    else if k == 9 then !c.writeable || !c.autoSync || p.duration(c.autoSyncInterval).Some?
    else if k == 10 then !c.writeable || !c.autoSync || p.duration(c.autoSyncInterval).None? || p.duration(c.autoSyncInterval).value > 0
    else true
  }

  /** The error check `k` reports. */
  function CheckError(c: Config, k: nat): ConfigError {
    if k == 0 then HostRequired
    else if k == 1 then PortNotPositive
    else if k == 2 then ShardPathRequired
    else if k == 3 then InvalidLogLevel(c.logLevel)
    else if k == 4 then DimensionsNotPositive
    else if k == 5 then InvalidQuantization(c.quantization)
    else if k == 6 then InvalidMetric(c.metric)
    else if k == 7 then MaxSizeUnparseable(c.maxSize)
    else if k == 8 then MaxSizeNotPositive
    else if k == 9 then IntervalUnparseable(c.autoSyncInterval)
    else IntervalNotPositive
  }

  /** The position of each error's check in the chain. */
  function Rank(e: ConfigError): nat {
    match e
    case HostRequired => 0
    case PortNotPositive => 1
    case ShardPathRequired => 2
    case InvalidLogLevel(_) => 3
    case DimensionsNotPositive => 4
    case InvalidQuantization(_) => 5
    case InvalidMetric(_) => 6
    case MaxSizeUnparseable(_) => 7
    case MaxSizeNotPositive => 8
    case IntervalUnparseable(_) => 9
    case IntervalNotPositive => 10
  }

  /** Runs the checks in order; the first that fails decides the error. */
  function ValidateConfig(c: Config, p: Parsers): (r: Option<ConfigError>)
    ensures r.Some? ==>
      var k := Rank(r.value);
      && k < CheckCount
      && !Passes(c, p, k)
      && r.value == CheckError(c, k)
      && forall j :: 0 <= j < k ==> Passes(c, p, j)
    ensures r.None? <==> forall k :: 0 <= k < CheckCount ==> Passes(c, p, k)
  {
    if c.host == "" then Some(HostRequired)
    else if c.port <= 0 then Some(PortNotPositive)
    else if c.shardPath == "" then Some(ShardPathRequired)
    else if p.level(c.logLevel) > p.panicLevel then Some(InvalidLogLevel(c.logLevel))
    else if c.dimensions <= 0 then Some(DimensionsNotPositive)
    else if !p.sharedQuantization(c.quantization) then Some(InvalidQuantization(c.quantization))
    else if !p.sharedMetric(c.metric) then Some(InvalidMetric(c.metric))
    else if c.writeable then
      match ParseShardMaxSize(c.maxSize, p)
      case Failure(e) => Some(e)
      case Success(maxSize) =>
        if maxSize <= 0 then Some(MaxSizeNotPositive)
        else if c.autoSync then
          match p.duration(c.autoSyncInterval)
          case None => Some(IntervalUnparseable(c.autoSyncInterval))
          case Some(interval) => if interval <= 0 then Some(IntervalNotPositive) else None
        else None
    else None
  }

  /**
   The shard configuration the worker builds from validated settings, with
   the worker's own name parsers. Parse errors are discarded in the source:
   a budget that does not parse becomes 0 and a name that does not parse
   becomes the zero constant, so a metric the worker cannot read is
   InnerProduct, not the default Cosine. The graph parameters and `multi`
   keep the defaults' zero values.
   */
  function ShardConfig(c: Config, p: Parsers): (sc: CC.Config)
    ensures sc.dimensions == c.dimensions
    ensures p.byteSize(c.maxSize).Some? ==> sc.maxSize == p.byteSize(c.maxSize).value
    ensures p.byteSize(c.maxSize).None? ==> sc.maxSize == 0
    ensures CC.ParseQuantization(c.quantization).Success? ==> sc.quantization == CC.ParseQuantization(c.quantization).value
    ensures CC.ParseQuantization(c.quantization).Failure? ==> sc.quantization == CC.F32
    ensures CC.ParseMetric(c.metric).Success? ==> sc.metric == CC.ParseMetric(c.metric).value
    ensures CC.ParseMetric(c.metric).Failure? ==> sc.metric == CC.InnerProduct
    ensures sc.connectivity == 0 && sc.expansionAdd == 0 && sc.expansionSearch == 0 && !sc.multi
  {
    var base := CC.NewCollectionConfig();
    var maxSize := match ParseShardMaxSize(c.maxSize, p) case Success(n) => n case Failure(_) => 0;
    var q := match CC.ParseQuantization(c.quantization) case Success(q) => q case Failure(_) => CC.F32;
    var m := match CC.ParseMetric(c.metric) case Success(m) => m case Failure(_) => CC.InnerProduct;
    base.(maxSize := maxSize, dimensions := c.dimensions, quantization := q, metric := m)
  }
}
