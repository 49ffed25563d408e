/**
 Shard configuration: the quantization and metric enumerations, their
 case-insensitive parsers, the default configuration, and the field mapping
 handed to the usearch index constructor.
 */
module CollectionConfig {
  import opened Outcomes

  /** Numeric encodings of vector components supported by usearch. */
  datatype Quantization = F32 | BF16 | F16 | F64 | I8 | B1

  /** Distance functions supported by usearch. */
  datatype Metric = InnerProduct | Cosine | L2sq | Haversine | Divergence | Pearson | Hamming | Tanimoto | Sorensen

  /** Why a configuration string was refused; `given` is the string as received, before lowercasing. */
  datatype ParseError = InvalidQuantization(given: string) | InvalidMetric(given: string)

  /** The value `iota` gives each quantization constant, which is also usearch's code for it. */
  function QuantizationCode(q: Quantization): (code: nat)
    ensures code < 6
    ensures QuantizationOfCode(code) == Some(q)
  {
    match q
    case F32 => 0
    case BF16 => 1
    case F16 => 2
    case F64 => 3
    case I8 => 4
    case B1 => 5
  }

  /** Reads a usearch quantization code back; codes outside the constant block name nothing. */
  function QuantizationOfCode(code: nat): Option<Quantization> {
    if code == 0 then Some(F32)
    else if code == 1 then Some(BF16)
    else if code == 2 then Some(F16)
    else if code == 3 then Some(F64)
    else if code == 4 then Some(I8)
    else if code == 5 then Some(B1)
    else None
  }

  /** The value `iota` gives each metric constant, which is also usearch's code for it. */
  function MetricCode(m: Metric): (code: nat)
    ensures code < 9
    ensures MetricOfCode(code) == Some(m)
  {
    match m
    case InnerProduct => 0
    case Cosine => 1
    case L2sq => 2
    case Haversine => 3
    case Divergence => 4
    case Pearson => 5
    case Hamming => 6
    case Tanimoto => 7
    case Sorensen => 8
  }

  /** Reads a usearch metric code back; codes outside the constant block name nothing. */
  function MetricOfCode(code: nat): Option<Metric> {
    if code == 0 then Some(InnerProduct)
    else if code == 1 then Some(Cosine)
    else if code == 2 then Some(L2sq)
    else if code == 3 then Some(Haversine)
    else if code == 4 then Some(Divergence)
    else if code == 5 then Some(Pearson)
    else if code == 6 then Some(Hamming)
    else if code == 7 then Some(Tanimoto)
    else if code == 8 then Some(Sorensen)
    else None
  }

  /** The lower-case spelling the parser accepts for each quantization. */
  function QuantizationName(q: Quantization): string {
    match q
    case F32 => "f32"
    case BF16 => "bf16"
    case F16 => "f16"
    case F64 => "f64"
    case I8 => "i8"
    case B1 => "b1"
  }

  /** The lower-case spelling the parser accepts for each metric. */
  function MetricName(m: Metric): string {
    match m
    case InnerProduct => "innerproduct"
    case Cosine => "cosine"
    case L2sq => "l2sq"
    case Haversine => "haversine"
    case Divergence => "divergence"
    case Pearson => "pearson"
    case Hamming => "hamming"
    case Tanimoto => "tanimoto"
    case Sorensen => "sorensen"
  }

  /** ASCII lowercasing of one character. */
  function LowerChar(ch: char): char {
    if 'A' <= ch <= 'Z' then (ch as int + 32) as char else ch
  }

  /**
   strings.ToLower restricted to ASCII letters. Go lowercases by Unicode
   simple case mapping, which also sends a few non-ASCII letters to ASCII
   ones (U+0130 to `i`); those are left unchanged here.
   */
  function Lower(s: string): (r: string)
    ensures |r| == |s|
    ensures forall i :: 0 <= i < |s| ==> r[i] == LowerChar(s[i])
  {
    if s == [] then [] else [LowerChar(s[0])] + Lower(s[1..])
  }

  /** Parses a quantization name, ignoring case. */
  function ParseQuantization(s: string): (r: Result<Quantization, ParseError>)
    ensures r.Success? ==> Lower(s) == QuantizationName(r.value)
    ensures r.Failure? ==> r.error == InvalidQuantization(s)
    ensures r.Failure? ==> forall q :: Lower(s) != QuantizationName(q)
  {
    var l := Lower(s);
    if l == "f32" then Success(F32)
    else if l == "bf16" then Success(BF16)
    else if l == "f16" then Success(F16)
    else if l == "f64" then Success(F64)
    else if l == "i8" then Success(I8)
    else if l == "b1" then Success(B1)
    else Failure(InvalidQuantization(s))
  }

  /** Parses a metric name, ignoring case. */
  function ParseMetric(s: string): (r: Result<Metric, ParseError>)
    ensures r.Success? ==> Lower(s) == MetricName(r.value)
    ensures r.Failure? ==> r.error == InvalidMetric(s)
    ensures r.Failure? ==> forall m :: Lower(s) != MetricName(m)
  {
    var l := Lower(s);
    if l == "innerproduct" then Success(InnerProduct)
    else if l == "cosine" then Success(Cosine)
    else if l == "l2sq" then Success(L2sq)
    else if l == "haversine" then Success(Haversine)
    else if l == "divergence" then Success(Divergence)
    else if l == "pearson" then Success(Pearson)
    else if l == "hamming" then Success(Hamming)
    else if l == "tanimoto" then Success(Tanimoto)
    else if l == "sorensen" then Success(Sorensen)
    else Failure(InvalidMetric(s))
  }

  /** Lowercasing twice is lowercasing once. */
  lemma LowerIdempotent(s: string)
    ensures Lower(Lower(s)) == Lower(s)
  {
  }

  /** Distinct quantizations have distinct accepted names. */
  lemma QuantizationNameInjective(p: Quantization, q: Quantization)
    ensures QuantizationName(p) == QuantizationName(q) ==> p == q
  {
  }

  /** Distinct metrics have distinct accepted names. */
  lemma MetricNameInjective(m: Metric, n: Metric)
    ensures MetricName(m) == MetricName(n) ==> m == n
  {
  }

  /** A string parses to `q` exactly when its lowercase form is `q`'s name. */
  lemma ParseQuantizationExactly(s: string, q: Quantization)
    ensures ParseQuantization(s) == Success(q) <==> Lower(s) == QuantizationName(q)
  {
  }

  /** A string parses to `m` exactly when its lowercase form is `m`'s name. */
  lemma ParseMetricExactly(s: string, m: Metric)
    ensures ParseMetric(s) == Success(m) <==> Lower(s) == MetricName(m)
  {
  }

  /** Parsing ignores case: a string and its lowercase form are accepted alike and name the same value. */
  lemma ParseIgnoresCase(s: string)
    ensures ParseQuantization(Lower(s)).Success? == ParseQuantization(s).Success?
    ensures ParseQuantization(s).Success? ==> ParseQuantization(Lower(s)) == ParseQuantization(s)
    ensures ParseMetric(Lower(s)).Success? == ParseMetric(s).Success?
    ensures ParseMetric(s).Success? ==> ParseMetric(Lower(s)) == ParseMetric(s)
  {
    LowerIdempotent(s);
  }

  /** Parsing is injective on accepted strings: two strings naming the same value agree once lowercased. */
  lemma ParseInjective(s: string, t: string)
    ensures ParseQuantization(s).Success? && ParseQuantization(s) == ParseQuantization(t) ==> Lower(s) == Lower(t)
    ensures ParseMetric(s).Success? && ParseMetric(s) == ParseMetric(t) ==> Lower(s) == Lower(t)
  {
  }

  /** Upper- and mixed-case spellings are accepted. */
  lemma ParseAcceptsAnyCase()
    ensures ParseQuantization("F32") == Success(F32)
    ensures ParseQuantization("BF16") == Success(BF16)
    ensures ParseMetric("Cosine") == Success(Cosine)
    ensures ParseMetric("L2SQ") == Success(L2sq)
  {
  }

  /** The long name of the squared Euclidean metric is not among the accepted ones. */
  lemma ParseRejectsLongL2Name()
    ensures ParseMetric("l2squared") == Failure(InvalidMetric("l2squared"))
  {
  }

  /**
   The shard's configuration (Go's CollectionConfig). Integer widths are the
   platform `uint`; nothing here adds or multiplies them, so `nat` stands in.
   `maxSize` is the serialized-size budget in bytes.
   */
  datatype Config = Config(
    quantization: Quantization,
    metric: Metric,
    dimensions: nat,
    connectivity: nat,
    expansionAdd: nat,
    expansionSearch: nat,
    multi: bool,
    maxSize: nat)

  /** The configuration every caller starts from before filling in the fields it knows. */
  function NewCollectionConfig(): (c: Config)
    ensures c.quantization == F32 && c.metric == Cosine
    ensures c.dimensions == 0 && c.connectivity == 0
    ensures c.expansionAdd == 0 && c.expansionSearch == 0
    ensures !c.multi
    ensures c.maxSize == 0
  {
    Config(F32, Cosine, 0, 0, 0, 0, false, 0)
  }

  /** The parameters given to usearch.NewIndex; enumerations travel as their numeric codes. */
  datatype IndexConfig = IndexConfig(
    quantization: nat,
    metric: nat,
    dimensions: nat,
    connectivity: nat,
    expansionAdd: nat,
    expansionSearch: nat)

  /** Builds the index parameters: every engine-facing field is carried over, multi and the size budget are not. */
  function ToUsearchConfig(c: Config): (u: IndexConfig)
    ensures QuantizationOfCode(u.quantization) == Some(c.quantization)
    ensures MetricOfCode(u.metric) == Some(c.metric)
    ensures u.dimensions == c.dimensions && u.connectivity == c.connectivity
    ensures u.expansionAdd == c.expansionAdd && u.expansionSearch == c.expansionSearch
  {
    IndexConfig(QuantizationCode(c.quantization), MetricCode(c.metric),
                c.dimensions, c.connectivity, c.expansionAdd, c.expansionSearch)
  }

  /** The index parameters do not depend on `multi` or on the size budget. */
  lemma ToUsearchConfigIgnoresCapacity(c: Config, multi: bool, maxSize: nat)
    ensures ToUsearchConfig(c.(multi := multi, maxSize := maxSize)) == ToUsearchConfig(c)
  {
  }

  /** The mapping to index parameters loses nothing it carries: it is injective on those fields. */
  lemma ToUsearchConfigInjective(c: Config, d: Config)
    requires ToUsearchConfig(c) == ToUsearchConfig(d)
    ensures c.quantization == d.quantization && c.metric == d.metric
    ensures c.dimensions == d.dimensions && c.connectivity == d.connectivity
    ensures c.expansionAdd == d.expansionAdd && c.expansionSearch == d.expansionSearch
  {
  }
}
