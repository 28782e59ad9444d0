/**
  The metric-shape tagged union of the pdata metrics model.

  A metric carries at most one payload out of seven shapes (int/double gauge,
  int/double sum, int/double histogram, summary); the discriminant
  MetricDataType is derived from which payload is present. Re-typing a metric
  is a destructive reset, the per-shape accessors are partial (a mismatch is a
  precondition violation, not an error value), and copyData deep-copies the
  active payload into another metric.
*/
module MetricVariant {
  import opened Wrappers

  /** Go's int32, the underlying type of MetricDataType. */
  newtype Int32 = x: int | -0x8000_0000 <= x < 0x8000_0000

  /** Label and attribute maps, as ordered key/value pairs. */
  type Labels = seq<(string, string)>

  /** A float64 carried as its IEEE-754 bit pattern: only equality matters here. */
  type Float64Bits = bv64

  /** How reported values relate to the aggregation interval. */
  datatype AggregationTemporality = Unspecified | Delta | Cumulative

  // Data points, one record per shape. Their contents are never inspected by
  // this model; only sequence lengths and equality matter.

  datatype IntDataPoint = IntDataPoint(
    labels: Labels, startTimeUnixNano: nat, timeUnixNano: nat, value: int)

  datatype DoubleDataPoint = DoubleDataPoint(
    labels: Labels, startTimeUnixNano: nat, timeUnixNano: nat, value: Float64Bits)

  datatype IntHistogramDataPoint = IntHistogramDataPoint(
    labels: Labels, startTimeUnixNano: nat, timeUnixNano: nat,
    count: nat, sum: int, bucketCounts: seq<nat>, explicitBounds: seq<Float64Bits>)

  datatype HistogramDataPoint = HistogramDataPoint(
    labels: Labels, startTimeUnixNano: nat, timeUnixNano: nat,
    count: nat, sum: Float64Bits, bucketCounts: seq<nat>, explicitBounds: seq<Float64Bits>)

  datatype ValueAtQuantile = ValueAtQuantile(quantile: Float64Bits, value: Float64Bits)

  datatype SummaryDataPoint = SummaryDataPoint(
    labels: Labels, startTimeUnixNano: nat, timeUnixNano: nat,
    count: nat, sum: Float64Bits, quantileValues: seq<ValueAtQuantile>)

  // The seven metric shapes.

  datatype IntGauge = IntGauge(dataPoints: seq<IntDataPoint>)

  datatype DoubleGauge = DoubleGauge(dataPoints: seq<DoubleDataPoint>)

  datatype IntSum = IntSum(
    aggregationTemporality: AggregationTemporality, isMonotonic: bool,
    dataPoints: seq<IntDataPoint>)

  datatype DoubleSum = DoubleSum(
    aggregationTemporality: AggregationTemporality, isMonotonic: bool,
    dataPoints: seq<DoubleDataPoint>)

  datatype IntHistogram = IntHistogram(
    aggregationTemporality: AggregationTemporality, dataPoints: seq<IntHistogramDataPoint>)

  datatype Histogram = Histogram(
    aggregationTemporality: AggregationTemporality, dataPoints: seq<HistogramDataPoint>)

  datatype Summary = Summary(dataPoints: seq<SummaryDataPoint>)

  /** The oneof payload of a metric: nothing, or exactly one shape. */
  datatype MetricData =
    | NoData
    | IntGaugeData(intGauge: IntGauge)
    | DoubleGaugeData(doubleGauge: DoubleGauge)
    | IntSumData(intSum: IntSum)
    | DoubleSumData(doubleSum: DoubleSum)
    | IntHistogramData(intHistogram: IntHistogram)
    | DoubleHistogramData(histogram: Histogram)
    | DoubleSummaryData(summary: Summary)

  datatype Metric = Metric(name: string, description: string, unit: string, data: MetricData)

  /** The discriminant of the union: None plus the seven shapes. */
  datatype MetricDataType =
    | NoneType | IntGaugeType | DoubleGaugeType | IntSumType | DoubleSumType
    | IntHistogramType | HistogramType | SummaryType

  /** The int32 value of each discriminant, in declaration order from 0. */
  function Code(t: MetricDataType): (c: Int32)
    ensures 0 <= c <= 7
    ensures c == 0 <==> t == NoneType
  {
    match t
    case NoneType => 0
    case IntGaugeType => 1
    case DoubleGaugeType => 2
    case IntSumType => 3
    case DoubleSumType => 4
    case IntHistogramType => 5
    case HistogramType => 6
    case SummaryType => 7
  }

  /** The discriminant an int32 stands for, if any. */
  function FromCode(c: Int32): (t: Option<MetricDataType>)
    ensures t.Some? <==> 0 <= c <= 7
    ensures t.Some? ==> Code(t.value) == c
  {
    if c == 0 then Some(NoneType)
    else if c == 1 then Some(IntGaugeType)
    else if c == 2 then Some(DoubleGaugeType)
    else if c == 3 then Some(IntSumType)
    else if c == 4 then Some(DoubleSumType)
    else if c == 5 then Some(IntHistogramType)
    else if c == 6 then Some(HistogramType)
    else if c == 7 then Some(SummaryType)
    else None
  }

  /** Every discriminant survives the trip through its int32 value. */
  lemma CodeRoundTrip(t: MetricDataType)
    ensures FromCode(Code(t)) == Some(t)
  {
  }

  /** The name of a discriminant value; the empty string outside the eight known values. */
  function DataTypeName(ty: Int32): (s: string)
    ensures s == "" <==> FromCode(ty).None?
  {
    if ty == 0 then "None"
    else if ty == 1 then "IntGauge"
    else if ty == 2 then "DoubleGauge"
    else if ty == 3 then "IntSum"
    else if ty == 4 then "DoubleSum"
    else if ty == 5 then "IntHistogram"
    else if ty == 6 then "Histogram"
    else if ty == 7 then "Summary"
    else ""
  }

  /** Distinct discriminants have distinct names, so the name identifies the shape. */
  lemma DataTypeNameInjective(a: MetricDataType, b: MetricDataType)
    ensures DataTypeName(Code(a)) == DataTypeName(Code(b)) ==> a == b
  {
  }

  /** The discriminant of a metric, read off whichever payload is present. */
  function DataType(m: Metric): (t: MetricDataType)
    ensures t == NoneType <==> m.data == NoData
    ensures t == IntGaugeType <==> m.data.IntGaugeData?
    ensures t == DoubleGaugeType <==> m.data.DoubleGaugeData?
    ensures t == IntSumType <==> m.data.IntSumData?
    ensures t == DoubleSumType <==> m.data.DoubleSumData?
    ensures t == IntHistogramType <==> m.data.IntHistogramData?
    ensures t == HistogramType <==> m.data.DoubleHistogramData?
    ensures t == SummaryType <==> m.data.DoubleSummaryData?
  {
    match m.data
    case NoData => NoneType
    case IntGaugeData(_) => IntGaugeType
    case DoubleGaugeData(_) => DoubleGaugeType
    case IntSumData(_) => IntSumType
    case DoubleSumData(_) => DoubleSumType
    case IntHistogramData(_) => IntHistogramType
    case DoubleHistogramData(_) => HistogramType
    case DoubleSummaryData(_) => SummaryType
  }

  /** A payload holding no data points and only default-valued fields. */
  predicate IsFreshPayload(d: MetricData)
  {
    match d
    case NoData => false
    case IntGaugeData(g) => g.dataPoints == []
    case DoubleGaugeData(g) => g.dataPoints == []
    case IntSumData(s) =>
      s.dataPoints == [] && s.aggregationTemporality == Unspecified && !s.isMonotonic
    case DoubleSumData(s) =>
      s.dataPoints == [] && s.aggregationTemporality == Unspecified && !s.isMonotonic
    case IntHistogramData(h) => h.dataPoints == [] && h.aggregationTemporality == Unspecified
    case DoubleHistogramData(h) => h.dataPoints == [] && h.aggregationTemporality == Unspecified
    case DoubleSummaryData(s) => s.dataPoints == []
  }

  /**
    Clears the payload and installs empty storage of the requested shape.
    A code that names no shape (None, or any other int32) matches no case
    and leaves the metric as it was.
  */
  function SetDataType(m: Metric, ty: Int32): (r: Metric)
    ensures r.name == m.name && r.description == m.description && r.unit == m.unit
    ensures 1 <= ty <= 7 ==> Code(DataType(r)) == ty && IsFreshPayload(r.data)
    ensures !(1 <= ty <= 7) ==> r == m
  {
    if ty == 1 then m.(data := IntGaugeData(IntGauge([])))
    else if ty == 2 then m.(data := DoubleGaugeData(DoubleGauge([])))
    else if ty == 3 then m.(data := IntSumData(IntSum(Unspecified, false, [])))
    else if ty == 4 then m.(data := DoubleSumData(DoubleSum(Unspecified, false, [])))
    else if ty == 5 then m.(data := IntHistogramData(IntHistogram(Unspecified, [])))
    else if ty == 6 then m.(data := DoubleHistogramData(Histogram(Unspecified, [])))
    else if ty == 7 then m.(data := DoubleSummaryData(Summary([])))
    else m
  }

  /** Setting any of the seven shapes makes DataType report exactly that shape. */
  lemma SetDataTypeThenDataType(m: Metric, k: MetricDataType)
    requires k != NoneType
    ensures DataType(SetDataType(m, Code(k))) == k
  {
  }

  /**
    Re-typing is a reset, not an upsert: the new payload does not depend on
    the old one, not even when the shape is unchanged.
  */
  lemma SetDataTypeForgetsPayload(m1: Metric, m2: Metric, ty: Int32)
    requires 1 <= ty <= 7
    ensures SetDataType(m1, ty).data == SetDataType(m2, ty).data
    ensures DataPointCount(SetDataType(m1, ty)) == 0
  {
  }

  // The seven partial accessors. Each is defined only when the discriminant
  // matches its shape and hands back the active payload.

  function AsIntGauge(m: Metric): (g: IntGauge)
    requires DataType(m) == IntGaugeType
    ensures m.data == IntGaugeData(g)
  {
    m.data.intGauge
  }

  function AsDoubleGauge(m: Metric): (g: DoubleGauge)
    requires DataType(m) == DoubleGaugeType
    ensures m.data == DoubleGaugeData(g)
  {
    m.data.doubleGauge
  }

  function AsIntSum(m: Metric): (s: IntSum)
    requires DataType(m) == IntSumType
    ensures m.data == IntSumData(s)
  {
    m.data.intSum
  }

  function AsDoubleSum(m: Metric): (s: DoubleSum)
    requires DataType(m) == DoubleSumType
    ensures m.data == DoubleSumData(s)
  {
    m.data.doubleSum
  }

  function AsIntHistogram(m: Metric): (h: IntHistogram)
    requires DataType(m) == IntHistogramType
    ensures m.data == IntHistogramData(h)
  {
    m.data.intHistogram
  }

  function AsHistogram(m: Metric): (h: Histogram)
    requires DataType(m) == HistogramType
    ensures m.data == DoubleHistogramData(h)
  {
    m.data.histogram
  }

  function AsSummary(m: Metric): (s: Summary)
    requires DataType(m) == SummaryType
    ensures m.data == DoubleSummaryData(s)
  {
    m.data.summary
  }

  /**
    The number of data points of the active shape, dispatched on the
    discriminant through the matching accessor; a metric without payload
    has none.
  */
  function DataPointCount(m: Metric): (n: nat)
    ensures DataType(m) == NoneType ==> n == 0
    ensures m.data.IntGaugeData? ==> n == |m.data.intGauge.dataPoints|
    ensures m.data.DoubleGaugeData? ==> n == |m.data.doubleGauge.dataPoints|
    ensures m.data.IntSumData? ==> n == |m.data.intSum.dataPoints|
    ensures m.data.DoubleSumData? ==> n == |m.data.doubleSum.dataPoints|
    ensures m.data.IntHistogramData? ==> n == |m.data.intHistogram.dataPoints|
    ensures m.data.DoubleHistogramData? ==> n == |m.data.histogram.dataPoints|
    ensures m.data.DoubleSummaryData? ==> n == |m.data.summary.dataPoints|
  {
    match DataType(m)
    case NoneType => 0
    case IntGaugeType => |AsIntGauge(m).dataPoints|
    case DoubleGaugeType => |AsDoubleGauge(m).dataPoints|
    case IntSumType => |AsIntSum(m).dataPoints|
    case DoubleSumType => |AsDoubleSum(m).dataPoints|
    case IntHistogramType => |AsIntHistogram(m).dataPoints|
    case HistogramType => |AsHistogram(m).dataPoints|
    case SummaryType => |AsSummary(m).dataPoints|
  }

  /**
    Deep-copies the active payload of src into dest. Only dest's payload is
    written; when src has no payload, dest is left untouched.
  */
  function CopyData(src: Metric, dest: Metric): (r: Metric)
    ensures r.name == dest.name && r.description == dest.description && r.unit == dest.unit
    ensures src.data != NoData ==> r.data == src.data
    ensures src.data == NoData ==> r == dest
  {
    match src.data
    case NoData => dest
    case IntGaugeData(g) => dest.(data := IntGaugeData(IntGauge(g.dataPoints)))
    case DoubleGaugeData(g) => dest.(data := DoubleGaugeData(DoubleGauge(g.dataPoints)))
    case IntSumData(s) =>
      dest.(data := IntSumData(IntSum(s.aggregationTemporality, s.isMonotonic, s.dataPoints)))
    case DoubleSumData(s) =>
      dest.(data := DoubleSumData(DoubleSum(s.aggregationTemporality, s.isMonotonic, s.dataPoints)))
    case IntHistogramData(h) =>
      dest.(data := IntHistogramData(IntHistogram(h.aggregationTemporality, h.dataPoints)))
    case DoubleHistogramData(h) =>
      dest.(data := DoubleHistogramData(Histogram(h.aggregationTemporality, h.dataPoints)))
    case DoubleSummaryData(s) => dest.(data := DoubleSummaryData(Summary(s.dataPoints)))
  }

  /**
    After copyData, dest reports src's shape and point count when src has a
    payload, and keeps its own otherwise.
  */
  lemma CopyDataShape(src: Metric, dest: Metric)
    ensures DataType(CopyData(src, dest))
         == (if DataType(src) == NoneType then DataType(dest) else DataType(src))
    ensures DataPointCount(CopyData(src, dest))
         == (if DataType(src) == NoneType then DataPointCount(dest) else DataPointCount(src))
  {
  }
}
