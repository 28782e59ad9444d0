# pdata metrics: a Dafny model

This project models the canonical metrics data model of the OpenTelemetry
collector's `pdata` package (`consumer/pdata/metrics.go`). It covers three parts:

- **The metric-shape tagged union.** A metric holds either no payload or
  exactly one of seven shapes: IntGauge, DoubleGauge, IntSum, DoubleSum,
  IntHistogram, Histogram and Summary.
  - `DataType` derives the `MetricDataType` discriminant from the payload.
  - `SetDataType` is a destructive reset to fresh empty storage.
  - The seven accessors are partial. Their precondition is that the
    discriminant matches.
  - `copyData` deep-copies the active payload into another metric.
- **The record tree and its traversals.** `Metrics` owns a tree of resource
  → instrumentation library → metric. `NewMetrics` creates an empty tree.
  `Clone` deep-copies it. `MetricCount` and `MetricAndDataPointCount` walk
  it with nested loops.
- **The codec boundary.**
  - A marshaler translates `Metrics` to a protocol model and then encodes it.
  - An unmarshaler decodes and then translates.
  - Both fail fast. They wrap the failing stage's error with a
    stage-specific context, and return nil bytes or the zero `Metrics` on
    error.
  - The protocol's own byte format is handled by `MetricsFromOtlpProtoBytes`
    and `ToOtlpProtoBytes`. They skip the translator.

Files:

- `wrappers.dfy`: `Option`.
- `metric_variant.dfy`: module `MetricVariant`, the union, its discriminant
  and the accessors.
- `metrics_tree.dfy`: module `MetricsTree`, the tree, `Clone`, the two
  traversals and the lemmas about them.
- `metrics_codec.dfy`: module `MetricsCodec`, errors, the marshaling
  pipelines and the proto-bytes entry points.

The model uses value semantics. Every operation is a pure function over
immutable datatypes, and the traversals are methods whose loops mirror the
source. The four codec stages are caller-supplied functions. Each returns a
Go-style `(value, error)` pair, with `Option<Error>` standing for the error.
A `Metrics` value with `orig == None` is Go's zero `Metrics{}`.

The error contexts are exactly the strings in the code: "converting pdata to
model failed", "marshal failed", "unmarshal failed" and "converting model to
pdata failed".

## Model

| member | source | states |
|---|---|---|
| MetricVariant.Code | consumer/pdata/metrics.go:233-245 | the eight discriminants take the int32 values 0..7, and only None is 0 |
| MetricVariant.FromCode | consumer/pdata/metrics.go:233-245 | an int32 names a discriminant exactly when it lies in 0..7, and that discriminant's code is the int32 |
| MetricVariant.CodeRoundTrip | consumer/pdata/metrics.go:233-245 | every discriminant survives the trip through its int32 value |
| MetricVariant.DataTypeName | consumer/pdata/metrics.go:247-268 | the name is empty exactly for int32 values that name no discriminant |
| MetricVariant.DataTypeNameInjective | consumer/pdata/metrics.go:247-268 | distinct discriminants have distinct names |
| MetricVariant.DataType | consumer/pdata/metrics.go:270-290 | each oneof payload maps to its own discriminant (DoubleHistogram to Histogram, DoubleSummary to Summary), and the discriminant is None exactly when no payload is set |
| MetricVariant.SetDataType | consumer/pdata/metrics.go:292-311 | for codes 1..7 the metric then reports that discriminant and holds fresh empty storage (no points, default temporality, not monotonic); any other code, None included, leaves the metric unchanged; name, description and unit are never touched |
| MetricVariant.SetDataTypeThenDataType | consumer/pdata/metrics.go:272-311 | for each of the seven shapes k, DataType after SetDataType(k) is k |
| MetricVariant.SetDataTypeForgetsPayload | consumer/pdata/metrics.go:292-311 | the new payload does not depend on the old one, even when the shape is unchanged, and it has zero data points |
| MetricVariant.AsIntGauge | consumer/pdata/metrics.go:313-318 | defined only when the discriminant is IntGauge; returns the active payload |
| MetricVariant.AsDoubleGauge | consumer/pdata/metrics.go:320-325 | defined only when the discriminant is DoubleGauge; returns the active payload |
| MetricVariant.AsIntSum | consumer/pdata/metrics.go:327-332 | defined only when the discriminant is IntSum; returns the active payload |
| MetricVariant.AsDoubleSum | consumer/pdata/metrics.go:334-339 | defined only when the discriminant is DoubleSum; returns the active payload |
| MetricVariant.AsIntHistogram | consumer/pdata/metrics.go:341-346 | defined only when the discriminant is IntHistogram; returns the active payload |
| MetricVariant.AsHistogram | consumer/pdata/metrics.go:348-353 | defined only when the discriminant is Histogram; returns the active payload |
| MetricVariant.AsSummary | consumer/pdata/metrics.go:355-360 | defined only when the discriminant is Summary; returns the active payload |
| MetricVariant.DataPointCount | consumer/pdata/metrics.go:209-227 | the dispatch on the discriminant through the accessors yields the length of the active payload's data-point list for each of the seven shapes, and 0 for a metric without payload |
| MetricVariant.CopyData | consumer/pdata/metrics.go:362-393 | dest gets src's payload with equal contents; when src has no payload, dest is returned untouched; only dest's payload is ever written |
| MetricVariant.CopyDataShape | consumer/pdata/metrics.go:362-393 | after copyData, dest reports src's discriminant and point count, or keeps its own when src has no payload |
| MetricsTree.NewMetrics | consumer/pdata/metrics.go:128-131 | a valid root whose resource metrics slice is empty, distinct from the zero Metrics |
| MetricsTree.ResourceMetricsOf | consumer/pdata/metrics.go:172-175 | defined only for a root with a record (a nil root panics); the slice it returns is the root's whole record, so the root is determined by it |
| MetricsTree.CopyMetric | consumer/pdata/metrics.go:362-393 | copying a metric onto a destination reproduces the source when the source has a payload or the destination has none; otherwise the destination's payload survives |
| MetricsTree.CloneMetricSlice | consumer/pdata/metrics.go:165-170 | copying each metric onto a fresh metric yields the same metric list |
| MetricsTree.CloneLibraryMetricsSlice | consumer/pdata/metrics.go:165-170 | the deep copy of a library list equals it |
| MetricsTree.CloneResourceMetricsSlice | consumer/pdata/metrics.go:165-170 | the deep copy of a resource list equals it |
| MetricsTree.Clone | consumer/pdata/metrics.go:165-170 | the clone of a valid root is valid and equal to it |
| MetricsTree.MetricCount | consumer/pdata/metrics.go:177-190 | the nested loops count exactly the metrics of the whole tree in reporting order |
| MetricsTree.MetricAndDataPointCount | consumer/pdata/metrics.go:198-231 | the first result is the same metric total as MetricCount's; the second is the sum of the active shapes' point counts over every metric |
| MetricsTree.PointsInConcat | consumer/pdata/metrics.go:198-231 | the data-point total of two metric lists joined is the sum of their totals |
| MetricsTree.AppendMetricCounts | consumer/pdata/metrics.go:198-231 | appending a metric to any library raises the metric count by one and the point count by the new metric's points |
| MetricsTree.AppendNoneMetricCounts | consumer/pdata/metrics.go:198-231 | appending a metric without payload raises only the metric count |
| MetricsTree.UniformMetricCount | consumer/pdata/metrics.go:177-190 | R resources with S libraries of M metrics each hold R*S*M metrics |
| MetricsTree.SingleIntSumScenario | consumer/pdata/metrics.go:165-231 | one cumulative IntSum metric with three points counts as (1, 3), and its clone is the same tree |
| MetricsCodec.Errorf | consumer/pdata/metrics.go:77 | a wrapped error unwraps to its cause, and its message is the context, ": ", then the cause's message |
| MetricsCodec.Marshal | consumer/pdata/metrics.go:73-84 | a translation error gives nil bytes and that error wrapped as "converting pdata to model failed"; an encoding error gives nil bytes and that error wrapped as "marshal failed"; otherwise exactly the encoder's bytes and no error |
| MetricsCodec.Unmarshal | consumer/pdata/metrics.go:106-117 | a decoding error gives the zero Metrics and that error wrapped as "unmarshal failed"; a translation error gives the zero Metrics and that error wrapped as "converting model to pdata failed"; otherwise exactly the translator's Metrics |
| MetricsCodec.MarshalFailsIffStageFails | consumer/pdata/metrics.go:73-84 | Marshal reports an error if and only if one of its stages does |
| MetricsCodec.UnmarshalFailsIffStageFails | consumer/pdata/metrics.go:106-117 | Unmarshal reports an error if and only if one of its stages does |
| MetricsCodec.MarshalSkipsEncoderOnTranslateError | consumer/pdata/metrics.go:74-78 | after a translation error the result does not depend on the encoder, so the encoder is never used |
| MetricsCodec.UnmarshalSkipsTranslatorOnDecodeError | consumer/pdata/metrics.go:107-111 | after a decoding error the result does not depend on the translator |
| MetricsCodec.PipelineRoundTrip | consumer/pdata/metrics.go:73-117 | when the unmarshaler's stages undo the marshaler's on a value, Unmarshal(Marshal(td)) gives td back without error |
| MetricsCodec.MetricsFromOtlpProtoBytes | consumer/pdata/metrics.go:139-149 | a decoding error gives the zero Metrics with the decoder's error unwrapped; otherwise a valid Metrics over exactly the decoded record |
| MetricsCodec.ProtoBytesRoundTrip | consumer/pdata/metrics.go:139-163 | if the protocol codec reads back what it writes, a valid Metrics survives ToOtlpProtoBytes followed by MetricsFromOtlpProtoBytes |

## Left out

- MetricsCodec.ToOtlpProtoBytes: the function only delegates to the protocol's generated encoder, so it has no contract of its own. The source's comment promises nil bytes on error, but that promise belongs to the generated encoder, which is not part of this model.
- `OtlpProtoSize`, and the byte-level protobuf encoding and decoding: these are generated code outside this file. The protocol codec is a function parameter here.
- `MetricsFromInternalRep` and `InternalRep`: they convert through the `internal` package, which is not part of this model.
- `AggregationTemporality.String`: it delegates to generated enum names. The three temporality values are kept as a plain enum.
- Data-point contents: the fields are a representative record per shape. Doubles are kept as their 64-bit patterns, and only equality and sequence lengths matter.
- Views and aliasing: the Go wrappers are pointers into one shared tree, but the model works on values. Clone independence therefore holds by construction and is stated as `Clone(md) == md`.
- Resource and instrumentation-library contents: a resource is its attribute list and a library its name and version. The generated `CopyTo` methods that `Clone` relies on are not part of this model; the model assumes they copy exactly these fields.
- Slice `CopyTo` with a reused destination: this is generated code. `Clone` always copies into fresh elements, and that is the only case modelled. `CopyMetric` records what happens with a used destination whose source has no payload.
- The zero-initialized `Metric` handle, whose accessors panic: a metric value always exists in the model. A nil `Metrics` root is modelled as `orig == None`, and `Valid()` is required wherever the source dereferences it.
- Integer widths: the counts are Go `int` and are unbounded here; Go overflow at 2^63 is not modelled. Timestamps, counts and int64 point values are unbounded as well.
- `NewMetricsMarshaler` and `NewMetricsUnmarshaler` are the constructors of the `MetricsMarshaler` and `MetricsUnmarshaler` datatypes. They have no separate member.
- `config/configoauth2/configoauth2client.go`: an HTTP transport wrapper whose only logic is three non-empty field checks. It has no state and sits outside the metrics model.
