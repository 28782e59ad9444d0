/**
  The record tree of the pdata metrics model: resource -> instrumentation
  library -> metric, owned by a Metrics root, together with Clone and the two
  aggregate traversals MetricCount and MetricAndDataPointCount.

  The tree is modelled by value, so views into it are plain reads and a clone
  shares nothing by construction.
*/
module MetricsTree {
  import opened Wrappers
  import opened MetricVariant

  /** A resource, identified by its attributes. */
  datatype Resource = Resource(attributes: Labels)

  datatype InstrumentationLibrary = InstrumentationLibrary(name: string, version: string)

  datatype InstrumentationLibraryMetrics = InstrumentationLibraryMetrics(
    instrumentationLibrary: InstrumentationLibrary, metrics: seq<Metric>)

  datatype ResourceMetrics = ResourceMetrics(
    resource: Resource, instrumentationLibraryMetrics: seq<InstrumentationLibraryMetrics>)

  /** The protocol record the Metrics root points to. */
  datatype ExportMetricsServiceRequest = ExportMetricsServiceRequest(
    resourceMetrics: seq<ResourceMetrics>)

  /**
    The root handle. `orig` is None for the zero value `Metrics{}`, which is
    returned beside every error and must not be read.
  */
  datatype Metrics = Metrics(orig: Option<ExportMetricsServiceRequest>) {
    predicate Valid() { orig.Some? }
  }

  /** The zero Metrics value: no tree at all, distinct from an empty tree. */
  const ZeroMetrics: Metrics := Metrics(None)

  /** A metric as freshly allocated: empty strings and no payload. */
  const FreshMetric: Metric := Metric("", "", "", NoData)

  /** The resource metrics slice of a valid root. */
  function ResourceMetricsOf(md: Metrics): (rms: seq<ResourceMetrics>)
    requires md.Valid()
    ensures md == Metrics(Some(ExportMetricsServiceRequest(rms)))
  {
    md.orig.value.resourceMetrics
  }

  // Reference definition of the traversal: every metric of the tree, in
  // reporting order.

  function LibraryListMetrics(ilms: seq<InstrumentationLibraryMetrics>): seq<Metric>
  {
    if |ilms| == 0 then []
    else LibraryListMetrics(ilms[..|ilms| - 1]) + ilms[|ilms| - 1].metrics
  }

  function ResourceListMetrics(rms: seq<ResourceMetrics>): seq<Metric>
  {
    if |rms| == 0 then []
    else ResourceListMetrics(rms[..|rms| - 1])
         + LibraryListMetrics(rms[|rms| - 1].instrumentationLibraryMetrics)
  }

  function AllMetrics(md: Metrics): seq<Metric>
    requires md.Valid()
  {
    ResourceListMetrics(ResourceMetricsOf(md))
  }

  /** The data points of the active shapes of a list of metrics, summed. */
  function PointsIn(ms: seq<Metric>): nat
  {
    if |ms| == 0 then 0 else PointsIn(ms[..|ms| - 1]) + DataPointCount(ms[|ms| - 1])
  }

  /** Creates a valid root over an empty tree. */
  function NewMetrics(): (md: Metrics)
    ensures md.Valid() && ResourceMetricsOf(md) == []
    ensures md != ZeroMetrics
  {
    Metrics(Some(ExportMetricsServiceRequest([])))
  }

  // Clone: a fresh root into which the resource slice is copied. Each
  // destination element is freshly allocated, so every metric is copied by
  // Metric.CopyTo (the three strings, then copyData) onto FreshMetric.

  /** Metric.CopyTo: name, description and unit, then copyData. */
  function CopyMetric(src: Metric, dest: Metric): (r: Metric)
    ensures r.name == src.name && r.description == src.description && r.unit == src.unit
    ensures src.data != NoData || dest.data == NoData ==> r == src
    ensures src.data == NoData ==> r.data == dest.data
  {
    CopyData(src, dest.(name := src.name, description := src.description, unit := src.unit))
  }

  function CloneMetricSlice(ms: seq<Metric>): (r: seq<Metric>)
    ensures r == ms
  {
    if |ms| == 0 then []
    else CloneMetricSlice(ms[..|ms| - 1]) + [CopyMetric(ms[|ms| - 1], FreshMetric)]
  }

  function CloneLibraryMetricsSlice(ilms: seq<InstrumentationLibraryMetrics>)
    : (r: seq<InstrumentationLibraryMetrics>)
    ensures r == ilms
  {
    if |ilms| == 0 then []
    else
      var last := ilms[|ilms| - 1];
      CloneLibraryMetricsSlice(ilms[..|ilms| - 1])
      + [InstrumentationLibraryMetrics(last.instrumentationLibrary, CloneMetricSlice(last.metrics))]
  }

  function CloneResourceMetricsSlice(rms: seq<ResourceMetrics>): (r: seq<ResourceMetrics>)
    ensures r == rms
  {
    if |rms| == 0 then []
    else
      var last := rms[|rms| - 1];
      CloneResourceMetricsSlice(rms[..|rms| - 1])
      + [ResourceMetrics(last.resource,
                         CloneLibraryMetricsSlice(last.instrumentationLibraryMetrics))]
  }

  /** A deep copy of a valid root: equal to it, and itself valid. */
  function Clone(md: Metrics): (c: Metrics)
    requires md.Valid()
    ensures c.Valid() && c == md
  {
    Metrics(Some(ExportMetricsServiceRequest(CloneResourceMetricsSlice(ResourceMetricsOf(md)))))
  }

  // The traversals.

  lemma {:induction false} PointsInConcat(a: seq<Metric>, b: seq<Metric>)
    ensures PointsIn(a + b) == PointsIn(a) + PointsIn(b)
    decreases |b|
  {
    if |b| == 0 {
      assert a + b == a;
    } else {
      var b' := b[..|b| - 1];
      assert (a + b)[..|a + b| - 1] == a + b';
      PointsInConcat(a, b');
    }
  }

  // One loop iteration's worth of each prefix definition.

  lemma PointsInStep(ms: seq<Metric>, k: nat)
    requires k < |ms|
    ensures PointsIn(ms[..k + 1]) == PointsIn(ms[..k]) + DataPointCount(ms[k])
  {
    assert ms[..k + 1][..k] == ms[..k];
  }

  lemma LibraryListMetricsStep(ilms: seq<InstrumentationLibraryMetrics>, j: nat)
    requires j < |ilms|
    ensures LibraryListMetrics(ilms[..j + 1]) == LibraryListMetrics(ilms[..j]) + ilms[j].metrics
  {
    assert ilms[..j + 1][..j] == ilms[..j];
  }

  lemma ResourceListMetricsStep(rms: seq<ResourceMetrics>, i: nat)
    requires i < |rms|
    ensures ResourceListMetrics(rms[..i + 1])
         == ResourceListMetrics(rms[..i]) + LibraryListMetrics(rms[i].instrumentationLibraryMetrics)
  {
    assert rms[..i + 1][..i] == rms[..i];
  }

  /** The total number of metrics, summed over every resource and library. */
  method MetricCount(md: Metrics) returns (metricCount: nat)
    requires md.Valid()
    ensures metricCount == |AllMetrics(md)|
  {
    metricCount := 0;
    var rms := ResourceMetricsOf(md);
    var i := 0;
    while i < |rms|
      invariant 0 <= i <= |rms|
      invariant metricCount == |ResourceListMetrics(rms[..i])|
    {
      var ilms := rms[i].instrumentationLibraryMetrics;
      var j := 0;
      while j < |ilms|
        invariant 0 <= j <= |ilms|
        invariant metricCount
               == |ResourceListMetrics(rms[..i])| + |LibraryListMetrics(ilms[..j])|
      {
        metricCount := metricCount + |ilms[j].metrics|;
        LibraryListMetricsStep(ilms, j);
        j := j + 1;
      }
      assert ilms[..j] == ilms;
      ResourceListMetricsStep(rms, i);
      i := i + 1;
    }
    assert rms[..i] == rms;
  }

  /**
    The total number of metrics and of data points; each metric contributes
    the points of its active shape, and a metric without payload none.
  */
  method MetricAndDataPointCount(md: Metrics) returns (metricCount: nat, dataPointCount: nat)
    requires md.Valid()
    ensures metricCount == |AllMetrics(md)|
    ensures dataPointCount == PointsIn(AllMetrics(md))
  {
    metricCount := 0;
    dataPointCount := 0;
    var rms := ResourceMetricsOf(md);
    var i := 0;
    while i < |rms|
      invariant 0 <= i <= |rms|
      invariant metricCount == |ResourceListMetrics(rms[..i])|
      invariant dataPointCount == PointsIn(ResourceListMetrics(rms[..i]))
    {
      var ilms := rms[i].instrumentationLibraryMetrics;
      var j := 0;
      while j < |ilms|
        invariant 0 <= j <= |ilms|
        invariant metricCount
               == |ResourceListMetrics(rms[..i])| + |LibraryListMetrics(ilms[..j])|
        invariant dataPointCount
               == PointsIn(ResourceListMetrics(rms[..i])) + PointsIn(LibraryListMetrics(ilms[..j]))
      {
        var ms := ilms[j].metrics;
        metricCount := metricCount + |ms|;
        var k := 0;
        while k < |ms|
          invariant 0 <= k <= |ms|
          invariant dataPointCount
                 == PointsIn(ResourceListMetrics(rms[..i])) + PointsIn(LibraryListMetrics(ilms[..j]))
                    + PointsIn(ms[..k])
        {
          dataPointCount := dataPointCount + DataPointCount(ms[k]);
          PointsInStep(ms, k);
          k := k + 1;
        }
        assert ms[..k] == ms;
        LibraryListMetricsStep(ilms, j);
        PointsInConcat(LibraryListMetrics(ilms[..j]), ms);
        j := j + 1;
      }
      assert ilms[..j] == ilms;
      ResourceListMetricsStep(rms, i);
      PointsInConcat(ResourceListMetrics(rms[..i]), LibraryListMetrics(ilms));
      i := i + 1;
    }
    assert rms[..i] == rms;
  }

  // Properties of the traversals.

  lemma {:induction false} LibraryListMetricsConcat(
    a: seq<InstrumentationLibraryMetrics>, b: seq<InstrumentationLibraryMetrics>)
    ensures LibraryListMetrics(a + b) == LibraryListMetrics(a) + LibraryListMetrics(b)
    decreases |b|
  {
    if |b| == 0 {
      assert a + b == a;
    } else {
      var b' := b[..|b| - 1];
      assert (a + b)[..|a + b| - 1] == a + b';
      LibraryListMetricsConcat(a, b');
    }
  }

  lemma {:induction false} ResourceListMetricsConcat(a: seq<ResourceMetrics>, b: seq<ResourceMetrics>)
    ensures ResourceListMetrics(a + b) == ResourceListMetrics(a) + ResourceListMetrics(b)
    decreases |b|
  {
    if |b| == 0 {
      assert a + b == a;
    } else {
      var b' := b[..|b| - 1];
      assert (a + b)[..|a + b| - 1] == a + b';
      ResourceListMetricsConcat(a, b');
    }
  }

  lemma SplitAt<T>(s: seq<T>, i: nat)
    requires i < |s|
    ensures s == s[..i] + ([s[i]] + s[i + 1..])
  {
    assert s[i..] == [s[i]] + s[i + 1..];
    assert s == s[..i] + s[i..];
  }

  lemma LibraryListMetricsSingleton(x: InstrumentationLibraryMetrics)
    ensures LibraryListMetrics([x]) == x.metrics
  {
    assert [x][..0] == [];
  }

  lemma ResourceListMetricsSingleton(x: ResourceMetrics)
    ensures ResourceListMetrics([x]) == LibraryListMetrics(x.instrumentationLibraryMetrics)
  {
    assert [x][..0] == [];
  }

  /** The metrics of one library, located inside the metrics of its list. */
  lemma LibraryListMetricsSplit(ilms: seq<InstrumentationLibraryMetrics>, j: nat)
    requires j < |ilms|
    ensures LibraryListMetrics(ilms)
         == LibraryListMetrics(ilms[..j]) + ilms[j].metrics + LibraryListMetrics(ilms[j + 1..])
  {
    var pre, x, post := ilms[..j], ilms[j], ilms[j + 1..];
    calc {
      LibraryListMetrics(ilms);
      { SplitAt(ilms, j); }
      LibraryListMetrics(pre + ([x] + post));
      { LibraryListMetricsConcat(pre, [x] + post); }
      LibraryListMetrics(pre) + LibraryListMetrics([x] + post);
      { LibraryListMetricsConcat([x], post); LibraryListMetricsSingleton(x); }
      LibraryListMetrics(pre) + (x.metrics + LibraryListMetrics(post));
    }
  }

  /** The metrics of one resource, located inside the metrics of its list. */
  lemma ResourceListMetricsSplit(rms: seq<ResourceMetrics>, i: nat)
    requires i < |rms|
    ensures ResourceListMetrics(rms)
         == ResourceListMetrics(rms[..i])
            + LibraryListMetrics(rms[i].instrumentationLibraryMetrics)
            + ResourceListMetrics(rms[i + 1..])
  {
    var pre, x, post := rms[..i], rms[i], rms[i + 1..];
    calc {
      ResourceListMetrics(rms);
      { SplitAt(rms, i); }
      ResourceListMetrics(pre + ([x] + post));
      { ResourceListMetricsConcat(pre, [x] + post); }
      ResourceListMetrics(pre) + ResourceListMetrics([x] + post);
      { ResourceListMetricsConcat([x], post); ResourceListMetricsSingleton(x); }
      ResourceListMetrics(pre) + (LibraryListMetrics(x.instrumentationLibraryMetrics)
                                  + ResourceListMetrics(post));
    }
  }

  /** Appends a metric to library j of resource i. */
  function AppendMetric(md: Metrics, i: nat, j: nat, m: Metric): (r: Metrics)
    requires md.Valid()
    requires i < |ResourceMetricsOf(md)|
    requires j < |ResourceMetricsOf(md)[i].instrumentationLibraryMetrics|
    ensures r.Valid() && |ResourceMetricsOf(r)| == |ResourceMetricsOf(md)|
  {
    var rms := ResourceMetricsOf(md);
    var ilms := rms[i].instrumentationLibraryMetrics;
    var ilm := ilms[j].(metrics := ilms[j].metrics + [m]);
    var rm := rms[i].(instrumentationLibraryMetrics := ilms[j := ilm]);
    Metrics(Some(ExportMetricsServiceRequest(rms[i := rm])))
  }

  /**
    Appending a metric anywhere raises the metric count by one and the
    data-point count by the points of the new metric's active shape.
  */
  lemma AppendMetricCounts(md: Metrics, i: nat, j: nat, m: Metric)
    requires md.Valid()
    requires i < |ResourceMetricsOf(md)|
    requires j < |ResourceMetricsOf(md)[i].instrumentationLibraryMetrics|
    ensures |AllMetrics(AppendMetric(md, i, j, m))| == |AllMetrics(md)| + 1
    ensures PointsIn(AllMetrics(AppendMetric(md, i, j, m)))
         == PointsIn(AllMetrics(md)) + DataPointCount(m)
  {
    var rms := ResourceMetricsOf(md);
    var ilms := rms[i].instrumentationLibraryMetrics;
    var ms := ilms[j].metrics;
    var ilms' := ResourceMetricsOf(AppendMetric(md, i, j, m))[i].instrumentationLibraryMetrics;
    var rms' := ResourceMetricsOf(AppendMetric(md, i, j, m));
    assert ilms' == ilms[j := ilms[j].(metrics := ms + [m])];
    assert rms'[..i] == rms[..i] && rms'[i + 1..] == rms[i + 1..];
    assert ilms'[..j] == ilms[..j] && ilms'[j + 1..] == ilms[j + 1..];

    var ra, rb := ResourceListMetrics(rms[..i]), ResourceListMetrics(rms[i + 1..]);
    var la, lb := LibraryListMetrics(ilms[..j]), LibraryListMetrics(ilms[j + 1..]);
    ResourceListMetricsSplit(rms, i);
    ResourceListMetricsSplit(rms', i);
    LibraryListMetricsSplit(ilms, j);
    LibraryListMetricsSplit(ilms', j);
    assert AllMetrics(md) == ra + (la + ms + lb) + rb;
    assert AllMetrics(AppendMetric(md, i, j, m)) == ra + (la + (ms + [m]) + lb) + rb;

    PointsInConcat(ra + (la + ms + lb), rb);
    PointsInConcat(ra, la + ms + lb);
    PointsInConcat(la + ms, lb);
    PointsInConcat(la, ms);
    PointsInConcat(ra + (la + (ms + [m]) + lb), rb);
    PointsInConcat(ra, la + (ms + [m]) + lb);
    PointsInConcat(la + (ms + [m]), lb);
    PointsInConcat(la, ms + [m]);
    PointsInConcat(ms, [m]);
    assert [m][..0] == [];
  }

  /** A metric without payload raises only the metric count. */
  lemma AppendNoneMetricCounts(md: Metrics, i: nat, j: nat, m: Metric)
    requires md.Valid()
    requires i < |ResourceMetricsOf(md)|
    requires j < |ResourceMetricsOf(md)[i].instrumentationLibraryMetrics|
    requires DataType(m) == NoneType
    ensures |AllMetrics(AppendMetric(md, i, j, m))| == |AllMetrics(md)| + 1
    ensures PointsIn(AllMetrics(AppendMetric(md, i, j, m))) == PointsIn(AllMetrics(md))
  {
    AppendMetricCounts(md, i, j, m);
  }

  /** Every resource has s libraries and every library has n metrics. */
  predicate UniformShape(rms: seq<ResourceMetrics>, s: nat, n: nat)
  {
    forall rm <- rms ::
      |rm.instrumentationLibraryMetrics| == s
      && forall ilm <- rm.instrumentationLibraryMetrics :: |ilm.metrics| == n
  }

  lemma {:induction false} UniformLibraryCount(ilms: seq<InstrumentationLibraryMetrics>, n: nat)
    requires forall ilm <- ilms :: |ilm.metrics| == n
    ensures |LibraryListMetrics(ilms)| == |ilms| * n
  {
    if |ilms| > 0 {
      UniformLibraryCount(ilms[..|ilms| - 1], n);
      assert ilms[|ilms| - 1] in ilms;
    }
  }

  lemma MulStep(r: nat, s: nat, n: nat)
    ensures r * s * n + s * n == (r + 1) * s * n
  {
    assert (r + 1) * s == r * s + s;
    assert (r * s + s) * n == r * s * n + s * n;
  }

  /** R resources, each with S libraries of M metrics, hold R*S*M metrics. */
  lemma {:induction false} UniformMetricCount(rms: seq<ResourceMetrics>, s: nat, n: nat)
    requires UniformShape(rms, s, n)
    ensures |ResourceListMetrics(rms)| == |rms| * s * n
  {
    if |rms| > 0 {
      var r := |rms| - 1;
      var last := rms[r];
      assert last in rms;
      assert UniformShape(rms[..r], s, n) by {
        forall rm <- rms[..r] ensures rm in rms { }
      }
      UniformMetricCount(rms[..r], s, n);
      UniformLibraryCount(last.instrumentationLibraryMetrics, n);
      assert |LibraryListMetrics(last.instrumentationLibraryMetrics)| == s * n;
      MulStep(r, s, n);
    }
  }

  /** A valid root holding one resource with one library with one metric. */
  function SingleMetricTree(m: Metric): (md: Metrics)
    ensures md.Valid() && AllMetrics(md) == [m]
  {
    var ilm := InstrumentationLibraryMetrics(InstrumentationLibrary("", ""), [m]);
    var rm := ResourceMetrics(Resource([]), [ilm]);
    assert [ilm][..0] == [];
    assert LibraryListMetrics([ilm]) == [] + [m];
    assert [rm][..0] == [];
    assert ResourceListMetrics([rm]) == [] + LibraryListMetrics([ilm]);
    Metrics(Some(ExportMetricsServiceRequest([rm])))
  }

  /**
    One cumulative IntSum metric with three data points under one resource
    and one library counts as one metric and three data points, and its clone
    is the same tree.
  */
  lemma SingleIntSumScenario(points: seq<IntDataPoint>)
    requires |points| == 3
    ensures var md := SingleMetricTree(Metric("m", "", "1", IntSumData(IntSum(Cumulative, true, points))));
            |AllMetrics(md)| == 1 && PointsIn(AllMetrics(md)) == 3 && Clone(md) == md
  {
    var m := Metric("m", "", "1", IntSumData(IntSum(Cumulative, true, points)));
    var md := SingleMetricTree(m);
    assert DataPointCount(m) == 3;
    assert PointsIn([m]) == DataPointCount(m) by {
      assert [m][..0] == [];
    }
    assert AllMetrics(md) == [m];
  }
}
