/** The model performance API: the metrics card of each active model with its
    fallbacks, the accuracy and latency trends pivoted by date, and the per-language
    performance. The supabase queries are inputs: the rows they return are parameters,
    and each row's date arrives as the label `toLocaleDateString` gives it. */
module PerformanceApi {
  import opened Base
  import opened Analytics

  /** A `models` row; optional fields may be missing or null. */
  datatype ModelRow = ModelRow(
    id: string,
    name: string,
    slug: string,
    kind: string,
    accuracy: Option<real>,
    version: Option<string>)

  /** The latest `model_performance_metrics` row of a model. */
  datatype LatestMetric = LatestMetric(
    accuracy: Option<real>,
    latencyMs: Option<int>,
    throughputPerMin: Option<int>,
    costPer1k: Option<real>,
    errorRate: Option<real>)

  /** `latestMetric?.field` reads every field as missing when there is no metric row. */
  const NoMetric: LatestMetric := LatestMetric(None, None, None, None, None)

  /** The card `fetchModelMetrics` builds for one model. */
  datatype ModelMetrics = ModelMetrics(
    id: string,
    name: string,
    slug: string,
    kind: string,
    accuracy: real,
    latency: int,
    throughput: int,
    costPer1k: real,
    errorRate: real,
    version: string,
    lastUpdated: string)

  /** One model's card: latency, throughput, cost and error rate are 0 unless the latest
      metric has them, the accuracy falls back to the model's own and then 0, the version
      to 'N/A', and the last update is 'N/A' without an active version's `deployed_at`. */
  function MetricsOf(m: ModelRow, latest: Option<LatestMetric>, deployedAtMs: Option<int>,
                     nowMs: int, localeDate: string): (card: ModelMetrics)
    ensures card.id == m.id && card.name == m.name && card.slug == m.slug && card.kind == m.kind
    ensures card.version == (if TruthyStr(m.version) then m.version.value else "N/A")
    ensures deployedAtMs.None? ==> card.lastUpdated == "N/A"
    ensures deployedAtMs.Some? ==> card.lastUpdated == RelativeTime(nowMs - deployedAtMs.value, localeDate)
    ensures latest.None? ==>
      card.latency == 0 && card.throughput == 0 && card.costPer1k == 0.0 && card.errorRate == 0.0
      && card.accuracy == OrReal(m.accuracy, 0.0)
    ensures latest.Some? && TruthyReal(latest.value.accuracy) ==> card.accuracy == latest.value.accuracy.value
    ensures latest.Some? && !TruthyReal(latest.value.accuracy) ==> card.accuracy == OrReal(m.accuracy, 0.0)
    ensures latest.Some? ==>
      && card.latency == OrInt(latest.value.latencyMs, 0)
      && card.throughput == OrInt(latest.value.throughputPerMin, 0)
      && card.costPer1k == OrReal(latest.value.costPer1k, 0.0)
      && card.errorRate == OrReal(latest.value.errorRate, 0.0)
  {
    var l := latest.GetOr(NoMetric);
    ModelMetrics(
      m.id, m.name, m.slug, m.kind,
      if TruthyReal(l.accuracy) then l.accuracy.value else OrReal(m.accuracy, 0.0),
      OrInt(l.latencyMs, 0),
      OrInt(l.throughputPerMin, 0),
      OrReal(l.costPer1k, 0.0),
      OrReal(l.errorRate, 0.0),
      OrStr(m.version, "N/A"),
      if deployedAtMs.Some? then RelativeTime(nowMs - deployedAtMs.value, localeDate) else "N/A")
  }

  /** A `model_performance_metrics` row of the trends. */
  datatype ModelMetric = ModelMetric(modelId: string, dateLabel: string, accuracy: real, latencyMs: int)

  /** The accuracy trend plots each row's accuracy. */
  function AccuracyPoints(metrics: seq<ModelMetric>): (points: seq<Point<real>>)
    ensures |points| == |metrics|
    ensures forall i :: 0 <= i < |points| ==>
      points[i] == Point(metrics[i].modelId, metrics[i].dateLabel, metrics[i].accuracy)
  {
    if metrics == [] then []
    else [Point(metrics[0].modelId, metrics[0].dateLabel, metrics[0].accuracy)] + AccuracyPoints(metrics[1..])
  }

  /** The latency trend plots each row's latency in milliseconds. */
  function LatencyPoints(metrics: seq<ModelMetric>): (points: seq<Point<int>>)
    ensures |points| == |metrics|
    ensures forall i :: 0 <= i < |points| ==>
      points[i] == Point(metrics[i].modelId, metrics[i].dateLabel, metrics[i].latencyMs)
  {
    if metrics == [] then []
    else [Point(metrics[0].modelId, metrics[0].dateLabel, metrics[0].latencyMs)] + LatencyPoints(metrics[1..])
  }

  /** `fetchAccuracyTrend` after its queries: one entry per date label of a row of an
      active model, in order of first appearance, holding that model's last accuracy. */
  method AccuracyTrend(models: seq<Entity>, metrics: seq<ModelMetric>) returns (trend: seq<map<string, Cell<real>>>)
    ensures |trend| == |Dates(models, AccuracyPoints(metrics))|
    ensures forall j :: 0 <= j < |trend| ==>
      trend[j] == EntryFor(models, AccuracyPoints(metrics), Dates(models, AccuracyPoints(metrics))[j])
  {
    trend := Pivot(models, AccuracyPoints(metrics));
  }

  /** `fetchLatencyTrend` after its queries: the same pivot over the latencies. */
  method LatencyTrend(models: seq<Entity>, metrics: seq<ModelMetric>) returns (trend: seq<map<string, Cell<int>>>)
    ensures |trend| == |Dates(models, LatencyPoints(metrics))|
    ensures forall j :: 0 <= j < |trend| ==>
      trend[j] == EntryFor(models, LatencyPoints(metrics), Dates(models, LatencyPoints(metrics))[j])
  {
    trend := Pivot(models, LatencyPoints(metrics));
  }

  /** A `model_language_performance` row. */
  datatype PerformanceItem = PerformanceItem(language: string, accuracy: real, totalRequests: int)

  /** A line of the per-language chart. */
  datatype LanguagePerformance = LanguagePerformance(language: string, accuracy: real, requests: int)

  /** The rows as volumes (requests) and scores (accuracy). */
  function PerformanceRows(items: seq<PerformanceItem>): (rows: seq<LanguageRow>)
    ensures |rows| == |items|
    ensures forall i :: 0 <= i < |rows| ==>
      rows[i] == LanguageRow(items[i].language, items[i].totalRequests, items[i].accuracy)
  {
    if items == [] then []
    else [LanguageRow(items[0].language, items[0].totalRequests, items[0].accuracy)] + PerformanceRows(items[1..])
  }

  function AsPerformance(lines: seq<LanguageSummary>): (r: seq<LanguagePerformance>)
    ensures |r| == |lines|
    ensures forall k :: 0 <= k < |r| ==>
      r[k] == LanguagePerformance(lines[k].language, lines[k].meanScore, lines[k].amount)
  {
    if lines == [] then []
    else [LanguagePerformance(lines[0].language, lines[0].meanScore, lines[0].amount)] + AsPerformance(lines[1..])
  }

  /** The chart `fetchLanguagePerformance` returns for the rows of its query. */
  function PerformanceChart(items: seq<PerformanceItem>): seq<LanguagePerformance>
  {
    AsPerformance(TopLanguages(PerformanceRows(items)))
  }

  /** `fetchLanguagePerformance` after its query: the `forEach` tally, then map, sort and cut. */
  method FetchLanguagePerformance(items: seq<PerformanceItem>) returns (perf: seq<LanguagePerformance>)
    ensures perf == PerformanceChart(items)
  {
    var lines := AggregateLanguages(PerformanceRows(items));
    perf := AsPerformance(lines);
  }

  /** Line `k` of the chart: a language of the rows, with its summed volume and mean score. */
  lemma PerformanceLine(items: seq<PerformanceItem>, k: int)
    requires 0 <= k < |PerformanceChart(items)|
    ensures var line := PerformanceChart(items)[k];
      var rows := PerformanceRows(items);
      (exists i :: 0 <= i < |items| && items[i].language == line.language)
      && Describes(rows, LanguageSummary(line.language, line.requests, line.accuracy))
  {
    var rows := PerformanceRows(items);
    var lines := TopLanguages(rows);
    TopLanguagesSpec(rows);
    assert Describes(rows, lines[k]);
    var line := PerformanceChart(items)[k];
    assert line.language == lines[k].language;
    var i :| 0 <= i < |rows| && rows[i].language == lines[k].language;
    assert items[i].language == line.language;
  }

  /** `fetchLanguagePerformance` returns at most eight languages, each once, by
      requests descending; a language's requests are summed over its rows and its
      accuracy is the mean over its rows. */
  lemma LanguagePerformanceSpec(items: seq<PerformanceItem>)
    ensures |PerformanceChart(items)| <= 8
    ensures forall i, j :: 0 <= i < j < |PerformanceChart(items)| ==>
      PerformanceChart(items)[i].requests >= PerformanceChart(items)[j].requests && PerformanceChart(items)[i].language != PerformanceChart(items)[j].language
    ensures forall k :: 0 <= k < |PerformanceChart(items)| ==>
      var line := PerformanceChart(items)[k];
      var rows := PerformanceRows(items);
      (exists i :: 0 <= i < |items| && items[i].language == line.language)
      && Describes(rows, LanguageSummary(line.language, line.requests, line.accuracy))
  {
    TopLanguagesSpec(PerformanceRows(items));
    forall k | 0 <= k < |PerformanceChart(items)|
      ensures var line := PerformanceChart(items)[k];
        var rows := PerformanceRows(items);
        (exists i :: 0 <= i < |items| && items[i].language == line.language)
        && Describes(rows, LanguageSummary(line.language, line.requests, line.accuracy))
    {
      PerformanceLine(items, k);
    }
  }
}
