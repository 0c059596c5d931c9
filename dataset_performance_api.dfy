/** The dataset performance API: the metrics card of each active dataset with its
    fallbacks, the quality and usage trends pivoted by date, and the per-language
    coverage. The supabase queries are inputs: the rows they return are parameters, and
    each row's date arrives as the label `toLocaleDateString` gives it. */
module DatasetPerformanceApi {
  import opened Base
  import opened Analytics

  /** A `datasets` row; optional fields may be missing or null. */
  datatype DatasetRow = DatasetRow(
    id: string,
    name: string,
    slug: string,
    kind: string,
    qualityScore: Option<real>,
    sizeGb: Option<real>,
    samples: Option<int>,
    version: Option<string>,
    updatedAtMs: Option<int>)

  /** The latest `dataset_performance_metrics` row of a dataset. */
  datatype LatestMetric = LatestMetric(
    qualityScore: Option<real>,
    totalDownloads: Option<int>,
    totalAccesses: Option<int>,
    sizeGb: Option<real>,
    activeUsers: Option<int>,
    errorRate: Option<real>,
    totalSamples: Option<int>)

  /** `latestMetric?.field` reads every field as missing when there is no metric row. */
  const NoMetric: LatestMetric := LatestMetric(None, None, None, None, None, None, None)

  /** The card `fetchDatasetMetrics` builds for one dataset. */
  datatype DatasetMetrics = DatasetMetrics(
    id: string,
    name: string,
    slug: string,
    kind: string,
    qualityScore: real,
    totalDownloads: int,
    totalAccesses: int,
    sizeGb: real,
    activeUsers: int,
    errorRate: real,
    samples: int,
    version: string,
    lastUpdated: string)

  /** One dataset's card: the latest metric wins where it is truthy, then the dataset's
      own column, then 0; the version falls back to 'N/A', and so does the last update
      when the dataset has no `updated_at`. `nowMs` is the clock. */
  function MetricsOf(d: DatasetRow, latest: Option<LatestMetric>, nowMs: int, localeDate: string): (m: DatasetMetrics)
    ensures m.id == d.id && m.name == d.name && m.slug == d.slug && m.kind == d.kind
    ensures m.version == (if TruthyStr(d.version) then d.version.value else "N/A")
    ensures d.updatedAtMs.None? ==> m.lastUpdated == "N/A"
    ensures d.updatedAtMs.Some? ==> m.lastUpdated == RelativeTime(nowMs - d.updatedAtMs.value, localeDate)
    ensures latest.None? ==>
      && m.totalDownloads == 0 && m.totalAccesses == 0 && m.activeUsers == 0 && m.errorRate == 0.0
      && m.qualityScore == OrReal(d.qualityScore, 0.0) && m.sizeGb == OrReal(d.sizeGb, 0.0)
      && m.samples == OrInt(d.samples, 0)
    ensures latest.Some? ==>
      && m.totalDownloads == OrInt(latest.value.totalDownloads, 0)
      && m.totalAccesses == OrInt(latest.value.totalAccesses, 0)
      && m.activeUsers == OrInt(latest.value.activeUsers, 0)
      && m.errorRate == OrReal(latest.value.errorRate, 0.0)
    ensures latest.Some? && TruthyReal(latest.value.qualityScore) ==> m.qualityScore == latest.value.qualityScore.value
    ensures latest.Some? && !TruthyReal(latest.value.qualityScore) ==> m.qualityScore == OrReal(d.qualityScore, 0.0)
    ensures latest.Some? && TruthyReal(latest.value.sizeGb) ==> m.sizeGb == latest.value.sizeGb.value
    ensures latest.Some? && !TruthyReal(latest.value.sizeGb) ==> m.sizeGb == OrReal(d.sizeGb, 0.0)
    ensures latest.Some? && TruthyInt(latest.value.totalSamples) ==> m.samples == latest.value.totalSamples.value
    ensures latest.Some? && !TruthyInt(latest.value.totalSamples) ==> m.samples == OrInt(d.samples, 0)
  {
    var l := latest.GetOr(NoMetric);
    DatasetMetrics(
      d.id, d.name, d.slug, d.kind,
      if TruthyReal(l.qualityScore) then l.qualityScore.value else OrReal(d.qualityScore, 0.0),
      OrInt(l.totalDownloads, 0),
      OrInt(l.totalAccesses, 0),
      if TruthyReal(l.sizeGb) then l.sizeGb.value else OrReal(d.sizeGb, 0.0),
      OrInt(l.activeUsers, 0),
      OrReal(l.errorRate, 0.0),
      if TruthyInt(l.totalSamples) then l.totalSamples.value else OrInt(d.samples, 0),
      OrStr(d.version, "N/A"),
      if d.updatedAtMs.Some? then RelativeTime(nowMs - d.updatedAtMs.value, localeDate) else "N/A")
  }

  /** A `dataset_performance_metrics` row of the quality trend. */
  datatype QualityMetric = QualityMetric(datasetId: string, dateLabel: string, qualityScore: real)

  /** A `dataset_usage_history` row of the usage trend. */
  datatype UsageRecord = UsageRecord(datasetId: string, dateLabel: string, downloads: int, accesses: int)

  /** The quality trend plots each row's quality score. */
  function QualityPoints(metrics: seq<QualityMetric>): (points: seq<Point<real>>)
    ensures |points| == |metrics|
    ensures forall i :: 0 <= i < |points| ==>
      points[i] == Point(metrics[i].datasetId, metrics[i].dateLabel, metrics[i].qualityScore)
  {
    if metrics == [] then []
    else [Point(metrics[0].datasetId, metrics[0].dateLabel, metrics[0].qualityScore)] + QualityPoints(metrics[1..])
  }

  /** The usage trend plots each row's downloads (accesses are fetched but not plotted). */
  function UsagePoints(usage: seq<UsageRecord>): (points: seq<Point<int>>)
    ensures |points| == |usage|
    ensures forall i :: 0 <= i < |points| ==>
      points[i] == Point(usage[i].datasetId, usage[i].dateLabel, usage[i].downloads)
  {
    if usage == [] then []
    else [Point(usage[0].datasetId, usage[0].dateLabel, usage[0].downloads)] + UsagePoints(usage[1..])
  }

  /** `fetchQualityTrend` after its queries: one entry per date label of a row of an
      active dataset, in order of first appearance, holding that dataset's last score. */
  method QualityTrend(datasets: seq<Entity>, metrics: seq<QualityMetric>) returns (trend: seq<map<string, Cell<real>>>)
    ensures |trend| == |Dates(datasets, QualityPoints(metrics))|
    ensures forall j :: 0 <= j < |trend| ==>
      trend[j] == EntryFor(datasets, QualityPoints(metrics), Dates(datasets, QualityPoints(metrics))[j])
  {
    trend := Pivot(datasets, QualityPoints(metrics));
  }

  /** `fetchUsageTrend` after its queries: the same pivot over the downloads. */
  method UsageTrend(datasets: seq<Entity>, usage: seq<UsageRecord>) returns (trend: seq<map<string, Cell<int>>>)
    ensures |trend| == |Dates(datasets, UsagePoints(usage))|
    ensures forall j :: 0 <= j < |trend| ==>
      trend[j] == EntryFor(datasets, UsagePoints(usage), Dates(datasets, UsagePoints(usage))[j])
  {
    trend := Pivot(datasets, UsagePoints(usage));
  }

  /** A `dataset_language_coverage` row. */
  datatype CoverageItem = CoverageItem(language: string, sampleCount: int, qualityScore: real)

  /** A line of the coverage chart. */
  datatype LanguageCoverage = LanguageCoverage(language: string, sampleCount: int, qualityScore: real)

  /** The coverage rows as volumes (samples) and scores (quality). */
  function CoverageRows(items: seq<CoverageItem>): (rows: seq<LanguageRow>)
    ensures |rows| == |items|
    ensures forall i :: 0 <= i < |rows| ==>
      rows[i] == LanguageRow(items[i].language, items[i].sampleCount, items[i].qualityScore)
  {
    if items == [] then []
    else [LanguageRow(items[0].language, items[0].sampleCount, items[0].qualityScore)] + CoverageRows(items[1..])
  }

  function AsCoverage(lines: seq<LanguageSummary>): (r: seq<LanguageCoverage>)
    ensures |r| == |lines|
    ensures forall k :: 0 <= k < |r| ==>
      r[k] == LanguageCoverage(lines[k].language, lines[k].amount, lines[k].meanScore)
  {
    if lines == [] then []
    else [LanguageCoverage(lines[0].language, lines[0].amount, lines[0].meanScore)] + AsCoverage(lines[1..])
  }

  /** The chart `fetchLanguageCoverage` returns for the rows of its query. */
  function CoverageChart(items: seq<CoverageItem>): seq<LanguageCoverage>
  {
    AsCoverage(TopLanguages(CoverageRows(items)))
  }

  /** `fetchLanguageCoverage` after its query: the `forEach` tally, then map, sort and cut. */
  method FetchLanguageCoverage(items: seq<CoverageItem>) returns (coverage: seq<LanguageCoverage>)
    ensures coverage == CoverageChart(items)
  {
    var lines := AggregateLanguages(CoverageRows(items));
    coverage := AsCoverage(lines);
  }

  /** Line `k` of the chart: a language of the rows, with its summed volume and mean score. */
  lemma CoverageLine(items: seq<CoverageItem>, k: int)
    requires 0 <= k < |CoverageChart(items)|
    ensures var line := CoverageChart(items)[k];
      var rows := CoverageRows(items);
      (exists i :: 0 <= i < |items| && items[i].language == line.language)
      && Describes(rows, LanguageSummary(line.language, line.sampleCount, line.qualityScore))
  {
    var rows := CoverageRows(items);
    var lines := TopLanguages(rows);
    TopLanguagesSpec(rows);
    assert Describes(rows, lines[k]);
    var line := CoverageChart(items)[k];
    assert line.language == lines[k].language;
    var i :| 0 <= i < |rows| && rows[i].language == lines[k].language;
    assert items[i].language == line.language;
  }

  /** `fetchLanguageCoverage` returns at most eight languages, each once, by
      sample count descending; a language's sample count is the sum over its rows and its
      quality score is the mean over its rows. */
  lemma LanguageCoverageSpec(items: seq<CoverageItem>)
    ensures |CoverageChart(items)| <= 8
    ensures forall i, j :: 0 <= i < j < |CoverageChart(items)| ==>
      CoverageChart(items)[i].sampleCount >= CoverageChart(items)[j].sampleCount && CoverageChart(items)[i].language != CoverageChart(items)[j].language
    ensures forall k :: 0 <= k < |CoverageChart(items)| ==>
      var line := CoverageChart(items)[k];
      var rows := CoverageRows(items);
      (exists i :: 0 <= i < |items| && items[i].language == line.language)
      && Describes(rows, LanguageSummary(line.language, line.sampleCount, line.qualityScore))
  {
    TopLanguagesSpec(CoverageRows(items));
    forall k | 0 <= k < |CoverageChart(items)|
      ensures var line := CoverageChart(items)[k];
        var rows := CoverageRows(items);
        (exists i :: 0 <= i < |items| && items[i].language == line.language)
        && Describes(rows, LanguageSummary(line.language, line.sampleCount, line.qualityScore))
    {
      CoverageLine(items, k);
    }
  }
}
