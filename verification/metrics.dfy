/**
 * The `Metrics` resource: the v1 metric listing, the account-wide and
 * per-metric event timelines, and the metric export.
 */
module Metrics {
  import opened Wrappers
  import opened PyValues
  import opened Text
  import opened Http
  import opened ApiHelper
  import opened Routes

  const EXPORT := "export"
  const METRIC_ID := "metric_id"
  const START_DATE := "start_date"
  const END_DATE := "end_date"
  const UNIT := "unit"
  const MEASUREMENT := "measurement"
  const BY := "by"
  const WHERE := "where"

  const STARTING_PAGE := 0
  const DEFAULT_BATCH_SIZE := 50
  const TIMELINE_BATCH_SIZE := DEFAULT_BATCH_SIZE + DEFAULT_BATCH_SIZE

  /** `get_metrics`: page and count are sent as given, even when `None`. */
  function GetMetrics(page: Value := VInt(STARTING_PAGE), count: Value := VInt(DEFAULT_BATCH_SIZE)): (call: ApiCall)
    ensures call.api == V1 && call.verb == Get && call.path == "metrics"
    ensures call.params == map["page" := page, "count" := count]
    ensures Target(call) == Some(MetricIndex)
  {
    assert '/' !in METRICS;
    SplitNoSeparator(METRICS, '/');
    RouteMetricIndex(METRICS);
    ApiCall(V1, Get, METRICS, map[PAGE := page, COUNT := count])
  }

  /** `get_metrics_timeline`: the timeline of every metric. */
  function GetMetricsTimeline(since: Value := VNone, count: Value := VInt(TIMELINE_BATCH_SIZE),
                              sort: Value := VStr(SORT_DESC)): (call: ApiCall)
    ensures call.api == V1 && call.verb == Get && call.path == "metrics/timeline"
    ensures call.params.Keys <= {"count", "sort", "since"}
    ensures SentUnlessNone(call.params, "count", count) && SentUnlessNone(call.params, "sort", sort)
    ensures SentUnlessNone(call.params, "since", since)
    ensures Target(call) == Some(MetricsTimeline)
  {
    JoinTwo(METRICS, TIMELINE, '/');
    PathSegments([METRICS, TIMELINE]);
    RouteMetricsTimeline(Join([METRICS, TIMELINE], '/'));
    ApiCall(V1, Get, Join([METRICS, TIMELINE], '/'), TimelineParams(since, count, sort))
  }

  /** The path `metric/<id>/<section>` of one metric's timeline or export. */
  function MetricPath(metricId: string, section: string): (path: string)
    requires section in {TIMELINE, EXPORT}
    ensures path == "metric/" + metricId + "/" + section
    ensures Segment(metricId) && section == TIMELINE ==> Route(V1, path) == Some(MetricTimeline(metricId))
    ensures Segment(metricId) && section == EXPORT ==> Route(V1, path) == Some(MetricExport(metricId))
  {
    JoinThree(METRIC, metricId, section, '/');
    PathSegments([METRIC, metricId, section]);
    var path := Join([METRIC, metricId, section], '/');
    if Segment(metricId) then RouteMetricSection(path, metricId, section); path else path
  }

  /** `get_metric_timeline_by_id`: the timeline of one metric. */
  function GetMetricTimelineById(metricId: string, since: Value := VNone,
                                 count: Value := VInt(TIMELINE_BATCH_SIZE),
                                 sort: Value := VStr(SORT_DESC)): (call: ApiCall)
    ensures call.api == V1 && call.verb == Get && call.path == "metric/" + metricId + "/timeline"
    ensures call.params.Keys <= {"count", "sort", "since"}
    ensures SentUnlessNone(call.params, "count", count) && SentUnlessNone(call.params, "sort", sort)
    ensures SentUnlessNone(call.params, "since", since)
    ensures Segment(metricId) ==> Target(call) == Some(MetricTimeline(metricId))
  {
    ApiCall(V1, Get, MetricPath(metricId, TIMELINE), TimelineParams(since, count, sort))
  }

  /** The export arguments, one entry per keyword, before `None` values are dropped. */
  function ExportArguments(metricId: string, startDate: Value, endDate: Value, unit: Value, measurement: Value,
                           where: Value, groupBy: Value, count: Value): (r: map<string, Value>)
    ensures r.Keys == {METRIC_ID, START_DATE, END_DATE, UNIT, MEASUREMENT, WHERE, BY, COUNT}
    ensures r[METRIC_ID] == VStr(metricId) && r[START_DATE] == startDate && r[END_DATE] == endDate
    ensures r[UNIT] == unit && r[MEASUREMENT] == measurement && r[WHERE] == where
    ensures r[BY] == groupBy && r[COUNT] == count
  {
    map[METRIC_ID := VStr(metricId), START_DATE := startDate, END_DATE := endDate, UNIT := unit,
        MEASUREMENT := measurement, WHERE := where, BY := groupBy, COUNT := count]
  }

  /**
   * The filtered export parameters: the metric id always, every other
   * argument unless it is `None`, and nothing else.
   */
  function ExportParams(metricId: string, startDate: Value, endDate: Value, unit: Value, measurement: Value,
                        where: Value, groupBy: Value, count: Value): (r: map<string, Value>)
    ensures r.Keys <= {METRIC_ID, START_DATE, END_DATE, UNIT, MEASUREMENT, WHERE, BY, COUNT}
    ensures METRIC_ID in r && r[METRIC_ID] == VStr(metricId)
    ensures SentUnlessNone(r, START_DATE, startDate) && SentUnlessNone(r, END_DATE, endDate)
    ensures SentUnlessNone(r, UNIT, unit) && SentUnlessNone(r, MEASUREMENT, measurement)
    ensures SentUnlessNone(r, WHERE, where) && SentUnlessNone(r, BY, groupBy)
    ensures SentUnlessNone(r, COUNT, count)
  {
    var params := ExportArguments(metricId, startDate, endDate, unit, measurement, where, groupBy, count);
    FilterSendsUnlessNone(params, START_DATE);
    FilterSendsUnlessNone(params, END_DATE);
    FilterSendsUnlessNone(params, UNIT);
    FilterSendsUnlessNone(params, MEASUREMENT);
    FilterSendsUnlessNone(params, WHERE);
    FilterSendsUnlessNone(params, BY);
    FilterSendsUnlessNone(params, COUNT);
    FilterParams(params)
  }

  /**
   * `get_metric_export`: the metric id goes both into the path and into the
   * parameters; every other argument is sent unless it is `None`.
   */
  function GetMetricExport(metricId: string, startDate: Value := VNone, endDate: Value := VNone,
                           unit: Value := VNone, measurement: Value := VNone, where: Value := VNone,
                           groupBy: Value := VNone, count: Value := VNone): (call: ApiCall)
    ensures call.api == V1 && call.verb == Get && call.path == "metric/" + metricId + "/export"
    ensures call.params.Keys <= {"metric_id", "start_date", "end_date", "unit", "measurement", "where", "by", "count"}
    ensures "metric_id" in call.params && call.params["metric_id"] == VStr(metricId)
    ensures SentUnlessNone(call.params, "start_date", startDate) && SentUnlessNone(call.params, "end_date", endDate)
    ensures SentUnlessNone(call.params, "unit", unit) && SentUnlessNone(call.params, "measurement", measurement)
    ensures SentUnlessNone(call.params, "where", where) && SentUnlessNone(call.params, "by", groupBy)
    ensures SentUnlessNone(call.params, "count", count)
    ensures Segment(metricId) ==> Target(call) == Some(MetricExport(metricId))
  {
    ApiCall(V1, Get, MetricPath(metricId, EXPORT),
            ExportParams(metricId, startDate, endDate, unit, measurement, where, groupBy, count))
  }

  /** Called with its defaults, a timeline asks for the newest hundred events. */
  lemma DefaultTimeline(metricId: string)
    ensures GetMetricsTimeline().params == map["count" := VInt(100), "sort" := VStr("desc")]
    ensures GetMetricTimelineById(metricId).params == GetMetricsTimeline().params
  {
    assert GetMetricsTimeline().params.Keys == {"count", "sort"};
  }

  /** Called with only the metric id, an export sends only the metric id. */
  lemma DefaultExport(metricId: string)
    ensures GetMetricExport(metricId).params == map["metric_id" := VStr(metricId)]
  {
    assert GetMetricExport(metricId).params.Keys == {"metric_id"};
  }
}
