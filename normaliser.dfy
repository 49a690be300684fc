/**
 * Reshaping backend replies: time series for `query` (with the panel unit),
 * annotation events for `annotationQuery`, and the label map of `getLabels`.
 */
module Normaliser {
  import opened Wrappers
  import opened Types
  import opened Interpolation
  import opened QueryBuilder

  // ------------------------------------------------------------------- unit

  /** The property name `targets[0].unit` is looked up under: an undefined unit reads as "undefined". */
  function UnitKey(unit: Option<string>): string {
    if unit.Some? then unit.value else "undefined"
  }

  /** `resolvePanelUnitFromTargets(targets)`. */
  function ResolvePanelUnit(targets: seq<Target>, mappings: map<string, string>): (unit: Option<string>)
    ensures unit.Some? <==>
      && |targets| > 0
      && (forall i :: 0 <= i < |targets| ==> targets[i].unit == targets[0].unit)
      && UnitKey(targets[0].unit) in mappings
    ensures unit.Some? ==> unit.value == mappings[UnitKey(targets[0].unit)]
  {
    if |targets| > 0
       && (forall i | 0 <= i < |targets| :: targets[i].unit == targets[0].unit)
       && UnitKey(targets[0].unit) in mappings
    then Some(mappings[UnitKey(targets[0].unit)])
    else None
  }

  /** A resolved unit is the mapping of every target's own unit, so no target is favoured. */
  lemma ResolvedUnitIsEveryTargetsUnit(targets: seq<Target>, mappings: map<string, string>, i: nat)
    requires i < |targets| && ResolvePanelUnit(targets, mappings).Some?
    ensures UnitKey(targets[i].unit) in mappings
    ensures ResolvePanelUnit(targets, mappings).value == mappings[UnitKey(targets[i].unit)]
  {
  }

  // ------------------------------------------------------------ time series

  /** A normalised time series; `unit` is absent unless attached. */
  datatype TimeSerie = TimeSerie(
    target: string,
    datapoints: seq<Point>,
    refId: Option<string>,
    meta: Option<Meta>,
    unit: Option<string>)

  /** The unit `if (unit)` attaches: a resolved but empty unit is not attached. */
  function Attached(unit: Option<string>): (a: Option<string>)
    ensures a.Some? <==> Truthy(unit)
    ensures a.Some? ==> a == unit && a.value != ""
  {
    if Truthy(unit) then unit else None
  }

  /** The records pushed for the series of one result. */
  function SeriesRecords(r: QueryResult, series: seq<Series>, unit: Option<string>): (recs: seq<TimeSerie>)
    ensures |recs| == |series|
    ensures forall j :: 0 <= j < |series| ==>
      recs[j] == TimeSerie(series[j].name, series[j].points, r.refId, r.meta, Attached(unit))
    decreases |series|
  {
    if series == [] then []
    else
      var n := |series| - 1;
      SeriesRecords(r, series[..n], unit)
      + [TimeSerie(series[n].name, series[n].points, r.refId, r.meta, Attached(unit))]
  }

  /** How many records a result contributes: none without `series`. */
  function SeriesLength(r: QueryResult): nat {
    if r.series.Some? then |r.series.value| else 0
  }

  function SeriesCount(entries: seq<(string, QueryResult)>): nat
    decreases |entries|
  {
    if entries == [] then 0
    else SeriesCount(entries[..|entries| - 1]) + SeriesLength(entries[|entries| - 1].1)
  }

  /** All records of the results visited so far, in `Object.values` order. */
  function RecordsOf(entries: seq<(string, QueryResult)>, unit: Option<string>): (recs: seq<TimeSerie>)
    ensures |recs| == SeriesCount(entries)
    ensures forall k :: 0 <= k < |recs| ==> recs[k].unit == Attached(unit)
    decreases |entries|
  {
    if entries == [] then []
    else
      var n := |entries| - 1;
      var r := entries[n].1;
      RecordsOf(entries[..n], unit) + (if r.series.Some? then SeriesRecords(r, r.series.value, unit) else [])
  }

  /** The `data` of `query`'s reply for a backend response. */
  function TimeSeriesOf(resp: Response, unit: Option<string>): (recs: seq<TimeSerie>)
    ensures resp.results.None? ==> recs == []
    ensures resp.results.Some? ==> |recs| == SeriesCount(resp.results.value)
    ensures forall k :: 0 <= k < |recs| ==> recs[k].unit == Attached(unit)
  {
    if resp.results.Some? then RecordsOf(resp.results.value, unit) else []
  }

  /** Targets sharing one unit with a non-empty mapping give that mapped unit on every record. */
  lemma SharedMappedUnitOnEveryRecord(resp: Response, targets: seq<Target>, mappings: map<string, string>, k: nat)
    requires |targets| > 0 && forall i :: 0 <= i < |targets| ==> targets[i].unit == targets[0].unit
    requires UnitKey(targets[0].unit) in mappings && mappings[UnitKey(targets[0].unit)] != ""
    requires k < |TimeSeriesOf(resp, ResolvePanelUnit(targets, mappings))|
    ensures TimeSeriesOf(resp, ResolvePanelUnit(targets, mappings))[k].unit == Some(mappings[UnitKey(targets[0].unit)])
  {
  }

  /** Every record copies the name and points of one series and the refId and meta of its result. */
  lemma {:induction false} RecordsComeFromSeries(entries: seq<(string, QueryResult)>, unit: Option<string>, k: nat)
    requires k < |RecordsOf(entries, unit)|
    ensures exists i, j :: (0 <= i < |entries| && entries[i].1.series.Some? && 0 <= j < |entries[i].1.series.value| &&
      var r := entries[i].1;
      RecordsOf(entries, unit)[k] == TimeSerie(r.series.value[j].name, r.series.value[j].points, r.refId, r.meta, Attached(unit)))
    decreases |entries|
  {
    var n := |entries| - 1;
    var r := entries[n].1;
    var front := RecordsOf(entries[..n], unit);
    if k < |front| {
      RecordsComeFromSeries(entries[..n], unit, k);
      var i, j :| 0 <= i < |entries[..n]| && entries[..n][i].1.series.Some? && 0 <= j < |entries[..n][i].1.series.value| &&
        var r' := entries[..n][i].1;
        front[k] == TimeSerie(r'.series.value[j].name, r'.series.value[j].points, r'.refId, r'.meta, Attached(unit));
      assert entries[..n][i] == entries[i];
    } else {
      var j := k - |front|;
      assert RecordsOf(entries, unit)[k] == SeriesRecords(r, r.series.value, unit)[j];
    }
  }

  /** The inner `forEach`: push one record per series of a result. */
  method PushSeries(result: seq<TimeSerie>, queryRes: QueryResult, series: seq<Series>, unit: Option<string>)
    returns (pushed: seq<TimeSerie>)
    ensures pushed == result + SeriesRecords(queryRes, series, unit)
  {
    pushed := result;
    var j := 0;
    while j < |series|
      invariant 0 <= j <= |series|
      invariant pushed == result + SeriesRecords(queryRes, series[..j], unit)
    {
      var timeSerie := TimeSerie(series[j].name, series[j].points, queryRes.refId, queryRes.meta, None);
      if Truthy(unit) {
        timeSerie := timeSerie.(unit := unit);
      }
      assert series[..j + 1][..j] == series[..j];
      pushed := pushed + [timeSerie];
      j := j + 1;
    }
    assert series[..j] == series;
  }

  /** The outer `forEach` over `Object.values(data.results)`; results without `series` are skipped. */
  method NormaliseTimeSeries(data: Response, targets: seq<Target>, mappings: map<string, string>)
    returns (result: seq<TimeSerie>)
    ensures result == TimeSeriesOf(data, ResolvePanelUnit(targets, mappings))
  {
    ghost var panelUnit := ResolvePanelUnit(targets, mappings);
    result := [];
    if data.results.Some? {
      var entries := data.results.value;
      var i := 0;
      while i < |entries|
        invariant 0 <= i <= |entries|
        invariant result == RecordsOf(entries[..i], panelUnit)
      {
        var queryRes := entries[i].1;
        assert entries[..i + 1][..i] == entries[..i];
        if queryRes.series.Some? {
          var unit := ResolvePanelUnit(targets, mappings);
          result := PushSeries(result, queryRes, queryRes.series.value, unit);
        }
        i := i + 1;
      }
      assert entries[..i] == entries;
    }
  }

  /** `query(options)`: fetch the batch, then normalise the reply; a rejected fetch rejects. */
  method Query(tpl: Template, o: QueryOptions, datasourceId: int, mappings: map<string, string>,
               post: TsdbRequest -> Result<Response, HttpError>)
    returns (sent: seq<TsdbRequest>, r: Result<seq<TimeSerie>, Failure>)
    ensures var c := GetTimeSeries(tpl, o, datasourceId, post);
      && sent == c.sent
      && (c.outcome.Failure? ==> r == Failure(c.outcome.error))
      && (c.outcome.Success? ==> r == Success(TimeSeriesOf(c.outcome.value, ResolvePanelUnit(o.targets, mappings))))
  {
    var call := GetTimeSeries(tpl, o, datasourceId, post);
    sent := call.sent;
    match call.outcome
    case Failure(f) =>
      r := Failure(f);
    case Success(data) =>
      var records := NormaliseTimeSeries(data, o.targets, mappings);
      r := Success(records);
  }

  // ------------------------------------------------------------ annotations

  /** An annotation event: `tags` is always empty, the row's tags column is not read. */
  datatype AnnotationEvent = AnnotationEvent(
    annotation: Annotation,
    time: Option<int>,
    title: Option<string>,
    tags: seq<string>,
    text: Option<string>)

  /**
   * The row mapping of `annotationQuery`; `parseDate` is `Date.parse`, `None` standing
   * for `NaN`, which is also what an absent first column parses to.
   */
  function AnnotationEvents(annotation: Annotation, rows: seq<seq<string>>, parseDate: string -> Option<int>): (evs: seq<AnnotationEvent>)
    ensures |evs| == |rows|
    ensures forall i :: 0 <= i < |rows| ==>
      && evs[i].annotation == annotation
      && evs[i].time == (if |rows[i]| > 0 then parseDate(rows[i][0]) else None)
      && evs[i].title == At(rows[i], 1)
      && evs[i].tags == []
      && evs[i].text == At(rows[i], 3)
    decreases |rows|
  {
    if rows == [] then []
    else
      var v := rows[0];
      [AnnotationEvent(annotation, if |v| > 0 then parseDate(v[0]) else None, At(v, 1), [], At(v, 3))]
      + AnnotationEvents(annotation, rows[1..], parseDate)
  }

  /** `data.results['annotationQuery'].tables[0].rows`, or `None` where that read throws. */
  function AnnotationRows(resp: Response): (rows: Option<seq<seq<string>>>)
    ensures rows.Some? <==>
      && resp.results.Some?
      && var q := Lookup(resp.results.value, "annotationQuery");
      && q.Some? && q.value.tables.Some? && |q.value.tables.value| > 0
    ensures rows.Some? ==>
      rows.value == Lookup(resp.results.value, "annotationQuery").value.tables.value[0].rows
  {
    if resp.results.None? then None
    else match Lookup(resp.results.value, "annotationQuery")
      case None => None
      case Some(r) => if r.tables.Some? && |r.tables.value| > 0 then Some(r.tables.value[0].rows) else None
  }

  /** `annotationQuery(options)`: always one request; a reply without a first table rejects. */
  function AnnotationQueryCall(tpl: Template, o: AnnotationOptions, datasourceId: int,
                               post: TsdbRequest -> Result<Response, HttpError>,
                               parseDate: string -> Option<int>): (c: Call<seq<AnnotationEvent>>)
    ensures c.sent == [AnnotationRequest(tpl, o, datasourceId)]
    ensures var reply := post(c.sent[0]);
      && (reply.Failure? ==> c.outcome == Failure(TransportFailure(reply.error)))
      && (reply.Success? && AnnotationRows(reply.value).None? ==> c.outcome == Failure(MalformedResponse))
      && (reply.Success? && AnnotationRows(reply.value).Some? ==>
            c.outcome == Success(AnnotationEvents(o.annotation, AnnotationRows(reply.value).value, parseDate)))
  {
    var call := Post(post, AnnotationRequest(tpl, o, datasourceId));
    match call.outcome
    case Failure(f) => Call(call.sent, Failure(f))
    case Success(resp) =>
      match AnnotationRows(resp)
      case None => Call(call.sent, Failure(MalformedResponse))
      case Some(rows) => Call(call.sent, Success(AnnotationEvents(o.annotation, rows, parseDate)))
  }

  // ----------------------------------------------------------------- labels

  /** The HEADERS-view target `getLabels` queries. */
  function LabelsTarget(tpl: Template, metricType: string, refId: string, defaultProject: string, groupBys: Option<seq<string>>): (t: Target)
    ensures IsComplete(t) <==> tpl(metricType, map[], Plain) != ""
    ensures t.refId == refId && t.defaultProject == Some(defaultProject) && t.unit == None
    ensures t.metricType == Some(tpl(metricType, map[], Plain))
    ensures t.crossSeriesReducer == Some("REDUCE_NONE") && t.view == Some("HEADERS")
    ensures t.groupBys == Some(InterpolatedGroupBys(tpl, Some(groupBys.GetOr([])), Some(map[])))
  {
    Target(refId, false, Some(tpl(metricType, map[], Plain)), Some("REDUCE_NONE"), None, None,
           Some(InterpolatedGroupBys(tpl, Some(groupBys.GetOr([])), Some(map[]))), Some("HEADERS"),
           None, None, Some(defaultProject), None)
  }

  /** `result && result.meta ? result.meta.labels : {}`; reading `results` of a reply without it throws. */
  function LabelsOf(resp: Response, refId: string): (r: Result<Option<Labels>, Failure>)
    ensures resp.results.None? <==> r.Failure?
    ensures resp.results.Some? ==>
      var q := Lookup(resp.results.value, refId);
      r == Success(if q.Some? && q.value.meta.Some? then q.value.meta.value.labels else Some(map[]))
  {
    if resp.results.None? then Failure(MalformedResponse)
    else match Lookup(resp.results.value, refId)
      case Some(res) => if res.meta.Some? then Success(res.meta.value.labels) else Success(Some(map[]))
      case None => Success(Some(map[]))
  }

  /** `getLabels(metricType, refId, defaultProject, groupBys)`. */
  function GetLabels(tpl: Template, metricType: string, refId: string, defaultProject: string,
                     groupBys: Option<seq<string>>, datasourceId: int, range: TimeRange,
                     post: TsdbRequest -> Result<Response, HttpError>): (c: Call<Option<Labels>>)
    ensures c.sent == [] <==> tpl(metricType, map[], Plain) == ""
    ensures c.sent == [] ==> c.outcome == Success(Some(map[]))
    ensures c.sent != [] ==>
      && |c.sent| == 1 && |c.sent[0].queries| == 1
      && var q := c.sent[0].queries[0];
      && q.TimeSeriesQuery? && q.refId == refId && q.project == defaultProject && q.view == "HEADERS"
      && q.crossSeriesReducer == tpl("REDUCE_NONE", map[], Plain)
    ensures c.outcome.Failure? ==>
      c.sent != [] && (post(c.sent[0]).Failure? || post(c.sent[0]).value.results.None?)
    ensures c.sent != [] && post(c.sent[0]).Success? ==> c.outcome == LabelsOf(post(c.sent[0]).value, refId)
    ensures c.sent != [] ==>
      c.sent == [TimeSeriesRequest(tpl, QueryOptions([LabelsTarget(tpl, metricType, refId, defaultProject, groupBys)], None, None, range), datasourceId)]
    ensures c.sent != [] && post(c.sent[0]).Failure? ==> c.outcome == Failure(TransportFailure(post(c.sent[0]).error))
  {
    var target := LabelsTarget(tpl, metricType, refId, defaultProject, groupBys);
    var o := QueryOptions([target], None, None, range);
    var call := GetTimeSeries(tpl, o, datasourceId, post);
    assert TimeSeriesQueries(tpl, [target], o, datasourceId)
        == (if IsComplete(target) then [TimeSeriesQueryOf(tpl, target, o, datasourceId)] else []) + [];
    match call.outcome
    case Failure(f) => Call(call.sent, Failure(f))
    case Success(resp) => Call(call.sent, LabelsOf(resp, refId))
  }
}
