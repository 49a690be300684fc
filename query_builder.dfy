/**
 * Turning panel targets into backend query objects (`getTimeSeries`, the query part
 * of `annotationQuery`), with the short-circuit that skips the transport when no
 * target is fully specified.
 */
module QueryBuilder {
  import opened Wrappers
  import opened Types
  import opened Interpolation

  /** Only a visible target with a metric type and a defined project is queried; an empty project still counts. */
  predicate IsComplete(t: Target)
    ensures IsComplete(t) ==> t.metricType.Some? && t.metricType.value != "" && t.defaultProject.Some?
    ensures t.hide ==> !IsComplete(t)
  {
    !t.hide && Truthy(t.metricType) && t.defaultProject.Some?
  }

  /** The query object built for one complete target. */
  function TimeSeriesQueryOf(tpl: Template, t: Target, o: QueryOptions, datasourceId: int): (q: Query)
    requires IsComplete(t)
    ensures q.TimeSeriesQuery? && q.Type() == "timeSeriesQuery"
    ensures q.refId == t.refId && q.project == t.defaultProject.value
    ensures q.datasourceId == datasourceId && q.intervalMs == o.intervalMs
    ensures !Truthy(t.crossSeriesReducer) ==> q.crossSeriesReducer == tpl("REDUCE_MEAN", o.scopedVars.GetOr(map[]), Plain)
    ensures Truthy(t.view) ==> q.view == t.view.value
    ensures !Truthy(t.view) ==> q.view == "FULL"
    ensures q.metricType == tpl(t.metricType.value, o.scopedVars.GetOr(map[]), Plain)
    ensures Truthy(t.crossSeriesReducer) ==>
      q.crossSeriesReducer == tpl(t.crossSeriesReducer.value, o.scopedVars.GetOr(map[]), Plain)
    ensures q.perSeriesAligner == ReplaceOpt(tpl, t.perSeriesAligner, o.scopedVars.GetOr(map[]), Plain)
    ensures q.alignmentPeriod == ReplaceOpt(tpl, t.alignmentPeriod, o.scopedVars.GetOr(map[]), Plain)
    ensures q.aliasBy == ReplaceOpt(tpl, t.aliasBy, o.scopedVars.GetOr(map[]), Plain)
    ensures q.groupBys == InterpolatedGroupBys(tpl, t.groupBys, o.scopedVars)
    ensures q.filters == InterpolateFilters(tpl, t.filters, o.scopedVars)
    ensures |q.groupBys| >= |t.groupBys.GetOr([])| && |q.filters| % 4 == 0
  {
    var vars := o.scopedVars.GetOr(map[]);
    TimeSeriesQuery(
      refId := t.refId,
      intervalMs := o.intervalMs,
      datasourceId := datasourceId,
      metricType := tpl(t.metricType.value, vars, Plain),
      crossSeriesReducer := tpl(OrElse(t.crossSeriesReducer, "REDUCE_MEAN"), vars, Plain),
      perSeriesAligner := ReplaceOpt(tpl, t.perSeriesAligner, vars, Plain),
      alignmentPeriod := ReplaceOpt(tpl, t.alignmentPeriod, vars, Plain),
      groupBys := InterpolatedGroupBys(tpl, t.groupBys, o.scopedVars),
      view := OrElse(t.view, "FULL"),
      filters := InterpolateFilters(tpl, t.filters, o.scopedVars),
      aliasBy := ReplaceOpt(tpl, t.aliasBy, vars, Plain),
      project := t.defaultProject.value)
  }

  /** The `.filter(...).map(...)` over `options.targets`. */
  function TimeSeriesQueries(tpl: Template, targets: seq<Target>, o: QueryOptions, datasourceId: int): (qs: seq<Query>)
    ensures |qs| <= |targets|
    ensures forall j :: 0 <= j < |qs| ==> qs[j].TimeSeriesQuery? && qs[j].Type() == "timeSeriesQuery"
    decreases |targets|
  {
    if targets == [] then []
    else
      (if IsComplete(targets[0]) then [TimeSeriesQueryOf(tpl, targets[0], o, datasourceId)] else [])
      + TimeSeriesQueries(tpl, targets[1..], o, datasourceId)
  }

  /** Selection is position-independent: the queries of a concatenation are concatenated. */
  lemma {:induction false} TimeSeriesQueriesAppend(tpl: Template, a: seq<Target>, b: seq<Target>, o: QueryOptions, datasourceId: int)
    ensures TimeSeriesQueries(tpl, a + b, o, datasourceId)
         == TimeSeriesQueries(tpl, a, o, datasourceId) + TimeSeriesQueries(tpl, b, o, datasourceId)
    decreases |a|
  {
    if a == [] {
      assert a + b == b;
    } else {
      assert (a + b)[0] == a[0] && (a + b)[1..] == a[1..] + b;
      TimeSeriesQueriesAppend(tpl, a[1..], b, o, datasourceId);
    }
  }

  /** The batch is empty exactly when no target is complete. */
  lemma {:induction false} NoQueriesIffNoCompleteTarget(tpl: Template, targets: seq<Target>, o: QueryOptions, datasourceId: int)
    ensures TimeSeriesQueries(tpl, targets, o, datasourceId) == []
        <==> forall i :: 0 <= i < |targets| ==> !IsComplete(targets[i])
    decreases |targets|
  {
    if targets != [] {
      NoQueriesIffNoCompleteTarget(tpl, targets[1..], o, datasourceId);
      assert forall i :: 1 <= i < |targets| ==> targets[i] == targets[1..][i - 1];
    }
  }

  /** When every target is complete, there is one query per target, in order, with its refId and project. */
  lemma {:induction false} EveryCompleteTargetQueried(tpl: Template, targets: seq<Target>, o: QueryOptions, datasourceId: int)
    requires forall i :: 0 <= i < |targets| ==> IsComplete(targets[i])
    ensures var qs := TimeSeriesQueries(tpl, targets, o, datasourceId);
      && |qs| == |targets|
      && forall i :: 0 <= i < |targets| ==>
           qs[i].refId == targets[i].refId && targets[i].defaultProject == Some(qs[i].project)
    decreases |targets|
  {
    if targets != [] {
      EveryCompleteTargetQueried(tpl, targets[1..], o, datasourceId);
      var qs := TimeSeriesQueries(tpl, targets, o, datasourceId);
      assert qs == [TimeSeriesQueryOf(tpl, targets[0], o, datasourceId)] + TimeSeriesQueries(tpl, targets[1..], o, datasourceId);
      forall i | 1 <= i < |targets|
        ensures qs[i].refId == targets[i].refId && targets[i].defaultProject == Some(qs[i].project)
      {
        assert targets[i] == targets[1..][i - 1];
      }
    }
  }

  /** The body of the batched `POST /api/tsdb/query`. */
  function TimeSeriesRequest(tpl: Template, o: QueryOptions, datasourceId: int): (req: TsdbRequest)
    ensures req.from == Some(o.range.from) && req.to == Some(o.range.to)
    ensures req.queries == TimeSeriesQueries(tpl, o.targets, o, datasourceId)
  {
    TsdbRequest(Some(o.range.from), Some(o.range.to), TimeSeriesQueries(tpl, o.targets, o, datasourceId))
  }

  /** The result of an empty batch, `{results: []}`. */
  const NoResults: Response := Response(Some([]))

  /** `getTimeSeries(options)`: one batched request, or none at all when nothing is complete. */
  function GetTimeSeries(tpl: Template, o: QueryOptions, datasourceId: int, post: TsdbRequest -> Result<Response, HttpError>): (c: Call<Response>)
    ensures c.sent == [] <==> forall i :: 0 <= i < |o.targets| ==> !IsComplete(o.targets[i])
    ensures c.sent == [] ==> c.outcome == Success(NoResults)
    ensures c.sent != [] ==> c == Post(post, TimeSeriesRequest(tpl, o, datasourceId))
    ensures c.outcome.Failure? ==> c.outcome.error.TransportFailure?
  {
    var req := TimeSeriesRequest(tpl, o, datasourceId);
    NoQueriesIffNoCompleteTarget(tpl, o.targets, o, datasourceId);
    if |req.queries| > 0 then Post(post, req) else Call([], Success(NoResults))
  }

  /** The single query object of an annotation request. */
  function AnnotationQueryOf(tpl: Template, o: AnnotationOptions, datasourceId: int): (q: Query)
    ensures q.AnnotationQuery? && q.Type() == "annotationQuery" && q.refId == "annotationQuery"
    ensures q.crossSeriesReducer == "REDUCE_NONE" && q.perSeriesAligner == Some("ALIGN_NONE") && q.view == "FULL"
    ensures q.title.Some? == o.annotation.target.title.Some? && q.text.Some? == o.annotation.target.text.Some?
    ensures q.metricType == tpl(o.annotation.target.metricType, o.scopedVars.GetOr(map[]), Plain)
    ensures q.title == ReplaceOpt(tpl, o.annotation.target.title, o.scopedVars.GetOr(map[]), Plain)
    ensures q.text == ReplaceOpt(tpl, o.annotation.target.text, o.scopedVars.GetOr(map[]), Plain)
    ensures q.tags == ReplaceOpt(tpl, o.annotation.target.tags, o.scopedVars.GetOr(map[]), Plain)
    ensures q.filters == InterpolateFilters(tpl, Some(o.annotation.target.filters.GetOr([])), o.scopedVars)
    ensures |q.filters| % 4 == 0
  {
    var vars := o.scopedVars.GetOr(map[]);
    var at := o.annotation.target;
    AnnotationQuery(
      refId := "annotationQuery",
      datasourceId := datasourceId,
      metricType := tpl(at.metricType, vars, Plain),
      crossSeriesReducer := "REDUCE_NONE",
      perSeriesAligner := Some("ALIGN_NONE"),
      title := ReplaceOpt(tpl, at.title, vars, Plain),
      text := ReplaceOpt(tpl, at.text, vars, Plain),
      tags := ReplaceOpt(tpl, at.tags, vars, Plain),
      view := "FULL",
      filters := InterpolateFilters(tpl, Some(at.filters.GetOr([])), o.scopedVars))
  }

  /** The body of the annotation `POST /api/tsdb/query`: the dashboard range and exactly one query. */
  function AnnotationRequest(tpl: Template, o: AnnotationOptions, datasourceId: int): (req: TsdbRequest)
    ensures req.from == Some(o.range.from) && req.to == Some(o.range.to)
    ensures |req.queries| == 1 && req.queries[0] == AnnotationQueryOf(tpl, o, datasourceId)
  {
    TsdbRequest(Some(o.range.from), Some(o.range.to), [AnnotationQueryOf(tpl, o, datasourceId)])
  }
}
