/**
 * The values the Stackdriver datasource exchanges with the dashboard and with the
 * Grafana backend: panel targets, backend query objects, response envelopes and
 * transport errors. JavaScript's `undefined` is `None`.
 */
module Types {
  import opened Wrappers

  /** The active template-variable bindings: variable name to its selected values. */
  type ScopedVars = map<string, seq<string>>

  /** How `templateSrv.replace` expands a multi-valued variable. */
  datatype Format = Plain | Csv | Regex

  /** `templateSrv.replace(text, scopedVars, format)`, a capability this model does not see into. */
  type Template = (string, ScopedVars, Format) -> string

  /** A string is truthy in JavaScript exactly when it is defined and not empty. */
  predicate Truthy(s: Option<string>) {
    s.Some? && s.value != ""
  }

  /** `s || fallback` on a possibly undefined string. */
  function OrElse(s: Option<string>, fallback: string): (r: string)
    ensures Truthy(s) ==> r == s.value
    ensures !Truthy(s) ==> r == fallback
  {
    if Truthy(s) then s.value else fallback
  }

  /** Reading position `i` of an array: `undefined` past its end. */
  function At<T>(xs: seq<T>, i: nat): (r: Option<T>)
    ensures r.Some? <==> i < |xs|
    ensures i < |xs| ==> r.value == xs[i]
  {
    if i < |xs| then Some(xs[i]) else None
  }

  /** `templateSrv.replace` on a field that may be undefined; an absent text stays absent. */
  function ReplaceOpt(tpl: Template, s: Option<string>, vars: ScopedVars, format: Format): Option<string>
  {
    match s
    case Some(text) => Some(tpl(text, vars, format))
    case None => None
  }

  /** The dashboard's time range, already rendered as millisecond-epoch strings. */
  datatype TimeRange = TimeRange(from: string, to: string)

  /** One panel query as the user authored it. */
  datatype Target = Target(
    refId: string,
    hide: bool,
    metricType: Option<string>,
    crossSeriesReducer: Option<string>,
    perSeriesAligner: Option<string>,
    alignmentPeriod: Option<string>,
    groupBys: Option<seq<string>>,
    view: Option<string>,
    filters: Option<seq<string>>,
    aliasBy: Option<string>,
    defaultProject: Option<string>,
    unit: Option<string>)

  /** The options of a `query` call. */
  datatype QueryOptions = QueryOptions(
    targets: seq<Target>,
    intervalMs: Option<int>,
    scopedVars: Option<ScopedVars>,
    range: TimeRange)

  /** The `target` of an annotation descriptor. */
  datatype AnnotationTarget = AnnotationTarget(
    metricType: string,
    title: Option<string>,
    text: Option<string>,
    tags: Option<string>,
    filters: Option<seq<string>>)

  /** An annotation descriptor; it is handed back unchanged in every event. */
  datatype Annotation = Annotation(name: string, target: AnnotationTarget)

  datatype AnnotationOptions = AnnotationOptions(
    annotation: Annotation,
    scopedVars: Option<ScopedVars>,
    range: TimeRange)

  /** The backend-facing query objects, one constructor per `type`. */
  datatype Query =
    | TimeSeriesQuery(
        refId: string,
        intervalMs: Option<int>,
        datasourceId: int,
        metricType: string,
        crossSeriesReducer: string,
        perSeriesAligner: Option<string>,
        alignmentPeriod: Option<string>,
        groupBys: seq<string>,
        view: string,
        filters: seq<string>,
        aliasBy: Option<string>,
        project: string)
    | AnnotationQuery(
        refId: string,
        datasourceId: int,
        metricType: string,
        crossSeriesReducer: string,
        perSeriesAligner: Option<string>,
        title: Option<string>,
        text: Option<string>,
        tags: Option<string>,
        view: string,
        filters: seq<string>)
    | TestDatasourceQuery(refId: string, datasourceId: int, testProject: Option<string>)
    | EnsureDefaultProjectQuery(refId: string, datasourceId: int)
    | GetProjectsListQuery(refId: string, datasourceId: int)
  {
    /** The `type` field sent on the wire. */
    function Type(): string {
      match this
      case TimeSeriesQuery(_, _, _, _, _, _, _, _, _, _, _, _) => "timeSeriesQuery"
      case AnnotationQuery(_, _, _, _, _, _, _, _, _, _) => "annotationQuery"
      case TestDatasourceQuery(_, _, _) => "testDatasource"
      case EnsureDefaultProjectQuery(_, _) => "ensureDefaultProjectQuery"
      case GetProjectsListQuery(_, _) => "getProjectsListQuery"
    }
  }

  /** The body of a `POST /api/tsdb/query`; `from`/`to` are absent on metadata queries. */
  datatype TsdbRequest = TsdbRequest(from: Option<string>, to: Option<string>, queries: seq<Query>)

  /** A point `[value, timestampMs]`, passed through untouched. */
  datatype Point = Point(value: real, timestampMs: int)

  datatype Series = Series(name: string, points: seq<Point>)

  /** Label keys of a HEADERS-view result, each with its values. */
  type Labels = map<string, seq<string>>

  /** One entry of a project list, passed through untouched. */
  datatype ProjectEntry = ProjectEntry(value: string, labelText: string)

  datatype Meta = Meta(
    labels: Option<Labels>,
    defaultProject: Option<string>,
    projectsList: Option<seq<ProjectEntry>>)

  /** An annotation table; each row is positional: `[time, title, tags, text, ...]`. */
  datatype Table = Table(rows: seq<seq<string>>)

  datatype QueryResult = QueryResult(
    refId: Option<string>,
    series: Option<seq<Series>>,
    meta: Option<Meta>,
    tables: Option<seq<Table>>)

  /**
   * The body `{results: {...}}` of a backend reply. The results object is kept as
   * its entries in the order `Object.values` visits them: keys that are array
   * indices first, in ascending numeric order, then the other keys in insertion order.
   */
  datatype Response = Response(results: Option<seq<(string, QueryResult)>>)

  /** `results[key]`: the value stored under `key`, undefined when there is none. */
  function Lookup(entries: seq<(string, QueryResult)>, key: string): (r: Option<QueryResult>)
    ensures r.Some? <==> exists i :: 0 <= i < |entries| && entries[i].0 == key
    ensures r.Some? ==> exists i :: 0 <= i < |entries| && entries[i] == (key, r.value)
    decreases |entries|
  {
    if entries == [] then None
    else if entries[0].0 == key then Some(entries[0].1)
    else
      var r := Lookup(entries[1..], key);
      assert forall i :: 0 < i < |entries| ==> entries[i] == entries[1..][i - 1];
      r
  }

  /** The body of a failed HTTP reply. */
  datatype ErrorBody = ErrorBody(error: Option<string>)

  /**
   * What a failed request rejects with: a bare string, or an object that may carry
   * `statusText` and `data.error`. A JavaScript runtime error (`TypeError` on a
   * malformed payload) is an object with neither.
   */
  datatype HttpError =
    | StringError(text: string)
    | ResponseError(statusText: Option<string>, data: Option<ErrorBody>)
  {
    function StatusText(): Option<string> {
      if ResponseError? then statusText else None
    }

    /** `error.data.error`, undefined when any step is missing. */
    function BodyError(): Option<string> {
      if ResponseError? && data.Some? then data.value.error else None
    }
  }

  /** The error a property read on `undefined` throws. */
  const RuntimeTypeError: HttpError := ResponseError(None, None)

  /** Why a datasource call rejects. */
  datatype Failure = TransportFailure(error: HttpError) | MalformedResponse

  /** The requests a call sent, in order, and what it resolved or rejected with. */
  datatype Call<T> = Call(sent: seq<TsdbRequest>, outcome: Result<T, Failure>)

  /** A single `POST /api/tsdb/query` through the transport. */
  function Post(post: TsdbRequest -> Result<Response, HttpError>, req: TsdbRequest): (c: Call<Response>)
    ensures c.sent == [req]
    ensures post(req).Success? ==> c.outcome == Success(post(req).value)
    ensures post(req).Failure? ==> c.outcome == Failure(TransportFailure(post(req).error))
  {
    match post(req)
    case Success(body) => Call([req], Success(body))
    case Failure(e) => Call([req], Failure(TransportFailure(e)))
  }
}
