# Stackdriver datasource: query translation and response shaping

A Dafny model of the Grafana Stackdriver datasource class
(`public/app/plugins/datasource/stackdriver/datasource.ts`). The class turns a panel's
targets into backend query objects, expands template variables in filters and group-bys,
batches the queries into one `POST /api/tsdb/query`, and reshapes the reply into time
series, annotation events or a label map. It also keeps two small caches on the instance,
the default project name and the metric-type list, and retries metric-descriptor GETs a
bounded number of times.

Modules, one per component of the class:

- `Wrappers`: `Option` (JavaScript `undefined`) and `Result` (a call that may throw).
- `Strings`: `split` and `join` on a one-character separator.
- `Sequences`: lodash `_.chunk` and `_.flatten`.
- `Types`: targets, query objects (one constructor per query `type`), reply envelopes,
  transport errors, JavaScript truthiness.
- `Interpolation`: `interpolateFilters` and `interpolateGroupBys`.
- `QueryBuilder`: target selection and query building for `getTimeSeries` and
  `annotationQuery`, plus the empty-batch short-circuit.
- `Normaliser`: `resolvePanelUnitFromTargets`, `query`, the annotation row mapping and
  `getLabels`.
- `Errors`: `formatStackdriverError` and the message built by `testDatasource`.
- `Datasource`: the `StackdriverDatasource` class. It holds the mutable fields
  `projectName`, `projectList` and `metricTypes`, and defines `getDefaultProject`,
  `getProjects`, `getMetricTypes`, `doRequest` and `testDatasource`.

External collaborators are parameters:

- `templateSrv.replace` is `tpl: (text, scopedVars, format) -> text`.
- The POST transport is `post: TsdbRequest -> Result<Response, HttpError>`.
- The GET transport is `get: (url, attemptNumber) -> Result<...>`, so each retry can get
  a different answer.
- `JSON.parse` is `parse: string -> Option<ApiError>`.
- `Date.parse` is `parseDate: string -> Option<int>`, where `None` stands for `NaN`.
- `stackdriverUnitMappings` is `mappings: map<string, string>`.

Every call through the POST transport reports the requests it sent, in order, next to its
outcome: the query-side functions return a `Call` value, and the class methods
`GetDefaultProject`, `GetProjects` and `TestDatasource` return the pair `(sent, r)`.
"No request was made" is therefore the statement `sent == []`.

Behaviour that follows the code where a reader might expect otherwise:

- `getLabels` returns `result.meta.labels` whenever `meta` exists, so it returns
  `undefined` when `meta` has no `labels` (`GetLabels` yields `Success(None)`). The empty
  map is returned only when there is no result or no `meta`.
- `formatStackdriverError` always puts `statusText + ": "` after the prefix when there is
  a status text. It does not use the status text *instead of* the body; with no body it
  still appends "Cannot connect to Stackdriver API".
- `doRequest` rethrows the error of its *last* attempt, not the first one.
- `testDatasource` never parses the error body as JSON. Unlike `formatStackdriverError`,
  it puts the status text (or the generic message) before the raw body.
- `getMetricTypes` refetches whenever the cache is empty, including after a successful
  fetch that returned no descriptors.

## Model

| member | source | states |
|---|---|---|
| `Strings.Split` | public/app/plugins/datasource/stackdriver/datasource.ts:119 | `split` never returns an empty list, its pieces contain no separator, and joining them with the separator gives back the input |
| `Strings.SplitJoin` | public/app/plugins/datasource/stackdriver/datasource.ts:119 | splitting undoes joining when no piece contains the separator (the inverse of `Join`) |
| `Strings.FirstField` | public/app/plugins/datasource/stackdriver/datasource.ts:325-326 | `s.split(sep)[0]` is a separator-free prefix of `s` that ends at the first separator or at the end of `s` |
| `Sequences.Chunk` | public/app/plugins/datasource/stackdriver/datasource.ts:79 | `_.chunk` cuts the list into non-empty groups of `n`, all but the last exactly `n` long, whose concatenation is the input |
| `Interpolation.ClauseOf` | public/app/plugins/datasource/stackdriver/datasource.ts:80-85 | destructuring a chunk: a value exists exactly when the chunk has three or more entries, and then so does the operator |
| `Interpolation.ClausesOf` | public/app/plugins/datasource/stackdriver/datasource.ts:79-85 | one clause per chunk, each with a value only where it has an operator |
| `Interpolation.Completed` | public/app/plugins/datasource/stackdriver/datasource.ts:86 | the reduce keeps only clauses with a truthy value, never more than it was given |
| `Interpolation.Tokens` | public/app/plugins/datasource/stackdriver/datasource.ts:88-90 | flattening the kept clauses gives exactly four tokens per clause |
| `Interpolation.ReplaceAll` | public/app/plugins/datasource/stackdriver/datasource.ts:92-94 | each token is replaced in place by its substitution, and the length is kept |
| `Interpolation.InterpolateFilters` | public/app/plugins/datasource/stackdriver/datasource.ts:78-95 | the output length is always a multiple of four |
| `Interpolation.SurvivorsAreClauseWalk` | public/app/plugins/datasource/stackdriver/datasource.ts:79-90 | the chunk/map/reduce/flatten pipeline agrees with an independent walk four entries at a time that keeps a quadruple exactly when its third entry is non-empty, using `AND` for a missing fourth |
| `Interpolation.ClauseDroppedExactlyWhenValueEmpty` | public/app/plugins/datasource/stackdriver/datasource.ts:78-95 | at any aligned position, a quadruple contributes its four substituted tokens in place if its value is non-empty and nothing if it is empty; the clauses around it are unaffected |
| `Interpolation.ShortLastClauseDefaultsToAnd` | public/app/plugins/datasource/stackdriver/datasource.ts:80 | a final three-entry chunk with a value is emitted with condition `AND` |
| `Interpolation.CompleteFiltersPassThrough` | public/app/plugins/datasource/stackdriver/datasource.ts:78-95 | with the identity substitution, a list of complete quadruples comes back unchanged |
| `Interpolation.ExpandGroupBys` | public/app/plugins/datasource/stackdriver/datasource.ts:118-125 | each entry contributes at least one label key, so the output is at least as long as the input |
| `Interpolation.InterpolatedGroupBys` | public/app/plugins/datasource/stackdriver/datasource.ts:116-127 | undefined group-bys give the empty list |
| `Interpolation.ExpandGroupBysAppend` | public/app/plugins/datasource/stackdriver/datasource.ts:118-125 | expansion distributes over concatenation: entries' pieces are concatenated left to right in entry order |
| `Interpolation.PlainGroupBysPassThrough` | public/app/plugins/datasource/stackdriver/datasource.ts:116-127 | with the identity substitution, comma-free label keys come back unchanged |
| `Interpolation.InterpolateGroupBys` | public/app/plugins/datasource/stackdriver/datasource.ts:116-127 | the `forEach` loop computes exactly the concatenation of every entry's CSV-substituted pieces |
| `QueryBuilder.TimeSeriesQueryOf` | public/app/plugins/datasource/stackdriver/datasource.ts:44-59 | a query keeps the target's refId, takes `project` from `defaultProject` and has type `timeSeriesQuery`; metric type, aligner, alignment period and alias are the target's own fields substituted with the options' variables; a set reducer is substituted and a missing one defaults to `REDUCE_MEAN` before substitution; the view defaults to `FULL`; `groupBys` and `filters` are exactly `interpolateGroupBys` and `interpolateFilters` of the target's lists |
| `QueryBuilder.TimeSeriesQueries` | public/app/plugins/datasource/stackdriver/datasource.ts:40-60 | at most one time-series query per target |
| `QueryBuilder.TimeSeriesQueriesAppend` | public/app/plugins/datasource/stackdriver/datasource.ts:40-60 | selection is position-independent: the queries of a concatenation of targets are the concatenated queries, so target order is kept |
| `QueryBuilder.NoQueriesIffNoCompleteTarget` | public/app/plugins/datasource/stackdriver/datasource.ts:40-43 | the batch is empty exactly when no target is visible, has a metric type and has a defined project |
| `QueryBuilder.IsComplete` | public/app/plugins/datasource/stackdriver/datasource.ts:42 | only a visible target with a non-empty metric type and a defined project is queried |
| `QueryBuilder.EveryCompleteTargetQueried` | public/app/plugins/datasource/stackdriver/datasource.ts:40-60 | when every target is complete there is one query per target, in order, with that target's refId and project, even an empty project |
| `QueryBuilder.GetTimeSeries` | public/app/plugins/datasource/stackdriver/datasource.ts:39-76 | no request is sent exactly when no target is complete, and then the result is `{results: []}`; otherwise exactly one batched POST carries the range and the queries |
| `QueryBuilder.TimeSeriesRequest` | public/app/plugins/datasource/stackdriver/datasource.ts:62-71 | the batched request carries the dashboard range and exactly the selected time-series queries |
| `QueryBuilder.AnnotationQueryOf` | public/app/plugins/datasource/stackdriver/datasource.ts:170-184 | the annotation query has refId and type `annotationQuery`, reducer `REDUCE_NONE`, aligner `ALIGN_NONE` and view `FULL`; metric type, title, text and tags are the descriptor's own fields substituted (an absent one stays absent), and `filters` is `interpolateFilters` of the descriptor's filters or `[]` |
| `QueryBuilder.AnnotationRequest` | public/app/plugins/datasource/stackdriver/datasource.ts:186-194 | the annotation request carries the dashboard range and exactly one query, the annotation query |
| `Normaliser.ResolvePanelUnit` | public/app/plugins/datasource/stackdriver/datasource.ts:129-138 | a unit is resolved exactly when there are targets, all share the first target's unit, and that unit is a key of the mapping; the result is the mapped value |
| `Normaliser.ResolvedUnitIsEveryTargetsUnit` | public/app/plugins/datasource/stackdriver/datasource.ts:129-138 | a resolved unit is the mapping of every target's own unit, not just the first target's |
| `Normaliser.Attached` | public/app/plugins/datasource/stackdriver/datasource.ts:156-158 | a unit is attached exactly when it is truthy, and then it is the resolved unit itself |
| `Normaliser.SharedMappedUnitOnEveryRecord` | public/app/plugins/datasource/stackdriver/datasource.ts:129-160 | when all targets share a unit whose mapping is non-empty, every normalised record carries that mapped unit |
| `Normaliser.SeriesRecords` | public/app/plugins/datasource/stackdriver/datasource.ts:149-160 | one record per series, in order, copying `name`, `points`, the result's `refId` and `meta`, and the attached unit |
| `Normaliser.RecordsOf` | public/app/plugins/datasource/stackdriver/datasource.ts:144-161 | the record count is the sum of the `series` lengths of the results that have `series`, and every record carries the same unit or none |
| `Normaliser.TimeSeriesOf` | public/app/plugins/datasource/stackdriver/datasource.ts:143-165 | without `results` there are no records; otherwise the count and the uniform unit of `RecordsOf` |
| `Normaliser.RecordsComeFromSeries` | public/app/plugins/datasource/stackdriver/datasource.ts:149-160 | every record copies one series of some result with a `series` member |
| `Normaliser.PushSeries` | public/app/plugins/datasource/stackdriver/datasource.ts:149-160 | the inner loop appends exactly the records of the result's series |
| `Normaliser.NormaliseTimeSeries` | public/app/plugins/datasource/stackdriver/datasource.ts:141-165 | the nested loops produce exactly `TimeSeriesOf` with the panel unit |
| `Normaliser.Query` | public/app/plugins/datasource/stackdriver/datasource.ts:140-166 | `query` sends what `getTimeSeries` sends, rejects when it rejects, and otherwise returns the normalised series |
| `Normaliser.AnnotationEvents` | public/app/plugins/datasource/stackdriver/datasource.ts:196-204 | one event per row, in order, with the descriptor passed through, time parsed from column 0, title from column 1, text from column 3 and always empty tags |
| `Normaliser.AnnotationRows` | public/app/plugins/datasource/stackdriver/datasource.ts:196 | rows are found exactly when the reply has `results`, an `annotationQuery` entry and a non-empty `tables`, and they are then that entry's `tables[0].rows` |
| `Normaliser.AnnotationQueryCall` | public/app/plugins/datasource/stackdriver/datasource.ts:168-206 | exactly one request is sent; a transport error propagates, a reply without a first table rejects, and otherwise the rows become events |
| `Normaliser.LabelsOf` | public/app/plugins/datasource/stackdriver/datasource.ts:112-113 | reading labels fails exactly when the reply has no `results`; otherwise it is the `meta.labels` of the refId's result when that result has `meta` (possibly undefined), and `{}` when there is no result or no `meta` |
| `Normaliser.LabelsTarget` | public/app/plugins/datasource/stackdriver/datasource.ts:99-109 | the HEADERS-view target keeps the refId and project, uses `REDUCE_NONE`, substitutes the metric type and expands the group-bys with empty bindings; it is complete exactly when the substituted metric type is non-empty |
| `Normaliser.GetLabels` | public/app/plugins/datasource/stackdriver/datasource.ts:97-114 | nothing is sent exactly when the substituted metric type is empty, and then the result is `{}`; otherwise exactly one request is sent, the `getTimeSeries` batch for the HEADERS-view `LabelsTarget` over the given range (one `REDUCE_NONE` query for the refId and project); a rejected POST is passed on as that transport error, a successful reply yields `LabelsOf` that reply, and any other failure means the reply had no `results` |
| `Errors.FormatStackdriverError` | public/app/plugins/datasource/stackdriver/datasource.ts:254-268 | the message starts with `Stackdriver: ` plus `statusText: ` when present, and ends with `code. message` if the body parses, the raw body if it does not, or `Cannot connect to Stackdriver API` without a body |
| `Errors.StructuredBodyNamesCodeAndMessage` | public/app/plugins/datasource/stackdriver/datasource.ts:257-260 | a parsed body's code and message both appear in the message |
| `Errors.RawBodyQuotedVerbatim` | public/app/plugins/datasource/stackdriver/datasource.ts:261-263 | an unparseable body appears verbatim in the message |
| `Errors.TestErrorMessage` | public/app/plugins/datasource/stackdriver/datasource.ts:233-251 | a string error is the message itself; otherwise the message is exactly `Stackdriver: ` plus the status text or the generic text, followed by `: body` when there is a body (prefix, suffix and length pin it) |
| `Datasource.Describe` | public/app/plugins/datasource/stackdriver/datasource.ts:324-331 | `service` is the type up to its first `/`, `serviceShortName` the service up to its first `.`, the display name falls back to the type, and the other members are untouched |
| `Datasource.DescribeAll` | public/app/plugins/datasource/stackdriver/datasource.ts:324-332 | every descriptor is annotated, in order |
| `Datasource.DescriptorsOf` | public/app/plugins/datasource/stackdriver/datasource.ts:322-332 | a transport error passes through; a reply without `metricDescriptors` fails with a type error; otherwise the result is every returned descriptor annotated by `Describe`, in order |
| `Datasource.Retried` | public/app/plugins/datasource/stackdriver/datasource.ts:342-355 | with budget n, at most n+1 attempts are made; the result is the last attempt's reply; every earlier attempt failed; a failure means all n+1 attempts failed |
| `Datasource.OneFailureIsRetried` | public/app/plugins/datasource/stackdriver/datasource.ts:348-351 | with the default budget, one failure followed by a success yields that success after two attempts |
| `Datasource.DefaultProjectOf` | public/app/plugins/datasource/stackdriver/datasource.ts:273-286 | a transport error passes through; a project is read exactly when the reply has an `ensureDefaultProjectQuery` result with `meta`, and it is that `meta.defaultProject`; every other reply fails with a type error |
| `Datasource.ProjectsListOf` | public/app/plugins/datasource/stackdriver/datasource.ts:298-311 | a transport error passes through; a list is read exactly when the reply has a `getProjectsListQuery` result with `meta`, and it is that `meta.projectsList`; every other reply fails with a type error |
| `Datasource.MetricsPath` | public/app/plugins/datasource/stackdriver/datasource.ts:321 | the descriptor-listing path is `v3/projects/`, the project name, then `/metricDescriptors`, so the name can be read back from it |
| `Datasource.StackdriverDatasource.constructor` | public/app/plugins/datasource/stackdriver/datasource.ts:22-33 | the project defaults to `''`, authentication to `jwt`, the base URL is `/stackdriver/` and the metric-type cache starts empty |
| `Datasource.StackdriverDatasource.MustFetchProject` | public/app/plugins/datasource/stackdriver/datasource.ts:272 | the project is fetched exactly under GCE authentication or when the configured project is undefined or empty |
| `Datasource.StackdriverDatasource.GetDefaultProject` | public/app/plugins/datasource/stackdriver/datasource.ts:270-294 | without GCE authentication and with a configured project, nothing is sent and the cache is kept; otherwise one query is sent, a fetched project overwrites `projectName`, and a failure keeps it and throws the formatted error |
| `Datasource.StackdriverDatasource.GetProjects` | public/app/plugins/datasource/stackdriver/datasource.ts:296-316 | one query is sent; a fetched list overwrites `projectList`; a failure keeps it and throws the formatted error |
| `Datasource.StackdriverDatasource.GetMetricTypes` | public/app/plugins/datasource/stackdriver/datasource.ts:318-340 | a non-empty cache is returned with no request; an empty one is filled from the retried fetch; on failure the cache stays empty, `[]` is returned and the formatted error is reported |
| `Datasource.StackdriverDatasource.DoRequest` | public/app/plugins/datasource/stackdriver/datasource.ts:342-355 | the loop makes between 1 and n+1 attempts, agrees with the recursive `Retried`, and fails only after all n+1 attempts |
| `Datasource.StackdriverDatasource.TestDatasource` | public/app/plugins/datasource/stackdriver/datasource.ts:214-252 | one test query is sent with the current project; success gives status `success`, and any rejection gives status `error` with `TestErrorMessage` |

## Left out

- `metricFindQuery` (lines 209-212) delegates to `StackdriverMetricFindQuery`, which is not part of this model.
- The `variables` getter (lines 35-37) only lists template variable names for editors; nothing in the core uses it.
- HTTP transport, promises and async scheduling are not modelled; each transport is a function parameter, and a call runs to completion.
- `templateSrv.replace` is a parameter. A field that is undefined is assumed to stay undefined (`ReplaceOpt`). The missing `scopedVars` of `replace(metricType)` in `getLabels` is modelled as empty bindings.
- `JSON.parse`, `Date.parse` and the contents of `stackdriverUnitMappings` are parameters.
- The time range is given as its two millisecond strings; `valueOf().toString()` is not modelled.
- `appEvents.emit` in `getMetricTypes` is modelled as the `reported` out-parameter carrying the formatted error.
- `Datasource.Describe`: descriptor objects are updated in place in the source (lines 327-329). The model builds new descriptor values, so aliasing of the reply's objects is not captured.
- The `Array.isArray` else-branch of `interpolateGroupBys` (lines 122-124) is unreachable because `split` always returns an array, so it is not modelled.
- The `datasourceId` member of the target built by `getLabels` (line 102) is not modelled; `getTimeSeries` never reads it.
- Values of unexpected JavaScript types are not modelled: a non-boolean `hide`, a non-string filter token or `data.error`, or a `series` that is not an array.
- The reply's `results` object is modelled as its entries in the order `Object.values` visits them: array-index keys first, in ascending numeric order, then the other keys in insertion order. The model takes the entries already in that order and does not compute the reordering from the JSON's key order. With duplicate keys, `Lookup` takes the first.
- The unused `queryPromise` field is not modelled.
- `QueryBuilder.AnnotationQueryOf`: the descriptor's `target.metricType` is always a defined string in the model. An undefined one, which `replace` (line 174) would leave undefined, is not represented.
