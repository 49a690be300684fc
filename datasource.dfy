/**
 * The datasource object itself: its lazily resolved default project, its memoised
 * metric-type list, the connectivity test and the bounded-retry GET.
 */
module Datasource {
  import opened Wrappers
  import opened Types
  import opened Strings
  import opened Errors

  datatype JsonData = JsonData(defaultProject: Option<string>, authenticationType: Option<string>)

  datatype InstanceSettings = InstanceSettings(id: int, url: string, jsonData: JsonData)

  /** A metric descriptor as the API returns it; `attributes` are the members this code never touches. */
  datatype RawDescriptor = RawDescriptor(descriptorType: string, displayName: Option<string>, attributes: map<string, string>)

  /** A metric descriptor after `getMetricTypes` has annotated it. */
  datatype MetricDescriptor = MetricDescriptor(
    descriptorType: string,
    displayName: string,
    service: string,
    serviceShortName: string,
    attributes: map<string, string>)

  /** The reply body `{metricDescriptors: [...]}` of the descriptor listing. */
  datatype DescriptorList = DescriptorList(metricDescriptors: Option<seq<RawDescriptor>>)

  type Getter<T> = (string, nat) -> Result<T, HttpError>

  /**
   * The annotation of one descriptor: `service` is the type up to its first `/`,
   * `serviceShortName` the service up to its first `.`, and the display name
   * falls back to the type.
   */
  function Describe(m: RawDescriptor): (d: MetricDescriptor)
    ensures d.descriptorType == m.descriptorType && d.attributes == m.attributes
    ensures d.service <= m.descriptorType && '/' !in d.service
    ensures |d.service| == |m.descriptorType| || m.descriptorType[|d.service|] == '/'
    ensures d.serviceShortName <= d.service && '.' !in d.serviceShortName
    ensures |d.serviceShortName| == |d.service| || d.service[|d.serviceShortName|] == '.'
    ensures Truthy(m.displayName) ==> d.displayName == m.displayName.value
    ensures !Truthy(m.displayName) ==> d.displayName == m.descriptorType
  {
    var service := FirstField(m.descriptorType, '/');
    var serviceShortName := FirstField(service, '.');
    MetricDescriptor(m.descriptorType, OrElse(m.displayName, m.descriptorType), service, serviceShortName, m.attributes)
  }

  function DescribeAll(ms: seq<RawDescriptor>): (ds: seq<MetricDescriptor>)
    ensures |ds| == |ms|
    ensures forall i :: 0 <= i < |ms| ==> ds[i] == Describe(ms[i])
    decreases |ms|
  {
    if ms == [] then [] else [Describe(ms[0])] + DescribeAll(ms[1..])
  }

  /** The descriptor list of a GET reply; a reply without `metricDescriptors` throws on `.map`. */
  function DescriptorsOf(reply: Result<DescriptorList, HttpError>): (r: Result<seq<MetricDescriptor>, HttpError>)
    ensures reply.Failure? ==> r == Failure(reply.error)
    ensures reply.Success? && reply.value.metricDescriptors.None? ==> r == Failure(RuntimeTypeError)
    ensures reply.Success? && reply.value.metricDescriptors.Some? ==>
      r == Success(DescribeAll(reply.value.metricDescriptors.value))
  {
    match reply
    case Failure(e) => Failure(e)
    case Success(body) =>
      if body.metricDescriptors.Some? then Success(DescribeAll(body.metricDescriptors.value))
      else Failure(RuntimeTypeError)
  }

  /** A retry budget below zero behaves like zero. */
  function Budget(maxRetries: int): nat {
    if maxRetries > 0 then maxRetries else 0
  }

  /**
   * `doRequest(url, maxRetries)` started at attempt number `attempt`, where the
   * transport answers attempt `k` with `get(url, k)`. The result is the reply of the
   * last attempt made, paired with the number of attempts made in all.
   */
  function Retried<T>(get: Getter<T>, url: string, maxRetries: int, attempt: nat): (r: (Result<T, HttpError>, nat))
    ensures attempt < r.1 <= attempt + Budget(maxRetries) + 1
    ensures r.0 == get(url, r.1 - 1)
    ensures forall k :: attempt <= k < r.1 - 1 ==> get(url, k).Failure?
    ensures r.0.Failure? ==> r.1 == attempt + Budget(maxRetries) + 1
    decreases Budget(maxRetries)
  {
    match get(url, attempt)
    case Success(v) => (Success(v), attempt + 1)
    case Failure(e) =>
      if maxRetries > 0 then Retried(get, url, maxRetries - 1, attempt + 1)
      else (Failure(e), attempt + 1)
  }

  /** With the default budget, a transport that fails once and then succeeds yields that success on the second attempt. */
  lemma OneFailureIsRetried<T>(get: Getter<T>, url: string)
    requires get(url, 0).Failure? && get(url, 1).Success?
    ensures Retried(get, url, 1, 0) == (get(url, 1), 2)
  {
  }

  datatype TestResult = TestResult(status: string, message: string)

  const TestSucceeded: string := "Successfully queried the Stackdriver API."

  /** The reply to `ensureDefaultProjectQuery`: `results.ensureDefaultProjectQuery.meta.defaultProject`. */
  function DefaultProjectOf(reply: Result<Response, HttpError>): (r: Result<Option<string>, HttpError>)
    ensures reply.Failure? ==> r == Failure(reply.error)
    ensures r.Success? <==>
      && reply.Success? && reply.value.results.Some?
      && var q := Lookup(reply.value.results.value, "ensureDefaultProjectQuery");
      && q.Some? && q.value.meta.Some?
    ensures r.Success? ==> r.value == Lookup(reply.value.results.value, "ensureDefaultProjectQuery").value.meta.value.defaultProject
    ensures reply.Success? && r.Failure? ==> r.error == RuntimeTypeError
  {
    match reply
    case Failure(e) => Failure(e)
    case Success(body) =>
      if body.results.None? then Failure(RuntimeTypeError)
      else match Lookup(body.results.value, "ensureDefaultProjectQuery")
        case Some(QueryResult(_, _, Some(meta), _)) => Success(meta.defaultProject)
        case _ => Failure(RuntimeTypeError)
  }

  /** The reply to `getProjectsListQuery`: `results.getProjectsListQuery.meta.projectsList`. */
  function ProjectsListOf(reply: Result<Response, HttpError>): (r: Result<Option<seq<ProjectEntry>>, HttpError>)
    ensures reply.Failure? ==> r == Failure(reply.error)
    ensures r.Success? <==>
      && reply.Success? && reply.value.results.Some?
      && var q := Lookup(reply.value.results.value, "getProjectsListQuery");
      && q.Some? && q.value.meta.Some?
    ensures r.Success? ==> r.value == Lookup(reply.value.results.value, "getProjectsListQuery").value.meta.value.projectsList
    ensures reply.Success? && r.Failure? ==> r.error == RuntimeTypeError
  {
    match reply
    case Failure(e) => Failure(e)
    case Success(body) =>
      if body.results.None? then Failure(RuntimeTypeError)
      else match Lookup(body.results.value, "getProjectsListQuery")
        case Some(QueryResult(_, _, Some(meta), _)) => Success(meta.projectsList)
        case _ => Failure(RuntimeTypeError)
  }

  /** The descriptor-listing path of a project; the project name sits between fixed prefix and suffix. */
  function MetricsPath(projectName: string): (p: string)
    ensures |p| == |projectName| + 30
    ensures p[..12] == "v3/projects/" && p[|p| - 18..] == "/metricDescriptors"
    ensures p[12..|p| - 18] == projectName
  {
    "v3/projects/" + projectName + "/metricDescriptors"
  }

  class StackdriverDatasource {
    const id: int
    const url: string
    const baseUrl: string
    const authenticationType: string
    var projectName: Option<string>
    var projectList: Option<seq<ProjectEntry>>
    var metricTypes: seq<MetricDescriptor>

    constructor (settings: InstanceSettings)
      ensures id == settings.id && url == settings.url && baseUrl == "/stackdriver/"
      ensures projectName == Some(OrElse(settings.jsonData.defaultProject, ""))
      ensures authenticationType == OrElse(settings.jsonData.authenticationType, "jwt")
      ensures projectList == None && metricTypes == []
    {
      id := settings.id;
      url := settings.url;
      baseUrl := "/stackdriver/";
      projectName := Some(OrElse(settings.jsonData.defaultProject, ""));
      authenticationType := OrElse(settings.jsonData.authenticationType, "jwt");
      projectList := None;
      metricTypes := [];
    }

    /** The project must be fetched under GCE authentication or when none is configured. */
    predicate MustFetchProject()
      reads this
      ensures authenticationType == "gce" ==> MustFetchProject()
      ensures projectName.None? || projectName == Some("") ==> MustFetchProject()
      ensures MustFetchProject() ==> authenticationType == "gce" || projectName.None? || projectName == Some("")
    {
      authenticationType == "gce" || !Truthy(projectName)
    }

    /** `getDefaultProject()`: a configured project short-circuits; otherwise the fetched one replaces it. */
    method GetDefaultProject(post: TsdbRequest -> Result<Response, HttpError>, parse: JsonParser)
      returns (sent: seq<TsdbRequest>, r: Result<Option<string>, string>)
      modifies this`projectName
      ensures !old(MustFetchProject()) ==>
        sent == [] && r == Success(old(projectName)) && projectName == old(projectName)
      ensures old(MustFetchProject()) ==>
        var req := TsdbRequest(None, None, [EnsureDefaultProjectQuery("ensureDefaultProjectQuery", id)]);
        var fetched := DefaultProjectOf(post(req));
        && sent == [req]
        && (fetched.Success? ==> projectName == fetched.value && r == Success(fetched.value))
        && (fetched.Failure? ==> projectName == old(projectName) && r == Failure(FormatStackdriverError(parse, fetched.error)))
    {
      if MustFetchProject() {
        var req := TsdbRequest(None, None, [EnsureDefaultProjectQuery("ensureDefaultProjectQuery", id)]);
        sent := [req];
        var fetched := DefaultProjectOf(post(req));
        if fetched.Success? {
          projectName := fetched.value;
          r := Success(projectName);
        } else {
          r := Failure(FormatStackdriverError(parse, fetched.error));
        }
      } else {
        sent := [];
        r := Success(projectName);
      }
    }

    /** `getProjects()`: always fetches, and caches the list it reads. */
    method GetProjects(post: TsdbRequest -> Result<Response, HttpError>, parse: JsonParser)
      returns (sent: seq<TsdbRequest>, r: Result<Option<seq<ProjectEntry>>, string>)
      modifies this`projectList
      ensures var req := TsdbRequest(None, None, [GetProjectsListQuery("getProjectsListQuery", id)]);
        var fetched := ProjectsListOf(post(req));
        && sent == [req]
        && (fetched.Success? ==> projectList == fetched.value && r == Success(fetched.value))
        && (fetched.Failure? ==> projectList == old(projectList) && r == Failure(FormatStackdriverError(parse, fetched.error)))
    {
      var req := TsdbRequest(None, None, [GetProjectsListQuery("getProjectsListQuery", id)]);
      sent := [req];
      var fetched := ProjectsListOf(post(req));
      if fetched.Success? {
        projectList := fetched.value;
        r := Success(projectList);
      } else {
        r := Failure(FormatStackdriverError(parse, fetched.error));
      }
    }

    /**
     * `getMetricTypes(projectName)`: fetches only while the cache is empty; a failure
     * leaves the cache alone, reports the formatted error and resolves to no types.
     */
    method GetMetricTypes(projectName: string, get: Getter<DescriptorList>, parse: JsonParser)
      returns (attempts: nat, reported: Option<string>, types: seq<MetricDescriptor>)
      modifies this`metricTypes
      ensures old(metricTypes) != [] ==>
        attempts == 0 && reported == None && types == old(metricTypes) && metricTypes == old(metricTypes)
      ensures old(metricTypes) == [] ==>
        var retried := Retried(get, url + baseUrl + MetricsPath(projectName), 1, 0);
        var fetched := DescriptorsOf(retried.0);
        && attempts == retried.1
        && (fetched.Success? ==> metricTypes == fetched.value && types == fetched.value && reported == None)
        && (fetched.Failure? ==>
              metricTypes == [] && types == [] && reported == Some(FormatStackdriverError(parse, fetched.error)))
    {
      if metricTypes == [] {
        var reply;
        reply, attempts := DoRequest(baseUrl + MetricsPath(projectName), 1, get);
        assert url + (baseUrl + MetricsPath(projectName)) == url + baseUrl + MetricsPath(projectName);
        var fetched := DescriptorsOf(reply);
        if fetched.Failure? {
          reported := Some(FormatStackdriverError(parse, fetched.error));
          types := [];
          return;
        }
        metricTypes := fetched.value;
      } else {
        attempts := 0;
      }
      reported := None;
      types := metricTypes;
    }

    /** `doRequest(path, maxRetries)`: retry while attempts fail and the budget lasts. */
    method DoRequest<T>(path: string, maxRetries: int, get: Getter<T>) returns (r: Result<T, HttpError>, attempts: nat)
      ensures (r, attempts) == Retried(get, url + path, maxRetries, 0)
      ensures 1 <= attempts <= Budget(maxRetries) + 1
      ensures r.Failure? ==> attempts == Budget(maxRetries) + 1
    {
      var full := url + path;
      var left := maxRetries;
      r := get(full, 0);
      attempts := 1;
      while r.Failure? && left > 0
        invariant 1 <= attempts
        invariant r == get(full, attempts - 1)
        invariant Retried(get, full, maxRetries, 0)
               == if r.Failure? && left > 0 then Retried(get, full, left - 1, attempts) else (r, attempts)
        decreases Budget(left)
      {
        left := left - 1;
        r := get(full, attempts);
        attempts := attempts + 1;
      }
    }

    /** `testDatasource()`: one test query; any rejection becomes an error status with its message. */
    method TestDatasource(post: TsdbRequest -> Result<Response, HttpError>) returns (sent: seq<TsdbRequest>, result: TestResult)
      ensures var req := TsdbRequest(None, None, [TestDatasourceQuery("testDatasource", id, projectName)]);
        && sent == [req]
        && (post(req).Success? ==> result == TestResult("success", TestSucceeded))
        && (post(req).Failure? ==> result == TestResult("error", TestErrorMessage(post(req).error)))
    {
      var req := TsdbRequest(None, None, [TestDatasourceQuery("testDatasource", id, projectName)]);
      sent := [req];
      match post(req)
      case Success(_) =>
        result := TestResult("success", TestSucceeded);
      case Failure(error) =>
        result := TestResult("error", TestErrorMessage(error));
    }
  }
}
