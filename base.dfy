/** HipcallBaseClient (hipcall_sdk/client/base.py): the configuration both
    clients hold, their default headers, the status dispatch every operation
    goes through, the endpoint URLs, and the default argument values of the
    operation set. */
module Base {
  import opened Wrappers
  import opened Json
  import Decimal
  import opened Exceptions

  /** DEFAULT_HIPCALL_BASE_ADDRESS. */
  const DefaultBaseAddress := "https://use.hipcall.com.tr"

  /** The two fields `__init__` assigns once. */
  datatype Config = Config(apiKey: string, baseUrl: string)

  /** A configuration the constructor accepted: its API key is not empty. */
  type ValidConfig = c: Config | c.apiKey != "" witness Config("-", DefaultBaseAddress)

  /** The ValueError raised for a missing API key. */
  datatype ConfigError = MissingApiKey

  /** `HipcallBaseClient.__init__`: rejects an empty API key; `base_url or
      DEFAULT_HIPCALL_BASE_ADDRESS` keeps a given non-empty base URL. */
  function NewConfig(apiKey: string, baseUrl: Option<string>): (r: Result<ValidConfig, ConfigError>)
    ensures r.Failure? <==> apiKey == ""
    ensures r.Success? ==> r.value.apiKey == apiKey
    ensures r.Success? && baseUrl.Some? && baseUrl.value != "" ==> r.value.baseUrl == baseUrl.value
    ensures r.Success? && (baseUrl.None? || baseUrl == Some("")) ==> r.value.baseUrl == DefaultBaseAddress
  {
    if apiKey == "" then Failure(MissingApiKey)
    else Success(Config(apiKey, if baseUrl.Some? && baseUrl.value != "" then baseUrl.value else DefaultBaseAddress))
  }

  const BearerPrefix := "Bearer "

  /** `get_default_headers`: a bearer token and a JSON content type, nothing else. */
  function DefaultHeaders(apiKey: string): (h: map<string, string>)
    ensures h.Keys == {"Authorization", "Content-Type"}
    ensures HasPrefix(h["Authorization"], BearerPrefix)
    ensures h["Authorization"][|BearerPrefix|..] == apiKey
    ensures h["Content-Type"] == "application/json"
  {
    map["Authorization" := BearerPrefix + apiKey, "Content-Type" := "application/json"]
  }

  /** The headers identify the API key they were built from. */
  lemma DefaultHeadersInjective(a: string, b: string)
    ensures DefaultHeaders(a) == DefaultHeaders(b) ==> a == b
  {
    if DefaultHeaders(a) == DefaultHeaders(b) {
      assert DefaultHeaders(a)["Authorization"][|BearerPrefix|..] == a;
    }
  }

  /** EXCEPTION_MAP: the statuses with a class of their own. */
  const ExceptionMap: map<int, ErrorKind> :=
    map[400 := BadRequest, 401 := Unauthorized, 404 := NotFound, 422 := Unprocessable]

  /** `handle_response`: the content unchanged for 200 and 201; otherwise the
      error of the class EXCEPTION_MAP gives the status, HipcallAPIException
      when it gives none, carrying the status and the content. */
  function HandleResponse(status: int, content: Json): (r: Result<Json, ApiError>)
    ensures r.Success? <==> status == 200 || status == 201
    ensures r.Success? ==> r.value == content
    ensures r.Failure? ==> r.error.status == status && r.error.content == content
    ensures r.Failure? ==> (r.error.kind == BadRequest <==> status == 400)
    ensures r.Failure? ==> (r.error.kind == Unauthorized <==> status == 401)
    ensures r.Failure? ==> (r.error.kind == NotFound <==> status == 404)
    ensures r.Failure? ==> (r.error.kind == Unprocessable <==> status == 422)
    ensures r.Failure? ==> (r.error.kind == Generic <==> status !in {400, 401, 404, 422})
  {
    if status in [200, 201] then Success(content)
    else
      var kind := if status in ExceptionMap then ExceptionMap[status] else Generic;
      Failure(ApiError(kind, status, content))
  }

  /** What callers see of an error: catching HipcallAPIException catches every
      error `handle_response` raises, 500 and 503 among them. */
  lemma HandleResponseRaisesApiErrors(status: int, content: Json)
    requires status != 200 && status != 201
    ensures HandleResponse(status, content).Failure?
    ensures IsInstance(HandleResponse(status, content).error.kind, Generic)
    ensures status == 500 || status == 503 ==> HandleResponse(status, content).error.kind == Generic
  {
  }

  // ----- Endpoint URLs -----

  const CallsPath := "/api/v3/calls"
  const UsersPath := "/api/v3/users"
  const CallSuffix := "/call"
  const TasksPath := "/api/v3/tasks"

  /** The five endpoints, with the path parameter each takes. */
  datatype Endpoint =
    | CallDetail(callId: string)
    | CallList
    | CallAndBridge(userId: int)
    | TaskList
    | TaskDetail(taskId: int)

  predicate HasPrefix(s: string, p: string) {
    |p| <= |s| && s[..|p|] == p
  }

  /** Which endpoint a path after the base URL names, and with which
      parameter; None for a path that is none of them. */
  function ParsePath(p: string): Option<Endpoint>
  {
    if p == CallsPath then Some(CallList)
    else if p == TasksPath then Some(TaskList)
    else if HasPrefix(p, CallsPath + "/") then Some(CallDetail(p[|CallsPath| + 1..]))
    else if HasPrefix(p, TasksPath + "/") then
      match Decimal.ParseInt(p[|TasksPath| + 1..])
      case Some(id) => Some(TaskDetail(id))
      case None => None
    else if HasPrefix(p, UsersPath + "/") && |p| >= |UsersPath| + 1 + |CallSuffix|
            && p[|p| - |CallSuffix|..] == CallSuffix then
      match Decimal.ParseInt(p[|UsersPath| + 1..|p| - |CallSuffix|])
      case Some(id) => Some(CallAndBridge(id))
      case None => None
    else None
  }

  /** Which endpoint a URL under `base` names. */
  function ParseUrl(base: string, url: string): (r: Option<Endpoint>)
    ensures r.Some? ==> HasPrefix(url, base)
  {
    if HasPrefix(url, base) then ParsePath(url[|base|..]) else None
  }

  lemma ParseUrlUnderBase(base: string, path: string)
    ensures ParseUrl(base, base + path) == ParsePath(path)
  {
    assert (base + path)[..|base|] == base;
    assert (base + path)[|base|..] == path;
  }

  /** `get_call_detail_url`: the call id is inserted verbatim. */
  function CallDetailUrl(base: string, callId: string): (u: string)
    ensures HasPrefix(u, base) && ParseUrl(base, u) == Some(CallDetail(callId))
  {
    var path := CallsPath + "/" + callId;
    assert HasPrefix(path, CallsPath + "/") && path[|CallsPath| + 1..] == callId;
    ParseUrlUnderBase(base, path);
    base + path
  }

  /** `get_call_list_url`. */
  function CallListUrl(base: string): (u: string)
    ensures HasPrefix(u, base) && ParseUrl(base, u) == Some(CallList)
  {
    ParseUrlUnderBase(base, CallsPath);
    base + CallsPath
  }

  /** `get_call_and_bridge_url`: the user id in decimal. */
  function CallAndBridgeUrl(base: string, userId: int): (u: string)
    ensures HasPrefix(u, base) && ParseUrl(base, u) == Some(CallAndBridge(userId))
  {
    var digits := Decimal.IntToString(userId);
    var path := UsersPath + "/" + digits + CallSuffix;
    assert path != CallsPath && path != TasksPath;
    assert !HasPrefix(path, CallsPath + "/") by { assert path[8] != (CallsPath + "/")[8]; }
    assert !HasPrefix(path, TasksPath + "/") by { assert path[8] != (TasksPath + "/")[8]; }
    assert HasPrefix(path, UsersPath + "/");
    assert path[|path| - |CallSuffix|..] == CallSuffix;
    assert path[|UsersPath| + 1..|path| - |CallSuffix|] == digits;
    Decimal.IntRoundTrip(userId);
    ParseUrlUnderBase(base, path);
    base + path
  }

  /** `get_task_list_url`. */
  function TaskListUrl(base: string): (u: string)
    ensures HasPrefix(u, base) && ParseUrl(base, u) == Some(TaskList)
  {
    ParseUrlUnderBase(base, TasksPath);
    base + TasksPath
  }

  /** `get_task_detail_url`: the task id in decimal. */
  function TaskDetailUrl(base: string, taskId: int): (u: string)
    ensures HasPrefix(u, base) && ParseUrl(base, u) == Some(TaskDetail(taskId))
  {
    var digits := Decimal.IntToString(taskId);
    var path := TasksPath + "/" + digits;
    assert path != CallsPath && path != TasksPath;
    assert !HasPrefix(path, CallsPath + "/") by { assert path[8] != (CallsPath + "/")[8]; }
    assert HasPrefix(path, TasksPath + "/") && path[|TasksPath| + 1..] == digits;
    Decimal.IntRoundTrip(taskId);
    ParseUrlUnderBase(base, path);
    base + path
  }

  /** The URL of an endpoint, by the builder for it. */
  function EndpointUrl(base: string, e: Endpoint): string
  {
    match e
    case CallDetail(id) => CallDetailUrl(base, id)
    case CallList => CallListUrl(base)
    case CallAndBridge(id) => CallAndBridgeUrl(base, id)
    case TaskList => TaskListUrl(base)
    case TaskDetail(id) => TaskDetailUrl(base, id)
  }

  /** Distinct endpoints, or one endpoint with distinct parameters, never
      share a URL: the URL can be read back into the endpoint it names. */
  lemma EndpointUrlInjective(base: string, e1: Endpoint, e2: Endpoint)
    ensures ParseUrl(base, EndpointUrl(base, e1)) == Some(e1)
    ensures EndpointUrl(base, e1) == EndpointUrl(base, e2) ==> e1 == e2
  {
    assert ParseUrl(base, EndpointUrl(base, e2)) == Some(e2);
  }

  /** A path that names an endpoint is the one its builder writes. */
  lemma ParsePathExact(base: string, p: string)
    ensures ParsePath(p).Some? ==> base + p == EndpointUrl(base, ParsePath(p).value)
  {
    if p == CallsPath || p == TasksPath {
    } else if HasPrefix(p, CallsPath + "/") {
      assert p == CallsPath + "/" + p[|CallsPath| + 1..];
    } else if HasPrefix(p, TasksPath + "/") {
      var digits := p[|TasksPath| + 1..];
      Decimal.ParseIntCanonical(digits);
      assert p == TasksPath + "/" + digits;
    } else if HasPrefix(p, UsersPath + "/") && |p| >= |UsersPath| + 1 + |CallSuffix|
            && p[|p| - |CallSuffix|..] == CallSuffix {
      var digits := p[|UsersPath| + 1..|p| - |CallSuffix|];
      Decimal.ParseIntCanonical(digits);
      assert p == UsersPath + "/" + digits + CallSuffix;
    }
  }

  /** The converse of the builders: a URL that names an endpoint is the one
      its builder writes, so the read-back fixes the text, ids included. */
  lemma ParseUrlExact(base: string, u: string)
    ensures ParseUrl(base, u).Some? ==> u == EndpointUrl(base, ParseUrl(base, u).value)
  {
    if HasPrefix(u, base) {
      assert u == base + u[|base|..];
      ParsePathExact(base, u[|base|..]);
    }
  }

  // ----- Default argument values of the abstract operation set -----

  const DefaultLimit := 10
  const DefaultOffset := 0
  const DefaultCallSort := "started_at.asc"
  const DefaultTaskSort := "id.asc"
  const DefaultRingUserFirst := true
}
