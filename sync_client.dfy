/** Client (hipcall_sdk/client/client.py): the blocking client. Its session
    is created once, with the default headers merged into the transport's
    own, and every operation builds its request, sends it on that session and
    returns what `handle_response` makes of the answer. */
module SyncClient {
  import opened Wrappers
  import opened Json
  import opened Base
  import opened Models
  import opened Requests
  import opened Transport

  /** This client's default sort for `get_calls`, which differs from the
      "started_at.asc" of the abstract signature and of the async client. */
  const CallSortDefault := "started_at.desc"

  class Client {
    const config: ValidConfig
    const session: Session

    /** Everything of `__init__` after the configuration check: a new session
        whose headers the default headers update in place. The transport's
        own initial headers are the parameter `transportHeaders`. */
    constructor (config: ValidConfig, transportHeaders: map<string, string>)
      ensures this.config == config && fresh(session) && !session.closed
      ensures session.headers == transportHeaders + DefaultHeaders(config.apiKey)
    {
      this.config := config;
      var s := new Session(transportHeaders);
      s.UpdateHeaders(DefaultHeaders(config.apiKey));
      session := s;
    }

    method GetCall(send: Request -> Response, callId: string, date: string) returns (r: Result<Json, ClientError>)
      ensures r == Dispatch(send(CallDetailRequest(config.baseUrl, session.headers, callId, date)))
    {
      var url := CallDetailUrl(config.baseUrl, callId);
      var params := map["date" := JStr(date)];
      var response := send(Request(GET, url, session.headers, params, None));
      r := Dispatch(response);
    }

    method GetCalls(send: Request -> Response, limit: int := DefaultLimit, offset: int := DefaultOffset,
                    q: Option<string> := None, sort: string := CallSortDefault)
      returns (r: Result<Json, ClientError>)
      ensures r == Dispatch(send(CallListRequest(config.baseUrl, session.headers, limit, offset, q, sort)))
    {
      var url := CallListUrl(config.baseUrl);
      var params := map["limit" := JInt(limit), "offset" := JInt(offset), "sort" := JStr(sort)];
      if Truthy(q) {
        params := params["q" := JStr(q.value)];
      }
      var response := send(Request(GET, url, session.headers, params, None));
      r := Dispatch(response);
    }

    method CallAndBridge(send: Request -> Response, userId: int, calleeNumber: string,
                         ringUserFirst: bool := DefaultRingUserFirst)
      returns (r: Result<Json, ClientError>)
      ensures r == Dispatch(send(CallAndBridgeRequest(config.baseUrl, session.headers, userId, calleeNumber, ringUserFirst)))
    {
      var url := CallAndBridgeUrl(config.baseUrl, userId);
      var data := BridgeBody(calleeNumber, ringUserFirst);
      var response := send(Request(POST, url, session.headers, map[], Some(data)));
      r := Dispatch(response);
    }

    method GetTasks(send: Request -> Response, limit: int := DefaultLimit, offset: int := DefaultOffset,
                    q: Option<string> := None, sort: string := DefaultTaskSort)
      returns (r: Result<Json, ClientError>)
      ensures r == Dispatch(send(TaskListRequest(config.baseUrl, session.headers, limit, offset, q, sort)))
    {
      var url := TaskListUrl(config.baseUrl);
      var params := map["limit" := JInt(limit), "offset" := JInt(offset), "sort" := JStr(sort)];
      if Truthy(q) {
        params := params["q" := JStr(q.value)];
      }
      var response := send(Request(GET, url, session.headers, params, None));
      r := Dispatch(response);
    }

    method CreateTask(send: Request -> Response, task: TaskCreate) returns (r: Result<Json, ClientError>)
      ensures r == Dispatch(send(CreateTaskRequest(config.baseUrl, session.headers, task)))
    {
      var url := TaskListUrl(config.baseUrl);
      var response := send(Request(POST, url, session.headers, map[], Some(Dump(task))));
      r := Dispatch(response);
    }

    method GetTask(send: Request -> Response, taskId: int) returns (r: Result<Json, ClientError>)
      ensures r == Dispatch(send(TaskDetailRequest(config.baseUrl, session.headers, taskId)))
    {
      var url := TaskDetailUrl(config.baseUrl, taskId);
      var response := send(Request(GET, url, session.headers, map[], None));
      r := Dispatch(response);
    }
  }

  /** `Client(api_key, base_url)`: fails on an empty API key before any
      session exists; otherwise a client with the configuration and session
      described by NewConfig and the constructor. */
  method NewClient(apiKey: string, baseUrl: Option<string>, transportHeaders: map<string, string>)
    returns (r: Result<Client, ConfigError>)
    ensures r.Failure? <==> apiKey == ""
    ensures r.Success? ==> fresh(r.value) && fresh(r.value.session)
                           && r.value.config == NewConfig(apiKey, baseUrl).value
                           && r.value.session.headers == transportHeaders + DefaultHeaders(apiKey)
  {
    var cfg := NewConfig(apiKey, baseUrl);
    if cfg.Failure? {
      r := Failure(cfg.error);
    } else {
      var c := new Client(cfg.value, transportHeaders);
      r := Success(c);
    }
  }

  /** The session sends the bearer token and the JSON content type whatever
      the transport's own headers were, and keeps the transport's other
      headers as they were. */
  lemma SessionHeadersCarryCredentials(transportHeaders: map<string, string>, apiKey: string)
    ensures var h := transportHeaders + DefaultHeaders(apiKey);
            && h.Keys == transportHeaders.Keys + {"Authorization", "Content-Type"}
            && h["Authorization"] == BearerPrefix + apiKey
            && h["Content-Type"] == "application/json"
            && forall k :: k in transportHeaders && k !in DefaultHeaders(apiKey) ==> h[k] == transportHeaders[k]
  {
  }

  /** `get_calls()` and `get_tasks()` with every argument left at its
      default: limit 10, offset 0, no filter, and this client's sorts. */
  method DefaultListings(c: Client, send: Request -> Response)
    returns (calls: Result<Json, ClientError>, tasks: Result<Json, ClientError>)
    ensures calls == Dispatch(send(CallListRequest(c.config.baseUrl, c.session.headers, 10, 0, None, "started_at.desc")))
    ensures tasks == Dispatch(send(TaskListRequest(c.config.baseUrl, c.session.headers, 10, 0, None, "id.asc")))
  {
    calls := c.GetCalls(send);
    tasks := c.GetTasks(send);
  }
}
