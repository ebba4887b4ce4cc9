/** AsyncClient (hipcall_sdk/client/async_client.py): the suspending client.
    It has no session until `async with` enters it; leaving closes the
    session if there is one. The operations build the same requests as the
    blocking client (with its own default sort for call lists) and fail when
    there is no open session. Suspension and scheduling are not modelled. */
module AsyncClient {
  import opened Wrappers
  import opened Json
  import opened Base
  import opened Models
  import opened Requests
  import opened Transport

  class AsyncClient {
    const config: ValidConfig
    var session: Session?

    /** Everything of `__init__` after the configuration check: no session yet. */
    constructor (config: ValidConfig)
      ensures this.config == config && session == null
    {
      this.config := config;
      session := null;
    }

    /** `__aenter__`: a new session with exactly the default headers, replacing
        any earlier one; returns the client itself. */
    method Enter() returns (client: AsyncClient)
      modifies this
      ensures client == this && session != null && fresh(session) && !session.closed
      ensures session.headers == DefaultHeaders(config.apiKey)
    {
      session := new Session(DefaultHeaders(config.apiKey));
      client := this;
    }

    /** `__aexit__`: closes the session only if there is one. The session
        stays in place, closed; the exception details are not used. */
    method Exit()
      modifies session
      ensures session == old(session)
      ensures session != null ==> session.closed && session.headers == old(session.headers)
    {
      if session != null {
        session.Close();
      }
    }

    /** Sends `req` on the session: outside `async with` there is no session
        to call (an AttributeError on None), and a closed session refuses. */
    method Send(send: Request -> Response, req: Request) returns (r: Result<Json, ClientError>)
      ensures session == null ==> r == Failure(NoSession)
      ensures session != null && session.closed ==> r == Failure(SessionClosed)
      ensures session != null && !session.closed ==> r == Dispatch(send(req))
    {
      if session == null {
        r := Failure(NoSession);
      } else if session.closed {
        r := Failure(SessionClosed);
      } else {
        var response := send(req);
        r := Dispatch(response);
      }
    }

    /** The headers the session sends with every request. */
    function SessionHeaders(): map<string, string>
      reads this, session
    {
      if session == null then map[] else session.headers
    }

    /** Whether the client is inside `async with` with its session open. */
    predicate Open()
      reads this, session
    {
      session != null && !session.closed
    }

    method GetCall(send: Request -> Response, callId: string, date: string) returns (r: Result<Json, ClientError>)
      ensures session == null ==> r == Failure(NoSession)
      ensures session != null && session.closed ==> r == Failure(SessionClosed)
      ensures Open() ==> r == Dispatch(send(CallDetailRequest(config.baseUrl, SessionHeaders(), callId, date)))
    {
      var url := CallDetailUrl(config.baseUrl, callId);
      var params := map["date" := JStr(date)];
      r := Send(send, Request(GET, url, SessionHeaders(), params, None));
    }

    method GetCalls(send: Request -> Response, limit: int := DefaultLimit, offset: int := DefaultOffset,
                    q: Option<string> := None, sort: string := DefaultCallSort)
      returns (r: Result<Json, ClientError>)
      ensures session == null ==> r == Failure(NoSession)
      ensures session != null && session.closed ==> r == Failure(SessionClosed)
      ensures Open() ==> r == Dispatch(send(CallListRequest(config.baseUrl, SessionHeaders(), limit, offset, q, sort)))
    {
      var url := CallListUrl(config.baseUrl);
      var params := map["limit" := JInt(limit), "offset" := JInt(offset), "sort" := JStr(sort)];
      if Truthy(q) {
        params := params["q" := JStr(q.value)];
      }
      r := Send(send, Request(GET, url, SessionHeaders(), params, None));
    }

    method CallAndBridge(send: Request -> Response, userId: int, calleeNumber: string,
                         ringUserFirst: bool := DefaultRingUserFirst)
      returns (r: Result<Json, ClientError>)
      ensures session == null ==> r == Failure(NoSession)
      ensures session != null && session.closed ==> r == Failure(SessionClosed)
      ensures Open() ==> r == Dispatch(send(CallAndBridgeRequest(config.baseUrl, SessionHeaders(), userId, calleeNumber, ringUserFirst)))
    {
      var url := CallAndBridgeUrl(config.baseUrl, userId);
      var data := BridgeBody(calleeNumber, ringUserFirst);
      r := Send(send, Request(POST, url, SessionHeaders(), map[], Some(data)));
    }

    method GetTasks(send: Request -> Response, limit: int := DefaultLimit, offset: int := DefaultOffset,
                    q: Option<string> := None, sort: string := DefaultTaskSort)
      returns (r: Result<Json, ClientError>)
      ensures session == null ==> r == Failure(NoSession)
      ensures session != null && session.closed ==> r == Failure(SessionClosed)
      ensures Open() ==> r == Dispatch(send(TaskListRequest(config.baseUrl, SessionHeaders(), limit, offset, q, sort)))
    {
      var url := TaskListUrl(config.baseUrl);
      var params := map["limit" := JInt(limit), "offset" := JInt(offset), "sort" := JStr(sort)];
      if Truthy(q) {
        params := params["q" := JStr(q.value)];
      }
      r := Send(send, Request(GET, url, SessionHeaders(), params, None));
    }

    method CreateTask(send: Request -> Response, task: TaskCreate) returns (r: Result<Json, ClientError>)
      ensures session == null ==> r == Failure(NoSession)
      ensures session != null && session.closed ==> r == Failure(SessionClosed)
      ensures Open() ==> r == Dispatch(send(CreateTaskRequest(config.baseUrl, SessionHeaders(), task)))
    {
      var url := TaskListUrl(config.baseUrl);
      var data := Dump(task);
      r := Send(send, Request(POST, url, SessionHeaders(), map[], Some(data)));
    }

    method GetTask(send: Request -> Response, taskId: int) returns (r: Result<Json, ClientError>)
      ensures session == null ==> r == Failure(NoSession)
      ensures session != null && session.closed ==> r == Failure(SessionClosed)
      ensures Open() ==> r == Dispatch(send(TaskDetailRequest(config.baseUrl, SessionHeaders(), taskId)))
    {
      var url := TaskDetailUrl(config.baseUrl, taskId);
      r := Send(send, Request(GET, url, SessionHeaders(), map[], None));
    }
  }

  /** `AsyncClient(api_key, base_url)`: fails on an empty API key; otherwise a
      client with the configuration NewConfig describes and no session. */
  method NewAsyncClient(apiKey: string, baseUrl: Option<string>) returns (r: Result<AsyncClient, ConfigError>)
    ensures r.Failure? <==> apiKey == ""
    ensures r.Success? ==> fresh(r.value) && r.value.config == NewConfig(apiKey, baseUrl).value
                           && r.value.session == null
  {
    var cfg := NewConfig(apiKey, baseUrl);
    if cfg.Failure? {
      r := Failure(cfg.error);
    } else {
      var c := new AsyncClient(cfg.value);
      r := Success(c);
    }
  }

  /** The scoped use `async with AsyncClient(...) as client: await
      client.get_calls()`, with a call before entering and one after
      leaving: only the call inside the scope reaches the transport, with
      the default headers and the defaults of the abstract signature. */
  method ScopedCallList(config: ValidConfig, send: Request -> Response)
    returns (before: Result<Json, ClientError>, inside: Result<Json, ClientError>, after: Result<Json, ClientError>)
    ensures before == Failure(NoSession)
    ensures inside == Dispatch(send(CallListRequest(config.baseUrl, DefaultHeaders(config.apiKey),
                                                    10, 0, None, "started_at.asc")))
    ensures after == Failure(SessionClosed)
  {
    var client := new AsyncClient(config);
    before := client.GetCalls(send);
    var scoped := client.Enter();
    inside := scoped.GetCalls(send);
    scoped.Exit();
    after := client.GetCalls(send);
  }
}
