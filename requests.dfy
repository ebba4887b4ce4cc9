/** The request each operation sends and the one path every response takes
    back, shared by the blocking client (hipcall_sdk/client/client.py) and
    the suspending one (hipcall_sdk/client/async_client.py). The transport
    itself is not modelled: a client method receives it as a function from
    the request it sends to the response it gets. */
module Requests {
  import opened Wrappers
  import opened Json
  import opened Exceptions
  import opened Base
  import opened Models

  datatype Verb = GET | POST

  /** What the session sends: the method, the URL, the session's headers, the
      query parameters and the JSON body, if any. */
  datatype Request = Request(
    verb: Verb, url: string, headers: map<string, string>, params: map<string, Json>, body: Option<Json>)

  /** The status and the body, already decoded; None when the body is not JSON
      and `response.json()` raises. */
  datatype Response = Response(status: int, body: Option<Json>)

  /** What an operation can raise: an API error from `handle_response`, a
      decoding failure before it, or (async client only) a missing or closed
      session. */
  datatype ClientError = Api(error: ApiError) | Undecodable | NoSession | SessionClosed

  /** `if q:` for an optional string: None and "" are both false. */
  predicate Truthy(q: Option<string>) {
    q.Some? && q.value != ""
  }

  /** The query of a list operation: limit, offset and sort always, exactly as
      given, and `q` only when it is truthy. */
  function ListParams(limit: int, offset: int, q: Option<string>, sort: string): (p: map<string, Json>)
    ensures p.Keys == {"limit", "offset", "sort"} + (if Truthy(q) then {"q"} else {})
    ensures "q" in p <==> Truthy(q)
    ensures p["limit"] == JInt(limit) && p["offset"] == JInt(offset) && p["sort"] == JStr(sort)
    ensures Truthy(q) ==> p["q"] == JStr(q.value)
  {
    var p := map["limit" := JInt(limit), "offset" := JInt(offset), "sort" := JStr(sort)];
    if Truthy(q) then p["q" := JStr(q.value)] else p
  }

  /** `get_call`: a GET of the call's detail URL whose only parameter is the date. */
  function CallDetailRequest(base: string, headers: map<string, string>, callId: string, date: string): (r: Request)
    ensures r.verb == GET && r.headers == headers && r.body.None?
    ensures r.url == EndpointUrl(base, CallDetail(callId)) && ParseUrl(base, r.url) == Some(CallDetail(callId))
    ensures r.params.Keys == {"date"} && r.params["date"] == JStr(date)
  {
    Request(GET, CallDetailUrl(base, callId), headers, map["date" := JStr(date)], None)
  }

  /** `get_calls`: a GET of the call list URL with the list query. */
  function CallListRequest(base: string, headers: map<string, string>, limit: int, offset: int,
                           q: Option<string>, sort: string): (r: Request)
    ensures r.verb == GET && r.headers == headers && r.body.None?
    ensures r.url == EndpointUrl(base, CallList) && ParseUrl(base, r.url) == Some(CallList)
    ensures r.params == ListParams(limit, offset, q, sort)
  {
    Request(GET, CallListUrl(base), headers, ListParams(limit, offset, q, sort), None)
  }

  /** The call-and-bridge body: the callee number and the ring-user-first flag, nothing else. */
  function BridgeBody(calleeNumber: string, ringUserFirst: bool): (j: Json)
    ensures j.JObj? && Keys(j.entries) == ["callee_number", "ring_user_first"]
    ensures Get(j.entries, "callee_number") == Some(JStr(calleeNumber))
    ensures Get(j.entries, "ring_user_first") == Some(JBool(ringUserFirst))
  {
    JObj([("callee_number", JStr(calleeNumber)), ("ring_user_first", JBool(ringUserFirst))])
  }

  /** `call_and_bridge`: a POST of the bridge body to the user's call URL. */
  function CallAndBridgeRequest(base: string, headers: map<string, string>, userId: int,
                                calleeNumber: string, ringUserFirst: bool): (r: Request)
    ensures r.verb == POST && r.headers == headers && r.params == map[]
    ensures r.url == EndpointUrl(base, CallAndBridge(userId)) && ParseUrl(base, r.url) == Some(CallAndBridge(userId))
    ensures r.body == Some(BridgeBody(calleeNumber, ringUserFirst))
  {
    Request(POST, CallAndBridgeUrl(base, userId), headers, map[], Some(BridgeBody(calleeNumber, ringUserFirst)))
  }

  /** `get_tasks`: a GET of the task list URL with the list query. */
  function TaskListRequest(base: string, headers: map<string, string>, limit: int, offset: int,
                           q: Option<string>, sort: string): (r: Request)
    ensures r.verb == GET && r.headers == headers && r.body.None?
    ensures r.url == EndpointUrl(base, TaskList) && ParseUrl(base, r.url) == Some(TaskList)
    ensures r.params == ListParams(limit, offset, q, sort)
  {
    Request(GET, TaskListUrl(base), headers, ListParams(limit, offset, q, sort), None)
  }

  /** `create_task`: a POST, to the URL tasks are listed from, of the task's
      set fields, which validate back into the same task. */
  function CreateTaskRequest(base: string, headers: map<string, string>, task: TaskCreate): (r: Request)
    ensures r.verb == POST && r.headers == headers && r.params == map[]
    ensures r.url == EndpointUrl(base, TaskList) && ParseUrl(base, r.url) == Some(TaskList)
    ensures r.body == Some(Dump(task)) && Reload(r.body.value) == Some(task)
  {
    DumpRoundTrip(task);
    Request(POST, TaskListUrl(base), headers, map[], Some(Dump(task)))
  }

  /** `get_task`: a GET of the task's detail URL with no parameters. */
  function TaskDetailRequest(base: string, headers: map<string, string>, taskId: int): (r: Request)
    ensures r.verb == GET && r.headers == headers && r.params == map[] && r.body.None?
    ensures r.url == EndpointUrl(base, TaskDetail(taskId)) && ParseUrl(base, r.url) == Some(TaskDetail(taskId))
  {
    Request(GET, TaskDetailUrl(base, taskId), headers, map[], None)
  }

  /** After the exchange: `response.json()`, then `handle_response`. An
      operation's result is the decoded body in exactly the cases
      `handle_response` returns it; a body that is not JSON fails first. */
  function Dispatch(resp: Response): (r: Result<Json, ClientError>)
    ensures resp.body.None? ==> r == Failure(Undecodable)
    ensures r.Success? <==> resp.body.Some? && (resp.status == 200 || resp.status == 201)
    ensures r.Success? ==> resp.body == Some(r.value)
    ensures r.Failure? && resp.body.Some? ==> r.error == Api(HandleResponse(resp.status, resp.body.value).error)
  {
    match resp.body
    case None => Failure(Undecodable)
    case Some(content) =>
      match HandleResponse(resp.status, content)
      case Success(data) => Success(data)
      case Failure(e) => Failure(Api(e))
  }

  /** The two list operations send the same query shape. */
  lemma ListQueriesAgree(base: string, headers: map<string, string>, limit: int, offset: int,
                         q: Option<string>, sort: string)
    ensures CallListRequest(base, headers, limit, offset, q, sort).params
         == TaskListRequest(base, headers, limit, offset, q, sort).params
    ensures CallListRequest(base, headers, limit, offset, q, sort).url
         != TaskListRequest(base, headers, limit, offset, q, sort).url
  {
    EndpointUrlInjective(base, CallList, TaskList);
  }
}
