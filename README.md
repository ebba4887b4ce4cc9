# Hipcall Python SDK, modelled in Dafny

This project models the decision logic of the Hipcall API client `hipcall_sdk`,
that is, everything the client decides without going over the network:

- **Configuration.** The base client rejects an empty API key. It keeps a
  non-empty base URL and otherwise uses `https://use.hipcall.com.tr`.
- **Default headers.** A bearer token built from the API key, and a JSON
  content type.
- **Status dispatch.** `handle_response` returns the body on 200 and 201.
  Any other status raises the error class that `EXCEPTION_MAP` gives it,
  or `HipcallAPIException` when the map has no entry.
- **Error messages.** The message each error class renders.
- **Endpoint URLs.** The five URL builders.
- **Requests.** The URL, query parameters and JSON body each operation
  sends, in the blocking `Client` and in the suspending `AsyncClient`,
  with each one's default argument values.
- **Async session.** The session lifecycle of `AsyncClient`.

Modules, one per source file or shared concern:

- `Wrappers`: Option and Result.
- `Json`: a decoded JSON value, plus the Python operations the client
  applies to it: subscripting, iteration, f-string formatting and `str.join`
  arguments.
- `Decimal`: Python's `str()` of an integer, used where an id or a status
  is formatted into a URL or a message. It comes with a parser that
  accepts exactly the texts `str()` writes, and lemmas prove that parsing
  reads back the number and that no other spelling is read.
- `Exceptions` (hipcall_sdk/exceptions.py): the error classes, their
  hierarchy as `isinstance` sees it, and their messages.
- `Base` (hipcall_sdk/client/base.py): the configuration, the headers,
  `EXCEPTION_MAP` and `handle_response`, and the URL builders. Each builder's
  contract says which endpoint `ParseUrl` reads back from the URL, so
  distinct endpoints never share a URL. The module also holds the default
  argument values of the abstract operation set.
- `Models` (hipcall_sdk/models.py): `TaskCreate` and the body that
  `model_dump(exclude_unset=True)` makes of it. The body holds the name and
  exactly the optional fields that were set. A field set explicitly to None
  is sent as null. Validating the body again gives back the same model.
- `Requests`: the request each operation sends, which both clients share.
  It also holds `Dispatch`: `response.json()` followed by `handle_response`,
  the only way a response reaches an operation's result.
- `Transport`: the session object as the clients use it. It has a header
  map, updated in place, and a closed flag.
- `SyncClient` (hipcall_sdk/client/client.py): the class `Client`. Its
  session headers are the transport's own headers updated with the
  default headers.
- `AsyncClient` (hipcall_sdk/client/async_client.py): the class
  `AsyncClient`. Its `session` is null until `__aenter__`, exists from
  then on, and is closed by `__aexit__`. Operations fail without an
  open session.

The network is a parameter. Each client operation takes
`send: Request -> Response`, sends the request it builds, and returns
`Dispatch` of the response. Its contract names that request. So every
result comes from `handle_response` of the answer to exactly that request.

The two clients disagree on the default sort of the call list. `Client`
sorts by `started_at.desc` (client.py:35). The abstract signature and
`AsyncClient` sort by `started_at.asc` (base.py:129, async_client.py:43).
The model keeps each client's own default: see `SyncClient.DefaultListings`
and `AsyncClient.ScopedCallList`.

Two further details of the code are kept. `sort` is always sent, even
when no filter `q` is given. The blocking client's session keeps whatever
headers the transport library starts it with, and the default headers are
merged over those.

## Model

| member | source | states |
|---|---|---|
| Base.NewConfig | hipcall_sdk/client/base.py:43-48 | Construction fails exactly when the API key is empty. Otherwise the key is kept, and the base URL is the given one when it is non-empty and the default address when it is None or "". |
| Base.DefaultHeaders | hipcall_sdk/client/base.py:50-58 | The headers have exactly the keys Authorization and Content-Type. Authorization is "Bearer " followed by the API key, and Content-Type is application/json. |
| Base.DefaultHeadersInjective | hipcall_sdk/client/base.py:55-56 | Different API keys give different headers: the key can be read back from the token. |
| Base.HandleResponse | hipcall_sdk/client/base.py:60-73 | Success exactly for 200 and 201, with the content unchanged. Otherwise the error carries the status and the content unchanged. It is BadRequest iff 400, Unauthorized iff 401, NotFound iff 404, Unprocessable iff 422, and the generic error for every other status. |
| Base.HandleResponseRaisesApiErrors | hipcall_sdk/client/base.py:23-28 | Every non-success status raises an instance of the generic error (500 and 503 raise the generic class itself), so catching it catches them all. |
| Base.CallDetailUrl | hipcall_sdk/client/base.py:75-81 | The URL starts with the base URL and reads back as the call-detail endpoint of exactly this call id. |
| Base.CallListUrl | hipcall_sdk/client/base.py:83-88 | The URL starts with the base URL and reads back as the call-list endpoint. |
| Base.CallAndBridgeUrl | hipcall_sdk/client/base.py:90-96 | The URL starts with the base URL and reads back as the call-and-bridge endpoint of exactly this user id. The id is read only as `str` writes it (no leading zeros, no "-0"), so by `Base.ParseUrlExact` the URL is base + "/api/v3/users/" + str(user_id) + "/call". |
| Base.TaskListUrl | hipcall_sdk/client/base.py:98-103 | The URL starts with the base URL and reads back as the task-list endpoint. |
| Base.TaskDetailUrl | hipcall_sdk/client/base.py:105-111 | The URL starts with the base URL and reads back as the task-detail endpoint of exactly this task id. By `Base.ParseUrlExact` the URL is base + "/api/v3/tasks/" + str(task_id). |
| Base.ParseUrlExact | hipcall_sdk/client/base.py:75-111 | Any URL that reads back as an endpoint is exactly the URL its builder writes for it: no other spelling of a path or an id is accepted. |
| Base.EndpointUrlInjective | hipcall_sdk/client/base.py:75-111 | Two endpoints, or one endpoint with two different ids, never have the same URL. |
| Decimal.IntRoundTrip | hipcall_sdk/client/base.py:96 | Formatting an integer id with str() and parsing it back gives the same id. |
| Decimal.ParseIntCanonical | hipcall_sdk/client/base.py:111 | An accepted text is exactly str() of the value it reads: str() is the only spelling of an id. |
| Exceptions.CatchGenericCatchesAll | hipcall_sdk/exceptions.py:10-25 | Following each class's base class, every error class is an instance of HipcallAPIException. A specific class catches only itself, and no two classes are instances of each other. |
| Exceptions.Message | hipcall_sdk/exceptions.py:1-22 | Unauthorized and NotFound give their fixed texts. The generic message always renders. The BadRequest message renders exactly when content["errors"]["detail"] exists. Its Unprocessable branch is the corrected one, reading the errors with `.items()`; lines 25-30 as written are `Exceptions.UnprocessableMessageAsWritten`. |
| Exceptions.GenericMessageCarriesStatus | hipcall_sdk/exceptions.py:6-7 | The generic message is the prefix, then the status in decimal (recoverable by parsing), then ", Content: #" and the rendered content. |
| Exceptions.BadRequestShowsDetail | hipcall_sdk/exceptions.py:10-12 | For any content whose errors.detail is a string, whatever else the content holds, the message is "Bad request: " followed by that detail verbatim. |
| Exceptions.FixedMessagesIgnoreFields | hipcall_sdk/exceptions.py:15-22 | Two Unauthorized errors, or two NotFound errors, render the same message whatever their status and content. |
| Exceptions.UnprocessableTextAppend | hipcall_sdk/exceptions.py:27-30 | With no entries the message is the bare prefix. A single entry renders as "field: messages " after the prefix. Each further entry appends " | " and its text, so entries appear in order. |
| Exceptions.UnprocessableMessageOfDict | hipcall_sdk/exceptions.py:25-30 | For any content whose "errors" is a dict of field errors, whatever else it holds, the message (corrected to iterate `.items()`) lists every field with its joined messages, in entry order. |
| Exceptions.ItemsEntriesOfDict | hipcall_sdk/exceptions.py:28 | Reading a dict of field errors through `.items()` yields exactly its fields and message lists, in order. |
| Exceptions.IterEntriesOfPairList | hipcall_sdk/exceptions.py:27-29 | The code as written reads field errors correctly when they arrive as a list of [field, messages] pairs. |
| Exceptions.UnprocessableMessageAsWritten | hipcall_sdk/exceptions.py:25-30 | The message as written fails with a KeyError or TypeError when content has no "errors" entry. |
| Exceptions.UnprocessableMessageOfPairList | hipcall_sdk/exceptions.py:25-30 | As written, for any content whose "errors" is a list of [field, messages] pairs, the message renders as the prefix followed by every field with its joined messages, in order. |
| Exceptions.DictErrorsBreakAsWritten | hipcall_sdk/exceptions.py:27-29 | As written, the dict {"name": ["can't be blank"]} makes rendering fail, because the key "name" does not unpack into two values. |
| Exceptions.DictErrorsRenderCorrected | hipcall_sdk/exceptions.py:25-30 | The corrected message renders that dict as "name: can't be blank ". |
| Exceptions.TwoLetterKeyAsWritten | hipcall_sdk/exceptions.py:27-29 | As written, a two-letter key such as "id" shows its two letters ("i: d ") instead of its messages. |
| Models.Dump | hipcall_sdk/client/client.py:74 | `task.model_dump(exclude_unset=True)`: a JSON object that starts with the name. With `Models.DumpHoldsSetFields` and `Models.DumpKeysExact` it holds exactly the name and the set fields, each once. `due_date` is sent as text, the corrected behaviour (see Findings). |
| Models.Reload | hipcall_sdk/models.py:91-101 | Validating a body as a TaskCreate again. A body it accepts is an object whose "name" is the task's name; by `Models.DumpRoundTrip` it inverts `Models.Dump`. |
| Models.DumpKeysExact | hipcall_sdk/client/client.py:74 | The dumped body has no key besides "name" and the nine optional field names, and no key appears twice. |
| Models.DumpHoldsSetFields | hipcall_sdk/client/client.py:74 | The dumped task body holds the name. It holds each optional field exactly when that field was set, with the value it was set to. |
| Models.DumpRoundTrip | hipcall_sdk/models.py:91-101 | Validating the dumped body again gives back the same TaskCreate, with the same fields set and unset. |
| Models.EncodeDumpAsWritten | hipcall_sdk/client/client.py:74 | As written, the body cannot be encoded exactly when `due_date` holds a datetime. Every other dump encodes and reloads to the same task. |
| Models.DueDateNotSentAsWritten | hipcall_sdk/client/async_client.py:85-86 | As written, a task with a due date yields no body, so create_task fails before sending. |
| Models.DueDateSentCorrected | hipcall_sdk/models.py:99 | Corrected, the due date is sent as its text and validates back into the same task. |
| Models.NameOnlyDump | hipcall_sdk/client/async_client.py:85 | A task with only the name set dumps to {"name": ...} alone. Unset fields are left out, not sent as null. |
| Requests.ListParams | hipcall_sdk/client/client.py:38-40 | The query always has limit, offset and sort, exactly as given. It has q exactly when q is truthy (None and "" are omitted), and no other key. |
| Requests.CallDetailRequest | hipcall_sdk/client/client.py:24-26 | get_call sends a GET to the call-detail URL of the id, with the date as its only parameter and no body. |
| Requests.CallListRequest | hipcall_sdk/client/client.py:37-41 | get_calls sends a GET to the call-list URL with the list query and no body. |
| Requests.BridgeBody | hipcall_sdk/client/client.py:52 | The call-and-bridge body has exactly the keys callee_number and ring_user_first, holding the given values. |
| Requests.CallAndBridgeRequest | hipcall_sdk/client/client.py:51-53 | call_and_bridge sends a POST to the user's call URL with that body and no parameters. |
| Requests.TaskListRequest | hipcall_sdk/client/client.py:64-68 | get_tasks sends a GET to the task-list URL with the list query and no body. |
| Requests.CreateTaskRequest | hipcall_sdk/client/client.py:73-74 | create_task sends a POST to the task-list URL, the same one get_tasks lists from. Its body is the dumped task, which validates back into the same task. |
| Requests.TaskDetailRequest | hipcall_sdk/client/client.py:79-80 | get_task sends a GET to the task-detail URL of the id, with no parameters and no body. |
| Requests.Dispatch | hipcall_sdk/client/client.py:41-42 | A body that is not JSON fails before any status check. Otherwise the result succeeds exactly on 200/201 with the decoded body, and every other status gives the error of handle_response. |
| Requests.ListQueriesAgree | hipcall_sdk/client/client.py:57-67 | The call list and the task list send the same query shape to different URLs. |
| Transport.Session.constructor | hipcall_sdk/client/async_client.py:23 | A new session has the given headers and is open. |
| Transport.Session.UpdateHeaders | hipcall_sdk/client/client.py:21 | Updating the headers makes the given keys take their new values and keeps every other header. |
| Transport.Session.Close | hipcall_sdk/client/async_client.py:28 | Closing marks the session closed and leaves its headers alone. |
| SyncClient.Client.constructor | hipcall_sdk/client/client.py:18-21 | The client keeps its configuration and a fresh open session. The session headers are the transport's own, updated with the default headers. |
| SyncClient.NewClient | hipcall_sdk/client/client.py:18-21 | Client(api_key, base_url) fails exactly on an empty key, before any session exists. Otherwise the client has the configuration NewConfig describes and the session headers above. |
| SyncClient.SessionHeadersCarryCredentials | hipcall_sdk/client/client.py:20-21 | The session sends the bearer token and the JSON content type whatever the transport started with. The transport's other headers stay unchanged. |
| SyncClient.Client.GetCall | hipcall_sdk/client/client.py:23-28 | The result is Dispatch of the response to the call-detail request built with the session's headers. |
| SyncClient.Client.GetCalls | hipcall_sdk/client/client.py:30-43 | The result is Dispatch of the response to the call-list request. Defaults are limit 10, offset 0, no q and sort started_at.desc. |
| SyncClient.Client.CallAndBridge | hipcall_sdk/client/client.py:45-55 | The result is Dispatch of the response to the call-and-bridge request. ring_user_first defaults to true. |
| SyncClient.Client.GetTasks | hipcall_sdk/client/client.py:57-70 | The result is Dispatch of the response to the task-list request. Defaults are limit 10, offset 0, no q and sort id.asc. |
| SyncClient.Client.CreateTask | hipcall_sdk/client/client.py:72-76 | The result is Dispatch of the response to the create-task request. |
| SyncClient.Client.GetTask | hipcall_sdk/client/client.py:78-82 | The result is Dispatch of the response to the task-detail request. |
| SyncClient.DefaultListings | hipcall_sdk/client/client.py:30-35 | With every argument left out, get_calls sends limit 10, offset 0, no q and sort started_at.desc. get_tasks sends the same with sort id.asc. |
| AsyncClient.AsyncClient.constructor | hipcall_sdk/client/async_client.py:18-20 | After construction there is no session. |
| AsyncClient.NewAsyncClient | hipcall_sdk/client/async_client.py:18-20 | AsyncClient(api_key, base_url) fails exactly on an empty key. Otherwise it has the configuration NewConfig describes and no session. |
| AsyncClient.AsyncClient.Enter | hipcall_sdk/client/async_client.py:22-24 | Entering creates a fresh open session with exactly the default headers and returns the client itself. |
| AsyncClient.AsyncClient.Exit | hipcall_sdk/client/async_client.py:26-28 | Leaving closes the session if there is one and changes nothing if there is none. The session stays in place. |
| AsyncClient.AsyncClient.Send | hipcall_sdk/client/async_client.py:33-35 | Without a session the call fails with NoSession. On a closed session it fails with SessionClosed. Otherwise the result is Dispatch of the response. |
| AsyncClient.AsyncClient.GetCall | hipcall_sdk/client/async_client.py:30-36 | It fails without an open session. Otherwise the result is Dispatch of the response to the call-detail request built with the session's headers. |
| AsyncClient.AsyncClient.GetCalls | hipcall_sdk/client/async_client.py:38-52 | Same as GetCall, for the call-list request. Defaults are limit 10, offset 0, no q and sort started_at.asc. |
| AsyncClient.AsyncClient.CallAndBridge | hipcall_sdk/client/async_client.py:54-65 | Same as GetCall, for the call-and-bridge request. ring_user_first defaults to true. |
| AsyncClient.AsyncClient.GetTasks | hipcall_sdk/client/async_client.py:67-81 | Same as GetCall, for the task-list request. Defaults are limit 10, offset 0, no q and sort id.asc. |
| AsyncClient.AsyncClient.CreateTask | hipcall_sdk/client/async_client.py:83-89 | Same as GetCall, for the create-task request (only the set fields, posted to the task-list URL). |
| AsyncClient.AsyncClient.GetTask | hipcall_sdk/client/async_client.py:91-96 | Same as GetCall, for the task-detail request. |
| AsyncClient.ScopedCallList | hipcall_sdk/client/base.py:124-129 | A call before entering fails with NoSession, and one after leaving fails with SessionClosed. Inside the scope the call sends the default headers and the abstract defaults: limit 10, offset 0, no q, started_at.asc. |

## Left out

- Network I/O. The session's get and post, connection handling, and the
  suspension and scheduling of the async client are outside the model.
  The exchange is the parameter `send`.
- JSON decoding. `response.json()` is a library call. A response carries
  either the decoded value or "not JSON". JSON floating-point numbers are
  not modelled.
- Repeated keys in a JSON object. Python's decoder keeps the last value of
  a repeated key, while `Json.Get` finds the first.
- Building the result models (`CallListResponse(**data)` and the others).
  That is pydantic validation. An operation's result is the mapping
  `handle_response` returns, and validation errors of the result are not
  modelled.
- The response records of hipcall_sdk/models.py. They have no behaviour of
  their own. Only `TaskCreate` is modelled.
- Python's repr of dicts and other non-string values in messages. This is
  the function parameter `repr`.
- The transport's own initial session headers. These are the parameter
  `transportHeaders` of `SyncClient.Client`.
- hipcall_sdk/constants.py is not part of this model. The default address
  `https://use.hipcall.com.tr` is the value the tests expect.
- API keys that are not strings. The key is typed `str`, so a None key
  (which the source also rejects) is not modelled.
- Ids that are not integers in `get_call_and_bridge_url` and
  `get_task_detail_url`. The ids are typed int.
- `due_date` is carried as its ISO text. The datetime value itself is not
  modelled. As written, create_task with a due date raises TypeError
  before anything is sent (see Findings). The client operations model the
  corrected body.
- Header names are compared exactly. The transports compare them without
  regard to case, so a starting "content-type" header would be replaced
  by "Content-Type". `SyncClient.SessionHeadersCarryCredentials` keeps
  such a header as a separate entry.
- The exception arguments of `__aexit__` are ignored, as in the source.
  It returns None, so exceptions propagate.

## Findings

| source | as written | input that shows it | evidently intended | confidence | as-written member | corrected member |
|---|---|---|---|---|---|---|
| hipcall_sdk/exceptions.py:27-29 | `for k, v in self.content["errors"]` iterates the dict itself, which yields its keys, and unpacks each key string into two values | content `{"errors": {"name": ["can't be blank"]}}`: str() raises ValueError instead of giving a message. With the key "id" the message shows "i: d " | iterate `self.content["errors"].items()`, so each field is shown with its joined messages | not executed; high, since the API sends field errors as a dict from field to messages | Exceptions.DictErrorsBreakAsWritten | Exceptions.UnprocessableMessageOfDict |
| hipcall_sdk/models.py:99 | `model_dump(exclude_unset=True)` keeps `due_date` a datetime object, and the transport encodes `json=` with `json.dumps`, which rejects datetimes (client.py:74) | a TaskCreate with `due_date` set to a datetime: create_task raises TypeError and sends nothing (async_client.py:85-86 alike) | dump with `mode="json"`, so the due date is sent as ISO text | not executed; high, since `json.dumps` has no encoder for datetime | Models.DueDateNotSentAsWritten | Models.DueDateSentCorrected |
