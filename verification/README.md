# ws_nado_rpc: a Dafny model of its JSON-RPC 2.0 correlation core

ws_nado_rpc runs JSON-RPC 2.0 in both directions over one websocket. Both
peers can call the other, and both match answers to pending calls by id.

- **The Python server** (`__init__.py`):
  - keeps a registry of handlers, filled by `@jsonrpc_method`;
  - keeps a table of calls awaiting the browser's answer, filled by `@callback(id)`;
  - classifies every inbound message in `on_message`: parse error, unclassifiable, request or response;
  - replies with `Request.answer` and `Request.error`;
  - calls browser functions through `ClientCall`;
  - prunes its call table every few seconds.
- **The browser script** (`templates/ws_nado_rpc.js`):
  - sends requests through `rpc_send` and the generated `server.<name>` stubs;
  - keeps the `pool` of calls awaiting the server's answer;
  - routes responses to callback objects and requests to global functions in `ws_onmessage`;
  - answers with `req_answer` and `req_answer_error`;
  - prunes `pool` on a timer.

The model has five files:

| file | what it holds |
|---|---|
| `json.dfy` | Decoded JSON values (`Json.Json`), Python truthiness (`PyTruthy`), JavaScript truthiness (`JsTruthy`), the two response envelopes (`Wire`), and the age-based pruning both peers share (`Tables.DropOlder`). |
| `rpc_errors.dfy` | The error-code table, keyed by the decimal text of each code as in the source, with a proof that the decimal rendering is injective. |
| `server.dfy` | The server. `Server.Dispatch` is a pure specification of one `on_message` call. `Server.Connection` is a class whose methods update the registry, the call table, the sent messages and the calls into application code, each proved against that specification. |
| `client.dfy` | The browser. `Client.Receive` specifies one `ws_onmessage` call. `Client.Client` holds `pool` and the sent messages. Callback objects are a class, because page code sets `success`/`error`/`finally` on them after the stub returns. |
| `interop.dfy` | Lemmas that compose the two peers: what a browser stub call becomes on the server, what a server `ClientCall` becomes in the browser, and what each peer's answers do to the other's pending calls. |

Things the model takes as parameters:

- **Decoding:** every inbound message arrives already decoded, as an `Option<Json>`; `None` means the text did not parse.
- **Ids:** uuids come in as `freshId`.
- **Clocks:** the time comes in as `now`.
- **Application code:** handler and continuation bodies are not modelled. Their observable behaviour is a `Server.Behaviour` value (returns, or raises) passed to the dispatcher. Calls into application or page code are recorded as events.

The model follows the code where it departs from the natural reading of the protocol:

- **A continuation that raises keeps its entry.** The entry is deleted only after the continuation returns. A KeyError from the continuation is swallowed together with the lookup's own KeyError. Any other exception escapes (`__init__.py:193-197`).
- **The server reaper uses a strict comparison.** An entry registered at second T is still present when the reaper runs at T+300 (`__init__.py:218-223`).
- **The browser cleanup drops entries after 30000 ms.** The comment beside it says five minutes (`templates/ws_nado_rpc.js:113-117`).
- **Params the server cannot pass are dropped silently.** If `params` is a float, a boolean or null, the handler is not called and no reply is sent (`__init__.py:179-187`). A single stub argument with a fractional part (such as `1.5`) therefore never reaches the server's handler. An integral number below 10^21 in magnitude, such as `2.0`, does reach it, because it travels as the integer `2`. From 10^21 on, `JSON.stringify` writes exponent form (`1e+21`), which Python decodes as a float, so the call is dropped.
- **A falsy result is dropped.** A response whose `result` and `error` are both false but not both null (for example `result: 0`) never reaches its continuation on the server. A `result: null` answer draws a "Method not found" reply. In the browser, a response whose result is false matches neither branch.
- **Malformed messages raise on the server.** A decoded message that is not an object makes `on_message` raise. So does a request whose method is a non-empty list or object, which Python cannot hash (an empty one is false, so the message is ignored when `result` and `error` are false too, and otherwise takes the response branch). An unhashable id raises only in the response branch, where it is looked up in the call table; the unclassifiable and request branches just echo it.
- **Unknown ids throw in the browser.** A response whose id is not in `pool` throws before any callback runs.
- **The two peers shape arguments differently.** The server's `ClientCall` always sends `params` as a list. A browser stub sends a single argument bare, so the server spreads a single array argument and turns a single object argument into keywords.

## Model

| member | source | states |
|---|---|---|
| Tables.DropOlder | __init__.py:218-226 | The kept entries are exactly those whose stamp is not older than the limit, with their values unchanged and no new keys. |
| RpcErrors.StrInjective | __init__.py:111 | Two codes with the same decimal text are equal, so a lookup by `str(code)` finds the entry of exactly one code. |
| RpcErrors.DigitsInjective | __init__.py:111 | Two naturals with the same decimal digits are equal. |
| RpcErrors.DigitsShape | __init__.py:111 | The decimal text of a natural is non-empty and starts with a digit, and it is one character long exactly for numbers below ten. |
| RpcErrors.TableKeys | __init__.py:65-72 | The six keys of the table are the decimal texts of -32700, -32600, -32601, -32602, -32603 and -32000. |
| RpcErrors.DefaultMessage | __init__.py:65-72 | A default message exists exactly for the six standard codes, and each code gets its own text ("Parse error", …, "Server error"). |
| Server.IsSuccessIsKeyPresence | __init__.py:54-62 | A response counts as a success exactly when it has a `result` member, whatever that member's value. |
| Server.ErrorMessage | __init__.py:109-118 | A reply exists exactly when a message is given or the code is in the table (otherwise KeyError). The reply echoes the id and carries the code and the given or default message. It carries `stack` exactly when the server runs in debug mode and the stack is non-empty. |
| Server.ShapeArgs | __init__.py:171-187 | A dict becomes keyword arguments, a list becomes positional arguments, an int or str becomes one positional argument. The handler is not called exactly for a float, a bool or null. |
| Server.Classify | __init__.py:135-192 | Undecodable text, a non-object, and an object with `method`, `result` and `error` all null are recognised as such. A true `method` means a request. A false `method` with a true `result` or `error` means a response. |
| Server.RequestEffect | __init__.py:161-190 | A request never touches the call table. It sends at most one reply, calls at most one handler, and sends nothing when an exception escapes. |
| Server.ResponseEffect | __init__.py:192-197 | A response sends nothing and only ever removes one entry. The removed entry is the one under the response's id, and only after its continuation was called once, with the response, and returned. |
| Server.Dispatch | __init__.py:126-197 | One message sends at most one reply and makes at most one call into application code. It never adds to or alters the call table, and removes an entry only as a response to that entry's id whose continuation returned. |
| Server.StaleKeys | __init__.py:219-223 | The keys collected are exactly those of the entries older than the limit, each listed once. |
| Server.Connection.constructor | __init__.py:9-15 | The registry and the call table start empty. |
| Server.Connection.JsonrpcMethod | __init__.py:18-20 | Registers the function under its name, replacing any earlier handler of that name, and returns the function unchanged. |
| Server.Connection.Callback | __init__.py:43-50 | Records the continuation with its registration second under the id, replacing any earlier entry. Nothing else changes. |
| Server.Connection.Call | __init__.py:87-95 | Sends one request whose params are the argument list, and returns the fresh id it carries. |
| Server.Connection.Answer | __init__.py:104-107 | Sends one success response echoing the id. |
| Server.Connection.Error | __init__.py:109-118 | Sends the reply `ErrorMessage` describes, or raises and sends nothing when it has none. |
| Server.Connection.OnMessage | __init__.py:126-197 | The replies sent, the calls into application code, the new call table and whether an exception escaped are those of `Dispatch`. The registry is unchanged. |
| Server.Connection.OnRequest | __init__.py:161-190 | The request branch does what `RequestEffect` describes. |
| Server.Connection.OnResponse | __init__.py:192-197 | The response branch does what `ResponseEffect` describes. |
| Server.Connection.ClearCallMap | __init__.py:213-226 | Afterwards the call table holds exactly the entries registered no more than 300 seconds before, unchanged. |
| Server.ParseErrorReply | __init__.py:135-140 | Undecodable text draws exactly one "Parse error" (-32700) reply with a null id, and nothing else happens. |
| Server.UnclassifiableReply | __init__.py:153-159 | A message with no `method`, `result` or `error` draws one "Method not found" (-32601) reply echoing its id. |
| Server.UnknownMethodReply | __init__.py:161-169 | A request for an unregistered method draws one "Method not found" reply echoing its id, and no handler runs. |
| Server.RegisteredMethodCall | __init__.py:171-190 | A request for a registered method calls that handler once with the shaped params, or not at all. Only a raising handler draws a reply: a "Server error" (-32000), with the traceback exactly when the server runs in debug mode. The call table is unchanged. |
| Server.ServerErrorReply | __init__.py:188-189 | A raising handler's reply is code -32000 with "Server error", plus the traceback as `stack` exactly when the server runs in debug mode and the traceback is non-empty. |
| Server.AbsentParamsPassNothing | __init__.py:171 | Absent params mean the handler gets no extra arguments. |
| Server.ResponseResolvesPendingCall | __init__.py:192-195 | A response to a pending id calls its continuation once, with the response and its success flag, then removes the entry. No reply is sent. |
| Server.RaisingContinuationKeepsEntry | __init__.py:193-197 | When the continuation raises, the entry stays. A KeyError is swallowed and any other exception escapes. |
| Server.UnmatchedResponseIgnored | __init__.py:192-197 | A response to an id that is not pending changes nothing and draws no reply. Only an unhashable id makes an exception escape. |
| Server.FalsyMessageIgnored | __init__.py:153-192 | A message whose `method`, `result` and `error` are all false, but not all null, is dropped without a reply. |
| Server.NonObjectEscapes | __init__.py:142 | A decoded message that is not an object makes `on_message` raise. Nothing is sent and nothing changes. |
| Server.DispatcherCodesAreKnown | __init__.py:139-189 | The codes `on_message` replies with (-32700, -32601, -32000) all have default messages, so those replies never raise. |
| Server.CallbackThenSuccess | __init__.py:43-50 | Registering a continuation, then receiving a true result for its id, calls it once with success and removes only that entry. |
| Server.CallbackThenError | __init__.py:43-50 | The same with a true error: the continuation is told the call failed. |
| Server.ReaperBoundary | __init__.py:218-223 | An entry registered at second t survives a reaper run at `now` exactly while `now <= t + 300`. |
| Client.RequestMessage | templates/ws_nado_rpc.js:14-29 | The request carries the version, name and id. It has a `params` member exactly when there are arguments: the bare argument when there is one, the list when there are several. |
| Client.Classify | templates/ws_nado_rpc.js:50-76 | A true `jsonrpc` and `id` with a true `result` or `error` means a response. A request additionally needs a true `method`. Anything else (but null) matches neither branch. |
| Client.Routed | templates/ws_nado_rpc.js:55-69 | `success` fires exactly when it is set and the result is true. `error` fires exactly when it is set and the error is true. `finally` fires exactly when it is set, and last. Each fires at most once, `success` before `error`, and nothing else fires. |
| Client.JsNumber | templates/ws_nado_rpc.js:30 | A JavaScript number reaches the other peer as an integer exactly when it is integral and below 10^21 in magnitude, with the same value, and otherwise as the same float. |
| Client.ArgumentList | templates/ws_nado_rpc.js:78-95 | The request id comes first, or null. The params follow: none when false, spread when an array, one argument otherwise. |
| Client.ResponseEffect | templates/ws_nado_rpc.js:53-73 | It throws exactly when the response's id is not in `pool`, and then fires nothing and leaves `pool` unchanged. Otherwise it removes exactly the entry under that id, after routing that entry's callbacks. Nothing else in `pool` changes. |
| Client.RequestEffect | templates/ws_nado_rpc.js:76-97 | A request never touches `pool`, never throws, and calls at most one global function. |
| Client.Receive | templates/ws_nado_rpc.js:50-98 | One message never adds to or alters `pool`. It removes an entry only as a response to that entry's id, after routing that entry's callbacks. |
| Client.CollectArguments | templates/ws_nado_rpc.js:40-43 | The copied list equals the arguments. |
| Client.Callback.constructor | templates/ws_nado_rpc.js:44 | A new callback object has no member set. |
| Client.Client.constructor | templates/ws_nado_rpc.js:2-4 | `pool` starts empty and no message has been sent. |
| Client.Client.RpcSend | templates/ws_nado_rpc.js:14-36 | Records the callback and the call time under the fresh id, and sends `RequestMessage` under the same id. |
| Client.Client.Stub | templates/ws_nado_rpc.js:38-48 | Returns a new, empty callback object, records it under the fresh id and sends the arguments. |
| Client.Client.OnMessage | templates/ws_nado_rpc.js:50-98 | The page calls, the new `pool` and whether it threw are those of `Receive`. Nothing is sent. |
| Client.Client.OnResponse | templates/ws_nado_rpc.js:53-73 | The response branch does what `ResponseEffect` describes. |
| Client.Client.OnRequest | templates/ws_nado_rpc.js:76-97 | The request branch does what `RequestEffect` describes. |
| Client.Client.ReqAnswer | templates/ws_nado_rpc.js:100-104 | Sends one success response echoing the id. `pool` is unchanged. |
| Client.Client.ReqAnswerError | templates/ws_nado_rpc.js:106-110 | Sends one error response echoing the id. `pool` is unchanged. |
| Client.Client.CleanupTick | templates/ws_nado_rpc.js:112-123 | Afterwards `pool` holds exactly the entries stamped no more than 30000 ms before, unchanged. |
| Client.ResponseRoutesThenDeletes | templates/ws_nado_rpc.js:53-73 | A response to a pending id routes that entry's callbacks and removes only that entry. |
| Client.UnknownResponseThrows | templates/ws_nado_rpc.js:56 | A response to an id not in `pool` throws before any callback runs and leaves `pool` unchanged. |
| Client.RequestCallsGlobal | templates/ws_nado_rpc.js:76-96 | A request for a defined global function calls it once, with the request id first. |
| Client.UndefinedGlobalIgnored | templates/ws_nado_rpc.js:77 | A request for an undefined function is ignored. |
| Client.HeaderlessMessageIgnored | templates/ws_nado_rpc.js:53-76 | A message without a true `jsonrpc` or `id` changes nothing. |
| Client.CleanupBoundary | templates/ws_nado_rpc.js:117-121 | An entry stamped at t survives a cleanup at `now` exactly while `now <= t + 30000`. |
| Interop.StubParamsOnServer | templates/ws_nado_rpc.js:20-29 | No stub arguments reach the handler as no arguments. Several reach it as positionals. A single argument is shaped by its own type. |
| Interop.StubArgumentsKeptIff | __init__.py:171-187 | For browser arguments whose floats are values a JavaScript number travels as (a fraction, or 10^21 or more in magnitude), a stub's arguments reach a Python handler intact if and only if the stub was not given exactly one argument that is not an integer or a string. |
| Interop.SingleArrayArgumentIsSpread | __init__.py:183-184 | `server.f([x, y])` runs the handler as `f(req, x, y)`. |
| Interop.SingleFloatArgumentIsDropped | __init__.py:179-187 | `server.f(x)` with one number that travels as a float (a fraction, or 10^21 or more in magnitude) runs no handler and draws no reply. |
| Interop.SingleNumberArgument | __init__.py:186-187 | `server.f(x)` with one JavaScript number runs the handler once as `f(req, n)` when `x` is the integer `n` and below 10^21 in magnitude (so `2.0` is delivered as `2`), and drops the call otherwise (`1.5`, `1e21`). |
| Interop.ServerCallReachesGlobal | __init__.py:87-95 | A server `ClientCall` runs the browser's global function with the request id followed by the arguments in order. |
| Interop.BrowserAnswerOnServer | templates/ws_nado_rpc.js:100-104 | A true browser answer resolves the pending server call. A null answer draws "Method not found". Any other false answer is dropped and the entry stays. |
| Interop.BrowserErrorOnServer | templates/ws_nado_rpc.js:106-110 | A true browser error resolves the pending server call with failure. |
| Interop.ServerAnswerInBrowser | __init__.py:104-107 | A server answer that is true in JavaScript's sense routes the callbacks and consumes the entry. Any other answer changes nothing. |
| Interop.ServerErrorInBrowser | __init__.py:109-118 | Every server error reply consumes the pending browser entry, and fires `error` with the error object exactly when `error` is set. |

## Left out

- The transport is not modelled: Tornado's `WebSocketHandler` plumbing, `open`, `write_message`, `ws.send`, the logging call and the `{% raw rpc_list %}` template rendering. Sent messages are a sequence of decoded values, and `name_list` is a constructor parameter.
- `RpcListHandler` and `JsHandler` are not modelled: they only serialise the registry's keys over HTTP.
- JSON text is not parsed or printed. Messages arrive as decoded values, and `JSON.stringify` dropping undefined members does not arise.
- `uuid1()`, `create_uuid()`, `time()` and `new Date()` become the parameters `freshId` and `now`. Ids are not proved unique, because `create_uuid` uses `Math.random`.
- `PeriodicCallback` and `setInterval` scheduling are left out: each reaper run is one method call at a given `now`.
- `format_exc()` is not modelled: the traceback is an opaque string carried by `Server.Behaviour`.
- Handler, continuation and page callback bodies are not modelled. A handler or continuation either returns or raises. A handler with the wrong arity raises TypeError, which is the same as raising. A page callback that throws, or code that changes `pool` or the tables during a call, is left out.
- Server.Connection.Callback: the decorator's return value (the `wrapped` closure) is not returned. Calling the continuation is recorded as a `ContinuationCalled` event with the `is_success` flag.
- Server.Connection.Answer: the Python default `data=200` is left to the caller, who passes `Server.DefaultAnswer`.
- Server.Connection: the registry and the call table are process-wide dictionaries shared by every connection. The model holds them in one connection object.
- Server.Dispatch: ids and method names are matched as strings only. Python's `1 == 1.0 == True` key equality for numeric ids is not modelled. The ids this code generates are always strings.
- Client.Receive: JavaScript's coercion of a non-string id or method name to a property key is not modelled, nor are keys inherited from the prototype (`pool["toString"]`, `window["alert"]`). Only string names listed in `globals` count as defined functions.
- Client.Client.CleanupTick and Server.Connection.ClearCallMap: iteration order is not modelled. The result is stated as the set of surviving entries.
- Server.Connection.Call: any `name` is assumed to reach `__getattr__`. In Python, `__getattr__` runs only for attributes the `ClientCall` object lacks. So `call.ws` returns the websocket stored by `__init__`, dunder names and other `object` attributes resolve normally, and a browser function with such a name cannot be called this way.
- Client.RequestMessage: browser values are taken as they travel, a JavaScript number being the value `Client.JsNumber` gives for it. `RequestMessage` itself rewrites no `Float`, at the top level or inside arrays and objects. So a `Float` with an integral value below 10^21 stands for no browser number.
- Interop.StubArgumentsKeptIff: stated only for arguments whose `Float`s are values `Client.JsNumber` gives (`Interop.WireFloats`).
- Integers are unbounded on both sides. JavaScript's double-precision numbers are not modelled beyond the `Float` case.
