/** The Python server: the method registry filled by `@jsonrpc_method`, the
    table of calls awaiting a client's answer filled by `@callback(id)`, the
    `on_message` dispatcher that classifies every inbound message, the
    `Request.answer`/`Request.error` replies, the `ClientCall` proxy and the
    periodic reaper of the call table. */
module Server {
  import opened Json
  import Wire
  import Tables
  import RpcErrors

  /** A Python function object: its `__name__` and an identity that tells
      two function objects with the same name apart. */
  datatype Function = Function(name: string, ident: nat)

  /** An `rpc_call_map` entry: the continuation registered by `callback(id)`
      and the whole second (`int(time())`) at which it was registered. */
  datatype PendingCall = PendingCall(continuation: Function, time: int)

  /** How a handler receives the arguments that follow its request object. */
  datatype Args =
    | Keyword(kwargs: map<string, Json>)
    | Positional(args: seq<Json>)
    | NotCalled

  /** What a handler or a continuation did when the dispatcher called it:
      returned, or raised (a KeyError or another exception) with the
      traceback text `format_exc()` renders for it. */
  datatype Behaviour = Returns | Raises(isKeyError: bool, traceback: string)

  /** A call into application code made by the dispatcher. */
  datatype Event =
    | HandlerCalled(handler: Function, requestId: Json, args: Args)
    | ContinuationCalled(continuation: Function, response: Json, success: bool)

  /** The kinds of inbound message that `on_message` tells apart. */
  datatype Kind = Unparsable | NotAnObject | Unclassifiable | Request | Response | Ignored

  /** What one inbound message does: the replies written back, the calls
      into application code, the call table afterwards, and whether an
      exception escaped `on_message`. */
  datatype Effect = Effect(sent: seq<Json>, events: seq<Event>, calls: map<string, PendingCall>, escaped: bool)

  /** Entries older than this many seconds are dropped by the reaper. */
  const MaxAge := 300

  /** The result `Request.answer()` sends when given none. */
  const DefaultAnswer := Int(200)

  /** `is_success(data)`: whether indexing the response by `"result"`
      succeeds rather than raising KeyError. */
  predicate IsSuccess(data: map<string, Json>) {
    "result" in data
  }

  lemma IsSuccessIsKeyPresence(data: map<string, Json>, v: Json)
    ensures IsSuccess(data["result" := v])
    ensures !IsSuccess(data - {"result"})
  {
  }

  /** The request `ClientCall.__getattr__(name)(*args)` writes: the
      arguments always travel as a list. */
  function CallMessage(name: string, args: seq<Json>, id: string): Json {
    Obj(map["jsonrpc" := Wire.Version, "method" := Str(name), "params" := Arr(args), "id" := Str(id)])
  }

  /** Python's truth value of the `stack` argument (None and "" are false). */
  predicate HasText(stack: Option<string>) {
    stack.Some? && stack.value != ""
  }

  /** The reply `Request.error(code, message, stack)` writes for request
      `id`, or None where Python raises KeyError because no message was
      given and `code` is not in the table. */
  function ErrorMessage(id: Json, code: int, message: Option<string>, stack: Option<string>, debug: bool): (r: Option<Json>)
    ensures r.Some? <==> message.Some? || RpcErrors.DefaultMessage(code).Some?
    ensures r.Some? ==>
      && r.value.Obj? && r.value.fields.Keys == {"jsonrpc", "error", "id"}
      && r.value.fields["jsonrpc"] == Str("2.0") && r.value.fields["id"] == id
      && r.value.fields["error"].Obj?
    ensures r.Some? ==>
      var e := r.value.fields["error"].fields;
      && e.Keys <= {"code", "message", "stack"}
      && "code" in e && e["code"] == Int(code)
      && "message" in e
      && e["message"] == Str(if message.Some? then message.value else RpcErrors.DefaultMessage(code).value)
      && ("stack" in e <==> debug && HasText(stack))
      && ("stack" in e ==> e["stack"] == Str(stack.value))
  {
    var text := if message.Some? then message else RpcErrors.DefaultMessage(code);
    if text.None? then None
    else
      var data := map["code" := Int(code), "message" := Str(text.value)];
      var data' := if debug && HasText(stack) then data["stack" := Str(stack.value)] else data;
      Some(Wire.ErrorResponse(id, Obj(data')))
  }

  /** How `on_message` passes `params` (already defaulted to `{}` when the
      member is absent) to a handler: a dict as keywords, a list spread as
      positionals, an int or a str as one positional; for any other type
      (float, bool, None) the handler is not called at all. */
  function ShapeArgs(params: Json): (a: Args)
    ensures a.Keyword? <==> params.Obj?
    ensures a.Keyword? ==> a.kwargs == params.fields
    ensures params.Arr? ==> a == Positional(params.items)
    ensures params.Int? || params.Str? ==> a == Positional([params])
    ensures a.NotCalled? <==> params.Null? || params.Bool? || params.Float?
  {
    match params
    case Obj(kwargs) => Keyword(kwargs)
    case Arr(items) => Positional(items)
    case Int(_) => Positional([params])
    case Str(_) => Positional([params])
    case _ => NotCalled
  }

  /** `data.get('params', {})` */
  function ParamsOf(fields: map<string, Json>): Json {
    if "params" in fields then fields["params"] else Obj(map[])
  }

  /** The branch `on_message` takes for a decoded message (None: the text
      did not decode). */
  function Classify(parsed: Option<Json>): (k: Kind)
    ensures k == Unparsable <==> parsed.None?
    ensures k == NotAnObject <==> parsed.Some? && !parsed.value.Obj?
    ensures k in {Unclassifiable, Request, Response, Ignored} ==> parsed.Some? && parsed.value.Obj?
    ensures parsed.Some? && parsed.value.Obj? ==>
      var f := parsed.value.fields;
      && (k == Unclassifiable <==> Member(f, "method") == Member(f, "result") == Member(f, "error") == Null)
      && (k == Request <==> PyTruthy(Member(f, "method")))
      && (k == Response <==> !PyTruthy(Member(f, "method")) && (PyTruthy(Member(f, "result")) || PyTruthy(Member(f, "error"))))
  {
    match parsed
    case None => Unparsable
    case Some(data) =>
      if !data.Obj? then NotAnObject
      else
        var methodName, result, error := Member(data.fields, "method"), Member(data.fields, "result"), Member(data.fields, "error");
        if methodName == Null && result == Null && error == Null then Unclassifiable
        else if PyTruthy(methodName) then Request
        else if PyTruthy(result) || PyTruthy(error) then Response
        else Ignored
  }

  /** An effect that only writes `reply`, if there is one. */
  function Reply(calls: map<string, PendingCall>, reply: Option<Json>): (e: Effect)
    ensures e.calls == calls && e.events == [] && |e.sent| <= 1 && (e.escaped ==> e.sent == [])
  {
    if reply.Some? then Effect([reply.value], [], calls, false) else Effect([], [], calls, true)
  }

  function RequestEffect(handlers: map<string, Function>, calls: map<string, PendingCall>, debug: bool,
                         fields: map<string, Json>, callee: Behaviour): (e: Effect)
    ensures e.calls == calls && |e.sent| <= 1 && |e.events| <= 1 && (e.escaped ==> e.sent == [])
  {
    var id, methodName := Member(fields, "id"), Member(fields, "method");
    if !Hashable(methodName) then Effect([], [], calls, true)
    else if !(methodName.Str? && methodName.s in handlers) then
      Reply(calls, ErrorMessage(id, RpcErrors.MethodNotFound, None, None, debug))
    else
      var args := ShapeArgs(ParamsOf(fields));
      if args.NotCalled? then Effect([], [], calls, false)
      else
        var called := [HandlerCalled(handlers[methodName.s], id, args)];
        if callee.Raises? then
          var reply := Reply(calls, ErrorMessage(id, RpcErrors.ServerError, None, Some(callee.traceback), debug));
          reply.(events := called)
        else Effect([], called, calls, false)
  }

  function ResponseEffect(calls: map<string, PendingCall>, fields: map<string, Json>, callee: Behaviour): (e: Effect)
    ensures e.sent == [] && |e.events| <= 1
    ensures e.calls.Keys <= calls.Keys
    ensures forall k :: k in e.calls ==> e.calls[k] == calls[k]
    ensures forall k :: k in calls && k !in e.calls ==>
      && Member(fields, "id") == Str(k) && callee == Returns
      && e.events == [ContinuationCalled(calls[k].continuation, Obj(fields), IsSuccess(fields))]
  {
    var id := Member(fields, "id");
    if !Hashable(id) then Effect([], [], calls, true)
    else if !(id.Str? && id.s in calls) then Effect([], [], calls, false)
    else
      var called := [ContinuationCalled(calls[id.s].continuation, Obj(fields), IsSuccess(fields))];
      match callee
      case Returns => Effect([], called, calls - {id.s}, false)
      case Raises(isKeyError, _) => Effect([], called, calls, !isKeyError)
  }

  /** What `on_message` does with one decoded message, given the registry,
      the call table, the debug flag and how the code it calls behaves. */
  function Dispatch(handlers: map<string, Function>, calls: map<string, PendingCall>, debug: bool,
                    parsed: Option<Json>, callee: Behaviour): (e: Effect)
    ensures |e.sent| <= 1 && |e.events| <= 1
    ensures e.escaped ==> e.sent == []
    ensures e.calls.Keys <= calls.Keys
    ensures forall k :: k in e.calls ==> e.calls[k] == calls[k]
    ensures forall k :: k in calls && k !in e.calls ==>
      && parsed.Some? && parsed.value.Obj? && Member(parsed.value.fields, "id") == Str(k)
      && callee == Returns
      && e.events == [ContinuationCalled(calls[k].continuation, parsed.value, IsSuccess(parsed.value.fields))]
  {
    match Classify(parsed)
    case Unparsable => Reply(calls, ErrorMessage(Null, RpcErrors.ParseError, None, None, debug))
    case NotAnObject => Effect([], [], calls, true)
    case Unclassifiable =>
      Reply(calls, ErrorMessage(Member(parsed.value.fields, "id"), RpcErrors.MethodNotFound, None, None, debug))
    case Request => RequestEffect(handlers, calls, debug, parsed.value.fields, callee)
    case Response => ResponseEffect(calls, parsed.value.fields, callee)
    case Ignored => Effect([], [], calls, false)
  }

  /** The first loop of `clear_rpc_call_map`: the keys of the entries
      created before `limit`, each listed once. */
  method StaleKeys(calls: map<string, PendingCall>, limit: int) returns (keys: seq<string>)
    ensures forall k :: k in keys <==> k in calls && calls[k].time < limit
    ensures forall i, j :: 0 <= i < j < |keys| ==> keys[i] != keys[j]
  {
    keys := [];
    var todo := calls.Keys;
    while todo != {}
      invariant todo <= calls.Keys
      invariant forall k :: k in keys <==> k in calls && k !in todo && calls[k].time < limit
      invariant forall i, j :: 0 <= i < j < |keys| ==> keys[i] != keys[j]
      decreases todo
    {
      var k :| k in todo;
      if calls[k].time < limit {
        keys := keys + [k];
      }
      todo := todo - {k};
    }
  }

  /** One websocket connection together with the process-wide
      `rpc_request_map` and `rpc_call_map` it reads and updates. */
  class Connection {
    /** `rpc_request_map`: handler per method name. */
    var handlers: map<string, Function>
    /** `rpc_call_map`: continuation and creation time per request id. */
    var calls: map<string, PendingCall>
    /** Every message written to the peer, oldest first. */
    var sent: seq<Json>
    /** Every call into application code, oldest first. */
    var events: seq<Event>
    /** `application.debug` */
    const debug: bool

    constructor (debug: bool)
      ensures this.debug == debug
      ensures handlers == map[] && calls == map[] && sent == [] && events == []
    {
      this.debug := debug;
      handlers, calls, sent, events := map[], map[], [], [];
    }

    /** `@jsonrpc_method`: registers `fn` under its name, replacing any
        handler of that name, and gives `fn` back unchanged. */
    method JsonrpcMethod(fn: Function) returns (r: Function)
      modifies this
      ensures r == fn
      ensures handlers == old(handlers)[fn.name := fn]
      ensures calls == old(calls) && sent == old(sent) && events == old(events)
    {
      handlers := handlers[fn.name := fn];
      r := fn;
    }

    /** `@callback(id)` applied to `fn` at second `now`: the response to
        request `id` will call `fn(data, is_success(data))`. */
    method Callback(id: string, fn: Function, now: int)
      modifies this
      ensures calls == old(calls)[id := PendingCall(fn, now)]
      ensures handlers == old(handlers) && sent == old(sent) && events == old(events)
    {
      calls := calls[id := PendingCall(fn, now)];
    }

    /** `ClientCall(ws).<name>(*args)` with `freshId` for `str(uuid1())`:
        sends the request and returns its id. */
    method Call(name: string, args: seq<Json>, freshId: string) returns (id: string)
      modifies this
      ensures id == freshId
      ensures sent == old(sent) + [CallMessage(name, args, freshId)]
      ensures handlers == old(handlers) && calls == old(calls) && events == old(events)
    {
      id := freshId;
      sent := sent + [CallMessage(name, args, id)];
    }

    /** `Request(ws, id).answer(data)`; a caller that omits `data` passes
        `DefaultAnswer`. */
    method Answer(id: Json, data: Json)
      modifies this
      ensures sent == old(sent) + [Wire.SuccessResponse(id, data)]
      ensures handlers == old(handlers) && calls == old(calls) && events == old(events)
    {
      sent := sent + [Wire.SuccessResponse(id, data)];
    }

    /** `Request(ws, id).error(code, message, stack)`; `raised` tells that
        the default-message lookup raised KeyError and nothing was sent. */
    method Error(id: Json, code: int, message: Option<string>, stack: Option<string>) returns (raised: bool)
      modifies this
      ensures var reply := ErrorMessage(id, code, message, stack, debug);
        && raised == reply.None?
        && sent == old(sent) + (if reply.Some? then [reply.value] else [])
      ensures handlers == old(handlers) && calls == old(calls) && events == old(events)
    {
      var text: string;
      if message.None? {
        var default := RpcErrors.DefaultMessage(code);
        if default.None? {
          raised := true;
          return;
        }
        text := default.value;
      } else {
        text := message.value;
      }
      var data := map["code" := Int(code), "message" := Str(text)];
      if debug && stack.Some? && stack.value != "" {
        data := data["stack" := Str(stack.value)];
      }
      sent := sent + [Wire.ErrorResponse(id, Obj(data))];
      raised := false;
    }

    /** `on_message` for a message that decoded to `parsed` (None when
        `json.loads` raised ValueError); `callee` is how the handler or the
        continuation it calls behaves; `escaped` tells that an exception
        left `on_message`. */
    method OnMessage(parsed: Option<Json>, callee: Behaviour) returns (escaped: bool)
      modifies this
      ensures var e := Dispatch(old(handlers), old(calls), debug, parsed, callee);
        && sent == old(sent) + e.sent
        && events == old(events) + e.events
        && calls == e.calls
        && escaped == e.escaped
      ensures handlers == old(handlers)
    {
      escaped := false;
      if parsed.None? {
        assert Classify(parsed) == Unparsable;
        var _ := Error(Null, -32700, None, None);
        return;
      }
      var data := parsed.value;
      if !data.Obj? {
        // `data.get` raises AttributeError
        assert Classify(parsed) == NotAnObject;
        escaped := true;
        return;
      }
      var id := Member(data.fields, "id");
      var methodName := Member(data.fields, "method");
      var result := Member(data.fields, "result");
      var error := Member(data.fields, "error");

      if methodName == Null && result == Null && error == Null {
        assert Classify(parsed) == Unclassifiable;
        var _ := Error(id, -32601, None, None);
        return;
      }

      if PyTruthy(methodName) {
        assert Classify(parsed) == Request;
        escaped := OnRequest(data.fields, callee);
      } else if PyTruthy(result) || PyTruthy(error) {
        assert Classify(parsed) == Response;
        escaped := OnResponse(data.fields, callee);
      } else {
        assert Classify(parsed) == Ignored;
      }
    }

    /** The request branch of `on_message` (a message whose `method` is
        true). */
    method OnRequest(fields: map<string, Json>, callee: Behaviour) returns (escaped: bool)
      modifies this
      ensures var e := RequestEffect(old(handlers), old(calls), debug, fields, callee);
        && sent == old(sent) + e.sent
        && events == old(events) + e.events
        && calls == e.calls
        && escaped == e.escaped
      ensures handlers == old(handlers)
    {
      escaped := false;
      var id := Member(fields, "id");
      var methodName := Member(fields, "method");
      if !Hashable(methodName) {
        // `method not in rpc_request_map.keys()` raises TypeError
        escaped := true;
        return;
      }
      if !(methodName.Str? && methodName.s in handlers) {
        var _ := Error(id, -32601, None, None);
        return;
      }
      var params := if "params" in fields then fields["params"] else Obj(map[]);
      var handler := handlers[methodName.s];
      var args: Args;
      if params.Obj? {
        args := Keyword(params.fields);
      } else if params.Arr? {
        args := Positional(params.items);
      } else if params.Int? || params.Str? {
        args := Positional([params]);
      } else {
        return;
      }
      events := events + [HandlerCalled(handler, id, args)];
      if callee.Raises? {
        var _ := Error(id, -32000, None, Some(callee.traceback));
      }
    }

    /** The response branch of `on_message` (a message whose `method` is
        false and whose `result` or `error` is true). */
    method OnResponse(fields: map<string, Json>, callee: Behaviour) returns (escaped: bool)
      modifies this
      ensures var e := ResponseEffect(old(calls), fields, callee);
        && sent == old(sent) + e.sent
        && events == old(events) + e.events
        && calls == e.calls
        && escaped == e.escaped
      ensures handlers == old(handlers)
    {
      escaped := false;
      var id := Member(fields, "id");
      if !Hashable(id) {
        // `rpc_call_map[id]` raises TypeError
        escaped := true;
        return;
      }
      if id.Str? && id.s in calls {
        events := events + [ContinuationCalled(calls[id.s].continuation, Obj(fields), IsSuccess(fields))];
        match callee {
          case Returns =>
            calls := calls - {id.s};
          case Raises(isKeyError, _) =>
            // a KeyError raised by the continuation is caught with the lookup's
            escaped := !isKeyError;
        }
      }
    }

    /** `clear_rpc_call_map` run at second `now`: collects the stale keys,
        then deletes them. */
    method ClearCallMap(now: int)
      modifies this
      ensures calls == Tables.DropOlder(old(calls), (c: PendingCall) => c.time, now - MaxAge)
      ensures handlers == old(handlers) && sent == old(sent) && events == old(events)
    {
      var limit := now - 300;
      var keyForDel := StaleKeys(calls, limit);
      var i := 0;
      while i < |keyForDel|
        invariant 0 <= i <= |keyForDel|
        invariant calls.Keys <= old(calls).Keys
        invariant forall k :: k in calls ==> calls[k] == old(calls)[k]
        invariant forall k :: k in old(calls) ==> (k in calls <==> k !in keyForDel[..i])
        invariant handlers == old(handlers) && sent == old(sent) && events == old(events)
      {
        calls := calls - {keyForDel[i]};
        i := i + 1;
      }
      assert keyForDel[..i] == keyForDel;
      ghost var expected := Tables.DropOlder(old(calls), (c: PendingCall) => c.time, limit);
      assert calls.Keys == expected.Keys;
    }
  }

  /** An error reply without a stack: `{"code": code, "message": text}`. */
  function PlainError(id: Json, code: int, text: string): Json {
    Wire.ErrorResponse(id, Obj(map["code" := Int(code), "message" := Str(text)]))
  }

  /** Text that does not decode is answered with exactly one "Parse error"
      (-32700) reply whose id is null, and nothing else happens. */
  lemma ParseErrorReply(handlers: map<string, Function>, calls: map<string, PendingCall>, debug: bool, callee: Behaviour)
    ensures Dispatch(handlers, calls, debug, None, callee)
         == Effect([PlainError(Null, -32700, "Parse error")], [], calls, false)
  {
  }

  /** A message with none of `method`, `result`, `error` (or all null) is
      answered with "Method not found" (-32601) echoing its id. */
  lemma UnclassifiableReply(handlers: map<string, Function>, calls: map<string, PendingCall>, debug: bool,
                            fields: map<string, Json>, callee: Behaviour)
    requires Member(fields, "method") == Member(fields, "result") == Member(fields, "error") == Null
    ensures Dispatch(handlers, calls, debug, Some(Obj(fields)), callee)
         == Effect([PlainError(Member(fields, "id"), -32601, "Method not found")], [], calls, false)
  {
  }

  /** A request naming a method that is not registered is answered with
      "Method not found" echoing its id, and no handler runs. */
  lemma UnknownMethodReply(handlers: map<string, Function>, calls: map<string, PendingCall>, debug: bool,
                           fields: map<string, Json>, callee: Behaviour)
    requires PyTruthy(Member(fields, "method")) && Hashable(Member(fields, "method"))
    requires !(Member(fields, "method").Str? && Member(fields, "method").s in handlers)
    ensures Dispatch(handlers, calls, debug, Some(Obj(fields)), callee)
         == Effect([PlainError(Member(fields, "id"), -32601, "Method not found")], [], calls, false)
  {
  }

  /** A request for a registered method calls that method's handler with the
      params shaped by their type, or not at all; only a handler that raises
      draws a reply, "Server error" (-32000), which carries the traceback
      exactly when the server runs in debug mode and the traceback is not
      empty. The call table is left alone. */
  lemma RegisteredMethodCall(handlers: map<string, Function>, calls: map<string, PendingCall>, debug: bool,
                             fields: map<string, Json>, callee: Behaviour)
    requires Member(fields, "method").Str? && Member(fields, "method").s in handlers
    requires Member(fields, "method").s != ""
    ensures var e := Dispatch(handlers, calls, debug, Some(Obj(fields)), callee);
      var id, args := Member(fields, "id"), ShapeArgs(ParamsOf(fields));
      && e.calls == calls && !e.escaped
      && e.events == (if args.NotCalled? then [] else [HandlerCalled(handlers[Member(fields, "method").s], id, args)])
      && (args.NotCalled? || callee.Returns? ==> e.sent == [])
      && (!args.NotCalled? && callee.Raises? ==>
            e.sent == [Wire.ErrorResponse(id, Obj(map["code" := Int(-32000), "message" := Str("Server error")]
                                                   + if debug && callee.traceback != "" then map["stack" := Str(callee.traceback)] else map[]))])
  {
    assert Classify(Some(Obj(fields))) == Request;
    if callee.Raises? {
      ServerErrorReply(Member(fields, "id"), callee.traceback, debug);
    }
  }

  /** The "Server error" reply to a raising handler, written out. */
  lemma ServerErrorReply(id: Json, traceback: string, debug: bool)
    ensures ErrorMessage(id, -32000, None, Some(traceback), debug)
         == Some(Wire.ErrorResponse(id, Obj(map["code" := Int(-32000), "message" := Str("Server error")]
                                           + if debug && traceback != "" then map["stack" := Str(traceback)] else map[])))
  {
    var data := ErrorMessage(id, -32000, None, Some(traceback), debug).value.fields["error"].fields;
    assert data == map["code" := Int(-32000), "message" := Str("Server error")]
                 + if debug && traceback != "" then map["stack" := Str(traceback)] else map[];
  }

  /** Absent params are passed as no extra arguments at all. */
  lemma AbsentParamsPassNothing(fields: map<string, Json>)
    requires "params" !in fields
    ensures ShapeArgs(ParamsOf(fields)) == Keyword(map[])
  {
  }

  /** A response to a pending request calls its continuation once, with the
      whole response and `is_success` of it, and then removes the entry;
      nothing is written back. */
  lemma ResponseResolvesPendingCall(handlers: map<string, Function>, calls: map<string, PendingCall>, debug: bool,
                                    fields: map<string, Json>, k: string)
    requires !PyTruthy(Member(fields, "method"))
    requires PyTruthy(Member(fields, "result")) || PyTruthy(Member(fields, "error"))
    requires Member(fields, "id") == Str(k) && k in calls
    ensures Dispatch(handlers, calls, debug, Some(Obj(fields)), Returns)
         == Effect([], [ContinuationCalled(calls[k].continuation, Obj(fields), "result" in fields)], calls - {k}, false)
  {
    assert Classify(Some(Obj(fields))) == Response;
  }

  /** A response whose continuation raises leaves its entry in the table:
      a KeyError is swallowed, any other exception escapes. */
  lemma RaisingContinuationKeepsEntry(handlers: map<string, Function>, calls: map<string, PendingCall>, debug: bool,
                                      fields: map<string, Json>, k: string, isKeyError: bool, traceback: string)
    requires !PyTruthy(Member(fields, "method"))
    requires PyTruthy(Member(fields, "result")) || PyTruthy(Member(fields, "error"))
    requires Member(fields, "id") == Str(k) && k in calls
    ensures var e := Dispatch(handlers, calls, debug, Some(Obj(fields)), Raises(isKeyError, traceback));
      && e.calls == calls && e.sent == [] && e.escaped == !isKeyError
      && e.events == [ContinuationCalled(calls[k].continuation, Obj(fields), "result" in fields)]
  {
    assert Classify(Some(Obj(fields))) == Response;
  }

  /** A response whose id is not pending changes nothing and is not
      answered; only an id Python cannot hash makes an exception escape. */
  lemma UnmatchedResponseIgnored(handlers: map<string, Function>, calls: map<string, PendingCall>, debug: bool,
                                 fields: map<string, Json>, callee: Behaviour)
    requires !PyTruthy(Member(fields, "method"))
    requires PyTruthy(Member(fields, "result")) || PyTruthy(Member(fields, "error"))
    requires !(Member(fields, "id").Str? && Member(fields, "id").s in calls)
    ensures Dispatch(handlers, calls, debug, Some(Obj(fields)), callee)
         == Effect([], [], calls, !Hashable(Member(fields, "id")))
  {
    assert Classify(Some(Obj(fields))) == Response;
  }

  /** A message whose `method`, `result` and `error` are all false, but not
      all null, is dropped without a reply: in particular a response whose
      result is 0, "", [], {} or false never reaches its continuation. */
  lemma FalsyMessageIgnored(handlers: map<string, Function>, calls: map<string, PendingCall>, debug: bool,
                            fields: map<string, Json>, callee: Behaviour)
    requires !(Member(fields, "method") == Member(fields, "result") == Member(fields, "error") == Null)
    requires !PyTruthy(Member(fields, "method"))
    requires !PyTruthy(Member(fields, "result")) && !PyTruthy(Member(fields, "error"))
    ensures Dispatch(handlers, calls, debug, Some(Obj(fields)), callee) == Effect([], [], calls, false)
  {
  }

  /** A message that decodes to something other than an object makes
      `data.get` raise: nothing is sent and nothing changes. */
  lemma NonObjectEscapes(handlers: map<string, Function>, calls: map<string, PendingCall>, debug: bool,
                         data: Json, callee: Behaviour)
    requires !data.Obj?
    ensures Dispatch(handlers, calls, debug, Some(data), callee) == Effect([], [], calls, true)
  {
  }

  /** The error replies of `on_message` use codes from the table, so they
      never raise KeyError themselves. */
  lemma DispatcherCodesAreKnown()
    ensures RpcErrors.DefaultMessage(-32700).Some?
    ensures RpcErrors.DefaultMessage(-32601).Some?
    ensures RpcErrors.DefaultMessage(-32000).Some?
  {
  }

  /** Registering a continuation for `id` and then receiving a response to
      `id` that carries a true `result` calls the continuation once with
      success, and leaves no entry for `id`; every other entry keeps its
      value. */
  lemma CallbackThenSuccess(handlers: map<string, Function>, calls: map<string, PendingCall>, debug: bool,
                            id: string, fn: Function, now: int, result: Json)
    requires PyTruthy(result)
    ensures var table := calls[id := PendingCall(fn, now)];
      var e := Dispatch(handlers, table, debug, Some(Wire.SuccessResponse(Str(id), result)), Returns);
      && e.events == [ContinuationCalled(fn, Wire.SuccessResponse(Str(id), result), true)]
      && e.sent == [] && id !in e.calls
      && forall k :: k in calls && k != id ==> k in e.calls && e.calls[k] == calls[k]
  {
    var table := calls[id := PendingCall(fn, now)];
    var fields := map["jsonrpc" := Wire.Version, "result" := result, "id" := Str(id)];
    assert Wire.SuccessResponse(Str(id), result) == Obj(fields);
    ResponseResolvesPendingCall(handlers, table, debug, fields, id);
  }

  /** The same with an error response: the continuation is told failure. */
  lemma CallbackThenError(handlers: map<string, Function>, calls: map<string, PendingCall>, debug: bool,
                          id: string, fn: Function, now: int, error: Json)
    requires PyTruthy(error)
    ensures var table := calls[id := PendingCall(fn, now)];
      var e := Dispatch(handlers, table, debug, Some(Wire.ErrorResponse(Str(id), error)), Returns);
      && e.events == [ContinuationCalled(fn, Wire.ErrorResponse(Str(id), error), false)]
      && e.sent == [] && id !in e.calls
      && forall k :: k in calls && k != id ==> k in e.calls && e.calls[k] == calls[k]
  {
    var table := calls[id := PendingCall(fn, now)];
    var fields := map["jsonrpc" := Wire.Version, "error" := error, "id" := Str(id)];
    assert Wire.ErrorResponse(Str(id), error) == Obj(fields);
    ResponseResolvesPendingCall(handlers, table, debug, fields, id);
  }

  /** An entry registered at second `t` survives a reaper run at `now`
      exactly while `now <= t + 300`; the continuation is never called. */
  lemma ReaperBoundary(calls: map<string, PendingCall>, now: int, k: string)
    requires k in calls
    ensures var kept := Tables.DropOlder(calls, (c: PendingCall) => c.time, now - MaxAge);
      k in kept <==> now <= calls[k].time + 300
  {
  }
}
