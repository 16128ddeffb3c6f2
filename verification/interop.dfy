/** What happens when the two peers talk to each other: a browser stub call
    dispatched by the server, a server `ClientCall` handled by the browser,
    and the answers each peer sends back to the other's pending calls. */
module Interop {
  import opened Json
  import Wire
  import Server
  import Client

  /** The handler receives exactly the arguments the browser passed to the
      stub (no arguments at all counting as an empty keyword set). */
  predicate ArgumentsKept(params: seq<Json>, args: Server.Args) {
    args == Server.Positional(params) || (params == [] && args == Server.Keyword(map[]))
  }

  /** How the server shapes the params of a stub call: nothing for no
      argument, the list for several, and for a single argument whatever
      its own type dictates. */
  lemma StubParamsOnServer(name: string, params: seq<Json>, id: string)
    ensures var args := Server.ShapeArgs(Server.ParamsOf(Client.RequestMessage(name, params, id).fields));
      && (|params| == 0 ==> args == Server.Keyword(map[]))
      && (|params| == 1 ==> args == Server.ShapeArgs(params[0]))
      && (|params| >= 2 ==> args == Server.Positional(params))
  {
  }

  /** Every float among `params` is one a browser number travels as
      (`Client.JsNumber`): a number with a fraction, or one of 10^21 or
      more in magnitude. */
  predicate WireFloats(params: seq<Json>) {
    forall i :: 0 <= i < |params| && params[i].Float? ==> Client.JsNumber(params[i].f) == params[i]
  }

  /** A stub call reaches a Python handler with its arguments intact exactly
      when it does not pass a single argument other than an integer or a
      string: one array is spread into several arguments, one object
      becomes keywords, and one float, boolean or null is never
      delivered. */
  lemma StubArgumentsKeptIff(name: string, params: seq<Json>, id: string)
    requires WireFloats(params)
    ensures ArgumentsKept(params, Server.ShapeArgs(Server.ParamsOf(Client.RequestMessage(name, params, id).fields)))
        <==> !(|params| == 1 && !params[0].Int? && !params[0].Str?)
  {
    StubParamsOnServer(name, params, id);
  }

  /** `server.f([x, y])` runs the Python handler as `f(req, x, y)`. */
  lemma SingleArrayArgumentIsSpread(handlers: map<string, Server.Function>, calls: map<string, Server.PendingCall>,
                                    debug: bool, name: string, id: string, x: Json, y: Json)
    requires name in handlers && name != ""
    ensures var message := Client.RequestMessage(name, [Arr([x, y])], id);
      Server.Dispatch(handlers, calls, debug, Some(message), Server.Returns).events
        == [Server.HandlerCalled(handlers[name], Str(id), Server.Positional([x, y]))]
  {
    var message := Client.RequestMessage(name, [Arr([x, y])], id);
    Server.RegisteredMethodCall(handlers, calls, debug, message.fields, Server.Returns);
  }

  /** `server.f(1.5)` (or `server.f(1e21)`, which travels as a float) is
      dropped by the server: no handler runs and no
      answer comes back, so only the cleanup tick ever removes the call from
      `pool`. */
  lemma SingleFloatArgumentIsDropped(handlers: map<string, Server.Function>, calls: map<string, Server.PendingCall>,
                                     debug: bool, name: string, id: string, f: real, callee: Server.Behaviour)
    requires name in handlers && name != ""
    requires Client.JsNumber(f) == Float(f)
    ensures var message := Client.RequestMessage(name, [Float(f)], id);
      Server.Dispatch(handlers, calls, debug, Some(message), callee) == Server.Effect([], [], calls, false)
  {
    var message := Client.RequestMessage(name, [Float(f)], id);
    Server.RegisteredMethodCall(handlers, calls, debug, message.fields, callee);
  }

  /** `server.f(x)` with one JavaScript number: an integral `x` below 10^21
      in magnitude (`2`, or `2.0`, which is the same number) reaches the
      handler as the integer argument `f(req, 2)`; any other is dropped. */
  lemma SingleNumberArgument(handlers: map<string, Server.Function>, calls: map<string, Server.PendingCall>,
                             debug: bool, name: string, id: string, x: real)
    requires name in handlers && name != ""
    ensures var message := Client.RequestMessage(name, [Client.JsNumber(x)], id);
      var e := Server.Dispatch(handlers, calls, debug, Some(message), Server.Returns);
      var plain := x.Floor as real == x && -Client.ExponentForm < x < Client.ExponentForm;
      && (plain ==>
            e == Server.Effect([], [Server.HandlerCalled(handlers[name], Str(id), Server.Positional([Int(x.Floor)]))], calls, false))
      && (!plain ==> e == Server.Effect([], [], calls, false))
  {
    var message := Client.RequestMessage(name, [Client.JsNumber(x)], id);
    Server.RegisteredMethodCall(handlers, calls, debug, message.fields, Server.Returns);
  }

  /** A server-side `ClientCall` reaches a function defined on `window` with
      the request id first and the arguments, in order, after it. */
  lemma ServerCallReachesGlobal(pool: map<string, Client.PoolEntry>, globals: set<string>,
                                name: string, args: seq<Json>, id: string)
    requires name != "" && id != "" && name in globals
    ensures Client.Receive(pool, globals, Some(Server.CallMessage(name, args, id)))
         == Client.Effect([Client.GlobalCalled(name, [Str(id)] + args)], pool, false)
  {
    var fields := Server.CallMessage(name, args, id).fields;
    Client.RequestCallsGlobal(pool, globals, fields, name);
  }

  /** A browser `req_answer` to a pending server call: a true result runs
      the continuation once with success and consumes the entry; a null
      result draws a "Method not found" reply instead; any other false
      result (0, "", [], {}, false) is dropped, so the continuation never
      runs and only the reaper removes the entry. */
  lemma BrowserAnswerOnServer(handlers: map<string, Server.Function>, calls: map<string, Server.PendingCall>,
                              debug: bool, id: string, data: Json)
    requires id in calls
    ensures var message := Wire.SuccessResponse(Str(id), data);
      var e := Server.Dispatch(handlers, calls, debug, Some(message), Server.Returns);
      && (PyTruthy(data) ==>
            e == Server.Effect([], [Server.ContinuationCalled(calls[id].continuation, message, true)], calls - {id}, false))
      && (data == Null ==>
            e == Server.Effect([Server.PlainError(Str(id), -32601, "Method not found")], [], calls, false))
      && (!PyTruthy(data) && data != Null ==> e == Server.Effect([], [], calls, false))
  {
    var message := Wire.SuccessResponse(Str(id), data);
    var fields := message.fields;
    if PyTruthy(data) {
      Server.ResponseResolvesPendingCall(handlers, calls, debug, fields, id);
    } else if data == Null {
      Server.UnclassifiableReply(handlers, calls, debug, fields, Server.Returns);
    } else {
      Server.FalsyMessageIgnored(handlers, calls, debug, fields, Server.Returns);
    }
  }

  /** A browser `req_answer_error` with a true error object runs the
      continuation once, telling it the call failed. */
  lemma BrowserErrorOnServer(handlers: map<string, Server.Function>, calls: map<string, Server.PendingCall>,
                             debug: bool, id: string, error: Json)
    requires id in calls && PyTruthy(error)
    ensures var message := Wire.ErrorResponse(Str(id), error);
      Server.Dispatch(handlers, calls, debug, Some(message), Server.Returns)
        == Server.Effect([], [Server.ContinuationCalled(calls[id].continuation, message, false)], calls - {id}, false)
  {
    Server.ResponseResolvesPendingCall(handlers, calls, debug, Wire.ErrorResponse(Str(id), error).fields, id);
  }

  /** A server `answer(data)` to a pending browser call: a result true in
      JavaScript's sense fires the callback and consumes the entry;
      otherwise the message matches neither branch and the entry stays. */
  lemma ServerAnswerInBrowser(pool: map<string, Client.PoolEntry>, globals: set<string>, id: string, data: Json)
    requires id != "" && id in pool
    ensures var message := Wire.SuccessResponse(Str(id), data);
      var e := Client.Receive(pool, globals, Some(message));
      && (JsTruthy(data) ==> e == Client.Effect(Client.Routed(pool[id].callback, message.fields), pool - {id}, false))
      && (JsTruthy(data) ==> (Client.SuccessCalled(pool[id].callback, data) in e.events <==> pool[id].callback.onSuccess))
      && (!JsTruthy(data) ==> e == Client.Effect([], pool, false))
  {
    var message := Wire.SuccessResponse(Str(id), data);
    if JsTruthy(data) {
      Client.ResponseRoutesThenDeletes(pool, globals, message.fields, id);
    } else {
      assert Client.Classify(Some(message)) == Client.Neither;
    }
  }

  /** Every server `error(...)` reply to a pending browser call fires the
      callback's `error` member (when set) with the error object and
      consumes the entry: an error object is always true in JavaScript. */
  lemma ServerErrorInBrowser(pool: map<string, Client.PoolEntry>, globals: set<string>, id: string,
                             code: int, message: Option<string>, stack: Option<string>, debug: bool)
    requires id != "" && id in pool
    requires Server.ErrorMessage(Str(id), code, message, stack, debug).Some?
    ensures var reply := Server.ErrorMessage(Str(id), code, message, stack, debug).value;
      var e := Client.Receive(pool, globals, Some(reply));
      && e.pool == pool - {id} && !e.threw
      && (Client.ErrorCalled(pool[id].callback, reply.fields["error"]) in e.events <==> pool[id].callback.onError)
  {
    var reply := Server.ErrorMessage(Str(id), code, message, stack, debug).value;
    Client.ResponseRoutesThenDeletes(pool, globals, reply.fields, id);
  }
}
