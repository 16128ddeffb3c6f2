/** The browser side rendered from `templates/ws_nado_rpc.js`: `rpc_send`
    and the per-method stubs of `server`, the `pool` of calls awaiting the
    server's answer, `ws_onmessage` routing responses to callbacks and
    requests to global functions, the `req_answer` replies and the
    periodic cleanup of `pool`. */
module Client {
  import opened Json
  import Wire
  import Tables

  /** The callback object a stub returns. The caller may set its `success`,
      `error` and `finally` members after the call; each field tells whether
      that member is set (to a function) when a response arrives. */
  class Callback {
    var onSuccess: bool
    var onError: bool
    var onFinally: bool

    /** `{}` */
    constructor ()
      ensures !onSuccess && !onError && !onFinally
    {
      onSuccess, onError, onFinally := false, false, false;
    }
  }

  /** A `pool` entry: the callback object and the millisecond
      (`new Date().getTime()`) of the call. */
  datatype PoolEntry = PoolEntry(callback: Callback, time: int)

  /** A call into page code made by `ws_onmessage`. */
  datatype Event =
    | SuccessCalled(callback: Callback, result: Json)
    | ErrorCalled(callback: Callback, error: Json)
    | FinallyCalled(callback: Callback, data: Json)
    | GlobalCalled(name: string, args: seq<Json>)

  /** The branches of `ws_onmessage`. */
  datatype Kind = Unparsable | NullMessage | Response | Request | Neither

  /** What one inbound message does: the calls into page code, `pool`
      afterwards, and whether an exception left `ws_onmessage`. */
  datatype Effect = Effect(events: seq<Event>, pool: map<string, PoolEntry>, threw: bool)

  /** Entries older than this many milliseconds are dropped by the cleanup
      tick (30 seconds, although the comment beside it speaks of five
      minutes). */
  const MaxAgeMs := 30000

  /** The message `rpc_send(name, params, callback)` sends under `id`: no
      `params` member without arguments, the bare argument when there is
      one, the whole list when there are several. */
  function RequestMessage(name: string, params: seq<Json>, id: string): (m: Json)
    ensures m.Obj?
    ensures m.fields.Keys == {"jsonrpc", "method", "id"} + (if |params| > 0 then {"params"} else {})
    ensures m.fields["jsonrpc"] == Str("2.0") && m.fields["method"] == Str(name) && m.fields["id"] == Str(id)
    ensures |params| == 1 ==> m.fields["params"] == params[0]
    ensures |params| >= 2 ==> m.fields["params"] == Arr(params)
  {
    var data := map["jsonrpc" := Wire.Version, "method" := Str(name), "id" := Str(id)];
    if |params| == 0 then Obj(data)
    else if |params| == 1 then Obj(data["params" := params[0]])
    else Obj(data["params" := Arr(params)])
  }

  /** From this magnitude on, `JSON.stringify` writes a number in
      exponent form (`1e+21`). */
  const ExponentForm: real := 1_000_000_000_000_000_000_000.0

  /** A JavaScript number as it reaches the other peer: `JSON.stringify`
      writes an integral value below 10^21 in magnitude as plain digits,
      which a JSON decoder reads back as an integer; a fraction or an
      exponent makes it a float. Every number a browser sends is one of
      these values. */
  function JsNumber(x: real): (v: Json)
    ensures v.Int? || v.Float?
    ensures v.Int? <==> x.Floor as real == x && -ExponentForm < x < ExponentForm
    ensures v.Int? ==> v.i as real == x
    ensures v.Float? ==> v.f == x
  {
    if x.Floor as real == x && -ExponentForm < x < ExponentForm then Int(x.Floor) else Float(x)
  }

  /** The members `data.x` reads: none on anything but an object. */
  function MembersOf(data: Json): map<string, Json> {
    if data.Obj? then data.fields else map[]
  }

  /** The branch `ws_onmessage` takes for a decoded message (None: the text
      did not decode). */
  function Classify(parsed: Option<Json>): (k: Kind)
    ensures k == Unparsable <==> parsed.None?
    ensures k == NullMessage <==> parsed == Some(Null)
    ensures parsed.Some? ==>
      var f := MembersOf(parsed.value);
      var header := JsTruthy(Member(f, "jsonrpc")) && JsTruthy(Member(f, "id"));
      && (k == Response <==> parsed.value != Null && header && (JsTruthy(Member(f, "result")) || JsTruthy(Member(f, "error"))))
      && (k == Request ==> header && JsTruthy(Member(f, "method")))
      && (k == Neither <==> parsed.value != Null && !(header && (JsTruthy(Member(f, "result")) || JsTruthy(Member(f, "error")) || JsTruthy(Member(f, "method")))))
  {
    match parsed
    case None => Unparsable
    case Some(data) =>
      if data == Null then NullMessage
      else
        var f := MembersOf(data);
        var header := JsTruthy(Member(f, "jsonrpc")) && JsTruthy(Member(f, "id"));
        if header && (JsTruthy(Member(f, "result")) || JsTruthy(Member(f, "error"))) then Response
        else if header && JsTruthy(Member(f, "method")) then Request
        else Neither
  }

  /** The callbacks a response fires on `cb`, in order: `success(result)`
      when the result is true, `error(error)` when the error is true, and
      `finally(data)` always, each only if that member is set. */
  function Routed(cb: Callback, fields: map<string, Json>): (r: seq<Event>)
    reads cb
    ensures |r| <= 3
    ensures forall ev :: ev in r ==> !ev.GlobalCalled? && ev.callback == cb
    ensures SuccessCalled(cb, Member(fields, "result")) in r <==> cb.onSuccess && JsTruthy(Member(fields, "result"))
    ensures ErrorCalled(cb, Member(fields, "error")) in r <==> cb.onError && JsTruthy(Member(fields, "error"))
    ensures FinallyCalled(cb, Obj(fields)) in r <==> cb.onFinally
    ensures cb.onFinally ==> r[|r| - 1] == FinallyCalled(cb, Obj(fields))
    ensures forall i, j :: 0 <= i < j < |r| ==> r[i] != r[j]
    ensures forall i, j :: 0 <= i < |r| && 0 <= j < |r| && r[i].SuccessCalled? && r[j].ErrorCalled? ==> i < j
    ensures forall ev :: ev in r ==> ev in {SuccessCalled(cb, Member(fields, "result")), ErrorCalled(cb, Member(fields, "error")), FinallyCalled(cb, Obj(fields))}
  {
    var result, error := Member(fields, "result"), Member(fields, "error");
    (if JsTruthy(result) && cb.onSuccess then [SuccessCalled(cb, result)] else [])
    + (if JsTruthy(error) && cb.onError then [ErrorCalled(cb, error)] else [])
    + (if cb.onFinally then [FinallyCalled(cb, Obj(fields))] else [])
  }

  /** The arguments `ws_onmessage` applies a global function to: the
      request id (or null) first, then the params, which count as none when
      false, as themselves when an array and as a single argument
      otherwise. */
  function ArgumentList(id: Json, params: Json): (args: seq<Json>)
    ensures |args| >= 1
    ensures args[0] == if JsTruthy(id) then id else Null
    ensures !JsTruthy(params) ==> |args| == 1
    ensures params.Arr? ==> args[1..] == params.items
    ensures JsTruthy(params) && !params.Arr? ==> args[1..] == [params]
  {
    var rest := if !JsTruthy(params) then [] else if params.Arr? then params.items else [params];
    [if JsTruthy(id) then id else Null] + rest
  }

  /** The objects `pool` refers to. */
  function Callbacks(pool: map<string, PoolEntry>): set<Callback> {
    set e | e in pool.Values :: e.callback
  }

  /** The response branch of `ws_onmessage`. */
  function ResponseEffect(pool: map<string, PoolEntry>, fields: map<string, Json>): (e: Effect)
    reads Callbacks(pool)
    ensures e.pool.Keys <= pool.Keys
    ensures forall k :: k in e.pool ==> e.pool[k] == pool[k]
    ensures forall k :: k in pool && k !in e.pool ==>
      Member(fields, "id") == Str(k) && e.events == Routed(pool[k].callback, fields)
    ensures e.threw <==> !(Member(fields, "id").Str? && Member(fields, "id").s in pool)
    ensures e.threw ==> e.events == [] && e.pool == pool
    ensures !e.threw ==> e.pool == pool - {Member(fields, "id").s}
  {
    var id := Member(fields, "id");
    if id.Str? && id.s in pool then
      assert pool[id.s] in pool.Values;
      Effect(Routed(pool[id.s].callback, fields), pool - {id.s}, false)
    else Effect([], pool, true)
  }

  /** The request branch of `ws_onmessage`. */
  function RequestEffect(pool: map<string, PoolEntry>, globals: set<string>, fields: map<string, Json>): (e: Effect)
    ensures e.pool == pool && !e.threw && |e.events| <= 1
  {
    var name := Member(fields, "method");
    if name.Str? && name.s in globals then
      Effect([GlobalCalled(name.s, ArgumentList(Member(fields, "id"), Member(fields, "params")))], pool, false)
    else Effect([], pool, false)
  }

  /** What `ws_onmessage` does with one decoded message, given `pool` and the
      names of the functions defined on `window`. */
  function Receive(pool: map<string, PoolEntry>, globals: set<string>, parsed: Option<Json>): (e: Effect)
    reads Callbacks(pool)
    ensures e.pool.Keys <= pool.Keys
    ensures forall k :: k in e.pool ==> e.pool[k] == pool[k]
    ensures forall k :: k in pool && k !in e.pool ==>
      && Classify(parsed) == Response && Member(MembersOf(parsed.value), "id") == Str(k)
      && e.events == Routed(pool[k].callback, MembersOf(parsed.value))
  {
    match Classify(parsed)
    case Unparsable => Effect([], pool, true)
    case NullMessage => Effect([], pool, true)
    case Neither => Effect([], pool, false)
    case Response => ResponseEffect(pool, MembersOf(parsed.value))
    case Request => RequestEffect(pool, globals, MembersOf(parsed.value))
  }

  /** The loop of a stub that copies `arguments` into `params`. */
  method CollectArguments(arguments: seq<Json>) returns (params: seq<Json>)
    ensures params == arguments
  {
    params := [];
    var i := 0;
    while i < |arguments|
      invariant 0 <= i <= |arguments|
      invariant params == arguments[..i]
    {
      params := params + [arguments[i]];
      i := i + 1;
    }
  }

  /** The page's connection to the server with the script's global state. */
  class Client {
    /** `pool`: callback object and call time per request id. */
    var pool: map<string, PoolEntry>
    /** Every message sent to the server, oldest first. */
    var sent: seq<Json>
    /** Every call into page code, oldest first. */
    var events: seq<Event>
    /** `name_list`: the server's method names rendered into the script. */
    const nameList: seq<string>
    /** The names of the functions defined on `window`. */
    const globals: set<string>

    constructor (nameList: seq<string>, globals: set<string>)
      ensures this.nameList == nameList && this.globals == globals
      ensures pool == map[] && sent == [] && events == []
    {
      this.nameList, this.globals := nameList, globals;
      pool, sent, events := map[], [], [];
    }

    /** `rpc_send(name, params, callback)` at millisecond `now`, with
        `freshId` for `create_uuid()`: records the callback under the id and
        sends the request under the same id. */
    method RpcSend(name: string, params: seq<Json>, callback: Callback, freshId: string, now: int)
      modifies this
      ensures sent == old(sent) + [RequestMessage(name, params, freshId)]
      ensures pool == old(pool)[freshId := PoolEntry(callback, now)]
      ensures events == old(events)
    {
      var data := map["jsonrpc" := Str("2.0"), "method" := Str(name), "id" := Str(freshId)];
      if |params| > 0 {
        if |params| == 1 {
          data := data["params" := params[0]];
        } else {
          data := data["params" := Arr(params)];
        }
      }
      pool := pool[freshId := PoolEntry(callback, now)];
      sent := sent + [Obj(data)];
    }

    /** `server[name](...arguments)`: copies the arguments, sends them with
        a new, empty callback object and returns that object. */
    method Stub(name: string, arguments: seq<Json>, freshId: string, now: int) returns (callback: Callback)
      requires name in nameList
      modifies this
      ensures fresh(callback) && !callback.onSuccess && !callback.onError && !callback.onFinally
      ensures sent == old(sent) + [RequestMessage(name, arguments, freshId)]
      ensures pool == old(pool)[freshId := PoolEntry(callback, now)]
      ensures events == old(events)
    {
      var params := CollectArguments(arguments);
      callback := new Callback();
      RpcSend(name, params, callback, freshId, now);
    }

    /** `ws_onmessage` for a message that decoded to `parsed` (None when
        `JSON.parse` threw); `threw` tells that an exception left it. */
    method OnMessage(parsed: Option<Json>) returns (threw: bool)
      modifies this
      ensures var e := Receive(old(pool), globals, parsed);
        && events == old(events) + e.events
        && pool == e.pool
        && threw == e.threw
      ensures sent == old(sent)
    {
      threw := false;
      if parsed.None? {
        // `JSON.parse` throws SyntaxError
        threw := true;
        return;
      }
      var data := parsed.value;
      if data == Null {
        // `data.jsonrpc` on null throws TypeError
        threw := true;
        return;
      }
      var fields := MembersOf(data);
      var jsonrpc, id := Member(fields, "jsonrpc"), Member(fields, "id");
      var result, error, name := Member(fields, "result"), Member(fields, "error"), Member(fields, "method");
      if JsTruthy(jsonrpc) && JsTruthy(id) && (JsTruthy(result) || JsTruthy(error)) {
        assert Classify(parsed) == Response;
        threw := OnResponse(fields);
      } else if JsTruthy(jsonrpc) && JsTruthy(id) && JsTruthy(name) {
        assert Classify(parsed) == Request;
        OnRequest(fields);
      } else {
        assert Classify(parsed) == Neither;
      }
    }

    /** The response branch of `ws_onmessage` (`jsonrpc`, `id` and `result`
        or `error` are true). */
    method OnResponse(fields: map<string, Json>) returns (threw: bool)
      modifies this
      ensures var e := ResponseEffect(old(pool), fields);
        && events == old(events) + e.events
        && pool == e.pool
        && threw == e.threw
      ensures sent == old(sent)
    {
      threw := false;
      var id, result, error := Member(fields, "id"), Member(fields, "result"), Member(fields, "error");
      if !(id.Str? && id.s in pool) {
        // `pool[data.id].callback` on undefined throws TypeError
        threw := true;
        return;
      }
      var cb := pool[id.s].callback;
      assert pool[id.s] in pool.Values;
      var fired: seq<Event> := [];
      if JsTruthy(result) {
        if cb.onSuccess {
          fired := fired + [SuccessCalled(cb, result)];
        }
      }
      if JsTruthy(error) {
        if cb.onError {
          fired := fired + [ErrorCalled(cb, error)];
        }
      }
      if cb.onFinally {
        fired := fired + [FinallyCalled(cb, Obj(fields))];
      }
      assert fired == Routed(cb, fields);
      events := events + fired;
      pool := pool - {id.s};
    }

    /** The request branch of `ws_onmessage` (`jsonrpc`, `id` and `method`
        are true, `result` and `error` are not). */
    method OnRequest(fields: map<string, Json>)
      modifies this
      ensures var e := RequestEffect(old(pool), globals, fields);
        && events == old(events) + e.events
        && pool == e.pool
      ensures sent == old(sent)
    {
      var id, name := Member(fields, "id"), Member(fields, "method");
      if !(name.Str? && name.s in globals) {
        return;
      }
      var params: seq<Json> := [];
      var given := Member(fields, "params");
      if JsTruthy(given) {
        if given.Arr? {
          params := given.items;
        } else {
          params := [given];
        }
      }
      var first := Null;
      if JsTruthy(id) {
        first := id;
      }
      params := [first] + params;
      events := events + [GlobalCalled(name.s, params)];
    }

    /** `req_answer(id, data)` */
    method ReqAnswer(id: Json, data: Json)
      modifies this
      ensures sent == old(sent) + [Wire.SuccessResponse(id, data)]
      ensures pool == old(pool) && events == old(events)
    {
      sent := sent + [Wire.SuccessResponse(id, data)];
    }

    /** `req_answer_error(id, error)` */
    method ReqAnswerError(id: Json, error: Json)
      modifies this
      ensures sent == old(sent) + [Wire.ErrorResponse(id, error)]
      ensures pool == old(pool) && events == old(events)
    {
      sent := sent + [Wire.ErrorResponse(id, error)];
    }

    /** One run of the `setInterval` cleanup at millisecond `now`: deletes
        every entry older than 30000 ms while walking `pool`. */
    method CleanupTick(now: int)
      modifies this
      ensures pool == Tables.DropOlder(old(pool), (e: PoolEntry) => e.time, now - MaxAgeMs)
      ensures sent == old(sent) && events == old(events)
    {
      var limit := now - 30000;
      var keys := pool.Keys;
      while keys != {}
        invariant keys <= old(pool).Keys
        invariant pool.Keys <= old(pool).Keys
        invariant forall k :: k in pool ==> pool[k] == old(pool)[k]
        invariant forall k :: k in keys ==> k in pool
        invariant forall k :: k in old(pool) && k !in keys ==> (k in pool <==> old(pool)[k].time >= limit)
        invariant sent == old(sent) && events == old(events)
        decreases keys
      {
        var key :| key in keys;
        if pool[key].time < limit {
          pool := pool - {key};
        }
        keys := keys - {key};
      }
      ghost var expected := Tables.DropOlder(old(pool), (e: PoolEntry) => e.time, limit);
      assert pool.Keys == expected.Keys;
    }
  }

  /** A response to a pending call fires the callback's members as `Routed`
      says and then deletes the entry; nothing else in `pool` changes. */
  lemma ResponseRoutesThenDeletes(pool: map<string, PoolEntry>, globals: set<string>, fields: map<string, Json>, k: string)
    requires JsTruthy(Member(fields, "jsonrpc"))
    requires Member(fields, "id") == Str(k) && k != "" && k in pool
    requires JsTruthy(Member(fields, "result")) || JsTruthy(Member(fields, "error"))
    ensures Receive(pool, globals, Some(Obj(fields))) == Effect(Routed(pool[k].callback, fields), pool - {k}, false)
  {
    assert Classify(Some(Obj(fields))) == Response;
  }

  /** A response whose id is not in `pool` throws before any callback runs
      and leaves `pool` as it was. */
  lemma UnknownResponseThrows(pool: map<string, PoolEntry>, globals: set<string>, fields: map<string, Json>)
    requires JsTruthy(Member(fields, "jsonrpc")) && JsTruthy(Member(fields, "id"))
    requires JsTruthy(Member(fields, "result")) || JsTruthy(Member(fields, "error"))
    requires !(Member(fields, "id").Str? && Member(fields, "id").s in pool)
    ensures Receive(pool, globals, Some(Obj(fields))) == Effect([], pool, true)
  {
    assert Classify(Some(Obj(fields))) == Response;
  }

  /** A request for a function defined on `window` calls it once with the
      request id first and the normalised params after it. */
  lemma RequestCallsGlobal(pool: map<string, PoolEntry>, globals: set<string>, fields: map<string, Json>, name: string)
    requires JsTruthy(Member(fields, "jsonrpc")) && JsTruthy(Member(fields, "id"))
    requires !JsTruthy(Member(fields, "result")) && !JsTruthy(Member(fields, "error"))
    requires Member(fields, "method") == Str(name) && name in globals && name != ""
    ensures var args := ArgumentList(Member(fields, "id"), Member(fields, "params"));
      && Receive(pool, globals, Some(Obj(fields))) == Effect([GlobalCalled(name, args)], pool, false)
      && args[0] == Member(fields, "id")
  {
    assert Classify(Some(Obj(fields))) == Request;
  }

  /** A request for a function that is not defined is ignored. */
  lemma UndefinedGlobalIgnored(pool: map<string, PoolEntry>, globals: set<string>, fields: map<string, Json>)
    requires JsTruthy(Member(fields, "jsonrpc")) && JsTruthy(Member(fields, "id"))
    requires !JsTruthy(Member(fields, "result")) && !JsTruthy(Member(fields, "error"))
    requires JsTruthy(Member(fields, "method"))
    requires !(Member(fields, "method").Str? && Member(fields, "method").s in globals)
    ensures Receive(pool, globals, Some(Obj(fields))) == Effect([], pool, false)
  {
    assert Classify(Some(Obj(fields))) == Request;
  }

  /** A message without a true `jsonrpc` or a true `id` matches neither
      branch and changes nothing. */
  lemma HeaderlessMessageIgnored(pool: map<string, PoolEntry>, globals: set<string>, data: Json)
    requires data != Null
    requires !JsTruthy(Member(MembersOf(data), "jsonrpc")) || !JsTruthy(Member(MembersOf(data), "id"))
    ensures Receive(pool, globals, Some(data)) == Effect([], pool, false)
  {
  }

  /** An entry stamped at millisecond `t` survives a cleanup tick at `now`
      exactly while `now <= t + 30000`. */
  lemma CleanupBoundary(pool: map<string, PoolEntry>, now: int, k: string)
    requires k in pool
    ensures var kept := Tables.DropOlder(pool, (e: PoolEntry) => e.time, now - MaxAgeMs);
      k in kept <==> now <= pool[k].time + 30000
  {
  }
}
