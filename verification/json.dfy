/** JSON values as both peers see them once a message text has been decoded,
    and the two notions of truthiness the peers test them with. */
module Json {

  datatype Option<+T> = None | Some(value: T)

  /** A decoded JSON value. Objects are keyed by member name; member order
      plays no part in anything the protocol does. */
  datatype Json =
    | Null
    | Bool(b: bool)
    | Int(i: int)
    | Float(f: real)
    | Str(s: string)
    | Arr(items: seq<Json>)
    | Obj(fields: map<string, Json>)

  /** Python's truth value of the decoded value (`if x:`): empty containers,
      zero, the empty string, False and None are false. */
  predicate PyTruthy(v: Json) {
    match v
    case Null => false
    case Bool(b) => b
    case Int(i) => i != 0
    case Float(f) => f != 0.0
    case Str(s) => s != ""
    case Arr(a) => a != []
    case Obj(m) => m != map[]
  }

  /** JavaScript's truth value: unlike Python, every array and every object
      is true, even an empty one. */
  predicate JsTruthy(v: Json) {
    match v
    case Null => false
    case Bool(b) => b
    case Int(i) => i != 0
    case Float(f) => f != 0.0
    case Str(s) => s != ""
    case Arr(_) => true
    case Obj(_) => true
  }

  /** A member lookup that yields null for a missing member: Python's
      `dict.get(key)` and, as far as truthiness goes, JavaScript's
      `obj.key`, which yields `undefined`. */
  function Member(fields: map<string, Json>, key: string): Json {
    if key in fields then fields[key] else Null
  }

  /** Python can use the decoded value as a dict key (lists and dicts cannot). */
  predicate Hashable(v: Json) {
    !v.Arr? && !v.Obj?
  }
}

/** The response envelopes of section 5 of the JSON-RPC 2.0 specification,
    built the same way by both peers. */
module Wire {
  import opened Json

  const Version := Str("2.0")

  /** `{"jsonrpc": "2.0", "result": result, "id": id}` */
  function SuccessResponse(id: Json, result: Json): Json {
    Obj(map["jsonrpc" := Version, "result" := result, "id" := id])
  }

  /** `{"jsonrpc": "2.0", "error": error, "id": id}` */
  function ErrorResponse(id: Json, error: Json): Json {
    Obj(map["jsonrpc" := Version, "error" := error, "id" := id])
  }
}

/** Time-stamped tables that both peers prune by age. */
module Tables {

  /** The entries of `m` whose stamp is not older than `limit`, each with its
      value unchanged. */
  function DropOlder<E>(m: map<string, E>, stamp: E -> int, limit: int): (r: map<string, E>)
    ensures r.Keys <= m.Keys
    ensures forall k :: k in m ==> (k in r <==> stamp(m[k]) >= limit)
    ensures forall k :: k in r ==> r[k] == m[k]
  {
    map k | k in m && stamp(m[k]) >= limit :: m[k]
  }
}
