/** The server's table of standard JSON-RPC 2.0 error codes (section 5.1 of
    the JSON-RPC 2.0 specification), keyed, as in the source, by the decimal
    text of the code. */
module RpcErrors {
  import opened Json

  /** `rpc_errors`: default messages keyed by `str(code)`. */
  const Table: map<string, string> := map[
    "-32700" := "Parse error",
    "-32600" := "Invalid Request",
    "-32601" := "Method not found",
    "-32602" := "Invalid params",
    "-32603" := "Internal error",
    "-32000" := "Server error"
  ]

  const ParseError := -32700
  const InvalidRequest := -32600
  const MethodNotFound := -32601
  const InvalidParams := -32602
  const InternalError := -32603
  const ServerError := -32000

  /** The character of a decimal digit. */
  function Digit(d: nat): char
    requires d < 10
  {
    if d == 0 then '0' else if d == 1 then '1' else if d == 2 then '2'
    else if d == 3 then '3' else if d == 4 then '4' else if d == 5 then '5'
    else if d == 6 then '6' else if d == 7 then '7' else if d == 8 then '8' else '9'
  }

  /** Decimal digits of a natural number, most significant first, without
      leading zeros. */
  function Digits(n: nat): string {
    if n < 10 then [Digit(n)] else Digits(n / 10) + [Digit(n % 10)]
  }

  /** Python's `str(code)` for an int. */
  function Str(n: int): string {
    if n < 0 then "-" + Digits(-n) else Digits(n)
  }

  lemma {:induction false} DigitsShape(n: nat)
    ensures |Digits(n)| >= 1 && '0' <= Digits(n)[0] <= '9'
    ensures n < 10 <==> |Digits(n)| == 1
  {
    if n >= 10 {
      DigitsShape(n / 10);
    }
  }

  lemma {:induction false} DigitsInjective(a: nat, b: nat)
    requires Digits(a) == Digits(b)
    ensures a == b
  {
    DigitsShape(a);
    DigitsShape(b);
    var s := Digits(a);
    if a >= 10 && b >= 10 {
      assert Digit(a % 10) == s[|s| - 1] == Digit(b % 10);
      assert Digits(a / 10) == s[..|s| - 1] == Digits(b / 10);
      DigitsInjective(a / 10, b / 10);
    }
  }

  /** Distinct codes have distinct decimal texts, so a lookup by `str(code)`
      finds the entry of exactly one code. */
  lemma StrInjective(a: int, b: int)
    requires Str(a) == Str(b)
    ensures a == b
  {
    DigitsShape(if a < 0 then -a else a);
    DigitsShape(if b < 0 then -b else b);
    if a < 0 && b < 0 {
      assert Digits(-a) == Str(a)[1..] == Digits(-b);
      DigitsInjective(-a, -b);
    } else if a >= 0 && b >= 0 {
      DigitsInjective(a, b);
    }
  }

  /* The decimal text of each standard code, one code at a time. */

  lemma ParseErrorKey()
    ensures Str(ParseError) == "-32700"
  {
    assert Digits(32700) == "32700";
  }

  lemma InvalidRequestKey()
    ensures Str(InvalidRequest) == "-32600"
  {
    assert Digits(32600) == "32600";
  }

  lemma MethodNotFoundKey()
    ensures Str(MethodNotFound) == "-32601"
  {
    assert Digits(32601) == "32601";
  }

  lemma InvalidParamsKey()
    ensures Str(InvalidParams) == "-32602"
  {
    assert Digits(32602) == "32602";
  }

  lemma InternalErrorKey()
    ensures Str(InternalError) == "-32603"
  {
    assert Digits(32603) == "32603";
  }

  lemma ServerErrorKey()
    ensures Str(ServerError) == "-32000"
  {
    assert Digits(32000) == "32000";
  }

  /** The table's keys are the decimal texts of the six standard codes. */
  lemma TableKeys()
    ensures Str(ParseError) == "-32700" && Str(InvalidRequest) == "-32600"
    ensures Str(MethodNotFound) == "-32601" && Str(InvalidParams) == "-32602"
    ensures Str(InternalError) == "-32603" && Str(ServerError) == "-32000"
  {
    ParseErrorKey();
    InvalidRequestKey();
    MethodNotFoundKey();
    InvalidParamsKey();
    InternalErrorKey();
    ServerErrorKey();
  }

  /** `rpc_errors[str(code)]`: the default message of `code`, or None where
      Python raises KeyError. */
  function DefaultMessage(code: int): (r: Option<string>)
    ensures r.Some? <==> code in {ParseError, InvalidRequest, MethodNotFound, InvalidParams, InternalError, ServerError}
    ensures code == ParseError ==> r == Some("Parse error")
    ensures code == InvalidRequest ==> r == Some("Invalid Request")
    ensures code == MethodNotFound ==> r == Some("Method not found")
    ensures code == InvalidParams ==> r == Some("Invalid params")
    ensures code == InternalError ==> r == Some("Internal error")
    ensures code == ServerError ==> r == Some("Server error")
  {
    TableKeys();
    var key := Str(code);
    if key in Table then
      if key == "-32700" then StrInjective(code, ParseError); Some(Table[key])
      else if key == "-32600" then StrInjective(code, InvalidRequest); Some(Table[key])
      else if key == "-32601" then StrInjective(code, MethodNotFound); Some(Table[key])
      else if key == "-32602" then StrInjective(code, InvalidParams); Some(Table[key])
      else if key == "-32603" then StrInjective(code, InternalError); Some(Table[key])
      else StrInjective(code, ServerError); Some(Table[key])
    else
      None
  }
}
