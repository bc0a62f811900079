/** JSON-RPC 2.0 envelopes and the error codes they carry. */
module Rpc {
  import opened JsonValues
  import opened Results

  // ---- Error codes ----

  const PARSE_ERROR := -32700
  const INVALID_REQUEST := -32600
  const METHOD_NOT_FOUND := -32601
  const INVALID_PARAMS := -32602
  const INTERNAL_ERROR := -32603
  const GENERIC_SAGE := -32000
  const EDITOR_NOT_CONNECTED := -32001

  function Describe(code: int): string
  {
    if code == PARSE_ERROR then "Parse error"
    else if code == INVALID_REQUEST then "Invalid request"
    else if code == METHOD_NOT_FOUND then "Method not found"
    else if code == INVALID_PARAMS then "Invalid params"
    else if code == INTERNAL_ERROR then "Internal error"
    else if code == GENERIC_SAGE then "Generic Sage error"
    else if code == EDITOR_NOT_CONNECTED then "Editor not connected"
    else if code == -32002 then "Slot not found"
    else if code == -32003 then "Version conflict"
    else if code == -32004 then "PIE active, modification rejected"
    else if code == -32005 then "Source control checkout required"
    else if code == -32006 then "Compile error"
    else if code == -32007 then "Live Coding unavailable"
    else if code == -32008 then "Hard cap exceeded, refine query"
    else "Unknown error"
  }

  // ---- Errors ----

  datatype ErrorObject = ErrorObject(code: int, message: string, data: Option<Json>)

  type ToolResult = Result<Json, ErrorObject>

  function FromCode(code: int, detail: string): ErrorObject
  {
    ErrorObject(code, Describe(code) + if detail == "" then "" else ": " + detail, None)
  }

  function ErrorToJson(e: ErrorObject): Json
  {
    var code, message := Field("code", Int(e.code)), Field("message", Str(e.message));
    Obj(if e.data.Some? then [code, Field("data", e.data.value), message] else [code, message])
  }

  /** An error object of section 5.1 of the JSON-RPC 2.0 specification: code, message, the data when
      there is some, and nothing else. */
  ghost predicate IsErrorObject(j: Json, e: ErrorObject)
  {
    && j.Obj?
    && forall key ::
         Member(j, key) == if key == "code" then Some(Int(e.code)) else if key == "message" then Some(Str(e.message))
                           else if key == "data" then e.data else None
  }

  lemma ErrorMembers(e: ErrorObject)
    ensures IsErrorObject(ErrorToJson(e), e)
  {
    var code, message := Field("code", Int(e.code)), Field("message", Str(e.message));
    forall key
      ensures Member(ErrorToJson(e), key)
           == if key == "code" then Some(Int(e.code)) else if key == "message" then Some(Str(e.message))
              else if key == "data" then e.data else None
    {
      if e.data.Some? {
        LookupThree(code, Field("data", e.data.value), message, key);
      } else {
        LookupTwo(code, message, key);
      }
    }
  }

  // ---- Requests ----

  datatype Request = Request(name: string, params: Json, id: Option<Json>)

  const VERSION := "2.0"

  function RequestFromJson(j: Json): Result<Request, string>
  {
    if !j.Obj? then Err("envelope must be a JSON object")
    else if Member(j, "jsonrpc") != Some(Str(VERSION)) then Err("invalid or missing 'jsonrpc' version")
    else
      match Member(j, "method")
      case Some(Str(name)) =>
        var params := Member(j, "params");
        Ok(Request(name, if params.Some? then params.value else Obj([]), Member(j, "id")))
      case _ => Err("missing or non-string 'method' field")
  }

  function RequestToJson(r: Request): Json
  {
    var tail := RequestTail(r);
    Obj(if r.id.Some? then [Field("id", r.id.value)] + tail else tail)
  }

  function RequestTail(r: Request): seq<Field>
  {
    [Field("jsonrpc", Str(VERSION))] + ([Field("method", Str(r.name))] + ([Field("params", r.params)] + []))
  }

  /** Reading back a request written by the server gives that request. */
  lemma RequestRoundTrip(r: Request)
    ensures RequestFromJson(RequestToJson(r)) == Ok(r)
  {
    MemberOfRequest(r, "jsonrpc");
    MemberOfRequest(r, "method");
    MemberOfRequest(r, "params");
    MemberOfRequest(r, "id");
  }

  lemma MemberOfRequest(r: Request, key: string)
    ensures Member(RequestToJson(r), key)
         == if key == "jsonrpc" then Some(Str(VERSION))
            else if key == "method" then Some(Str(r.name))
            else if key == "params" then Some(r.params)
            else if key == "id" then r.id
            else None
  {
    LookupTail(r, key);
    if r.id.Some? {
      LookupCons("id", r.id.value, RequestTail(r), key);
    }
  }

  lemma LookupTail(r: Request, key: string)
    ensures Lookup(RequestTail(r), key)
         == if key == "jsonrpc" then Some(Str(VERSION))
            else if key == "method" then Some(Str(r.name))
            else if key == "params" then Some(r.params)
            else None
  {
    var last: seq<Field> := [Field("params", r.params)] + [];
    LookupCons("params", r.params, [], key);
    LookupCons("method", Str(r.name), last, key);
    LookupCons("jsonrpc", Str(VERSION), [Field("method", Str(r.name))] + last, key);
  }

  // ---- Responses ----

  datatype Response =
    | Success(id: Json, result: Json)
    | Failure(id: Json, error: ErrorObject)

  function ResponseToJson(r: Response): Json
  {
    match r
    case Success(id, result) =>
      Obj([Field("id", id), Field("jsonrpc", Str(VERSION)), Field("result", result)])
    case Failure(id, error) =>
      Obj([Field("error", ErrorToJson(error)), Field("id", id), Field("jsonrpc", Str(VERSION))])
  }
}
