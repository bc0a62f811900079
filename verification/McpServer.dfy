/** The MCP dispatcher: one JSON-RPC envelope in, at most one envelope out. */
module McpServer {
  import opened JsonValues
  import opened Results
  import opened Rpc
  import opened Simplifier
  import SimplifierAlgebra
  import SimplifierSize

  /** What a request finds around it: the server's name and version, the tool list, and what running a tool yields. */
  datatype Surroundings = Surroundings(
    name: string,
    version: string,
    toolList: Json,
    dispatch: (string, Json, string) -> ToolResult)

  /** The three ways of handling an envelope: no output, one output, or an exception
      that leaves the dispatcher. */
  datatype Handled =
    | Silent
    | Reply(envelope: Json)
    | Throws

  // ---- tools/call ----

  datatype Mode = Raw | Stripped | Deep

  function ModeText(mode: Mode): string
  {
    match mode
    case Raw => "raw"
    case Stripped => "stripped"
    case Deep => "simplified"
  }

  /** The call's arguments without the members that steer the server itself. */
  datatype Call = Call(tool: string, args: Json, target: string, mode: Mode)

  function ParseMode(v: Option<Json>): Mode
  {
    if v == Some(Str("stripped")) then Stripped
    else if v == Some(Str("simplified")) then Deep
    else Raw
  }

  function ParseCall(params: Json): Option<Call>
  {
    match Member(params, "name")
    case Some(Str(tool)) =>
      var given := Member(params, "arguments");
      var args := if given.Some? then given.value else Obj([]);
      var editor := Member(args, "_editor");
      var target := if editor.Some? && editor.value.Str? then editor.value.s else "";
      var routed := Erase(args, "_editor");
      Some(Call(tool, Erase(routed, "simplify"), target, ParseMode(Member(routed, "simplify"))))
    case _ => None
  }

  function MetaFields(mode: Mode, rawBytes: nat, simplifiedBytes: nat): seq<Field>
  {
    [Field("mode", Str(ModeText(mode))),
     Field("raw_bytes", Int(rawBytes)),
     Field("simplified_bytes", Int(simplifiedBytes))]
  }

  function Meta(mode: Mode, body: Json, out: Json): Json
  {
    Obj(MetaFields(mode, |Dump(body)|, |Dump(out)|))
  }

  /** A member assignment: replaces the member of that name or adds it. */
  function SetMember(fs: seq<Field>, key: string, val: Json): (r: seq<Field>)
    ensures Lookup(r, key) == Some(val)
  {
    if fs == [] then [Field(key, val)]
    else if fs[0].key == key then [Field(key, val)] + fs[1..]
    else [fs[0]] + SetMember(fs[1..], key, val)
  }

  /** The body after the simplifier and with its savings report; None when the report
      cannot be attached because the body is neither an object nor null. */
  function PostProcess(body: Json, mode: Mode): Option<Json>
  {
    if mode == Raw then Some(body)
    else
      var out := Simplified(body, mode == Deep);
      var meta := Meta(mode, body, out);
      match out
      case Obj(fs) => Some(Obj(SetMember(fs, "_simplify_meta", meta)))
      case Null => Some(Obj([Field("_simplify_meta", meta)]))
      case _ => None
  }

  function Wrapped(body: Json): Json
  {
    Obj([Field("content", Arr([Obj([Field("text", Str(Dump(body))), Field("type", Str("text"))])])),
         Field("isError", Bool(false)),
         Field("structuredContent", body)])
  }

  /** None when an exception leaves the handler. The first printing of the body throws when the
      body is not encodable; the later ones print no other text (`ReportIsEncodable`). */
  function ToolsCall(id: Json, params: Json, around: Surroundings): Option<Response>
  {
    match ParseCall(params)
    case None => Some(Failure(id, FromCode(INVALID_PARAMS, "missing or invalid 'name' field")))
    case Some(call) =>
      match around.dispatch(call.tool, call.args, call.target)
      case Err(e) => Some(Failure(id, e))
      case Ok(body) =>
        if !Encodable(body) then None
        else
          match PostProcess(body, call.mode)
          case None => None
          case Some(final) => Some(Success(id, Wrapped(final)))
  }

  function InitializeResult(around: Surroundings): Json
  {
    Obj([Field("capabilities", Obj([Field("tools", Obj([Field("listChanged", Bool(false))]))])),
         Field("protocolVersion", Str("2025-03-26")),
         Field("serverInfo", Obj([Field("name", Str(around.name)), Field("version", Str(around.version))]))])
  }

  // ---- Dispatch ----

  /** The answer to a request that has an id. */
  function Answer(name: string, id: Json, params: Json, around: Surroundings): Option<Response>
  {
    if name == "initialize" then Some(Success(id, InitializeResult(around)))
    else if name == "ping" then Some(Success(id, Obj([])))
    else if name == "tools/list" then Some(Success(id, Obj([Field("tools", around.toolList)])))
    else if name == "tools/call" then ToolsCall(id, params, around)
    else Some(Failure(id, FromCode(METHOD_NOT_FOUND, "unknown method: " + name)))
  }

  function HandleRequest(r: Request, around: Surroundings): Handled
  {
    if r.id.None? then Silent
    else
      match Answer(r.name, r.id.value, r.params, around)
      case None => Throws
      case Some(response) => Reply(ResponseToJson(response))
  }

  function HandlePayload(payload: Json, around: Surroundings): Handled
  {
    match RequestFromJson(payload)
    case Err(why) => Reply(ResponseToJson(Failure(Null, FromCode(INVALID_REQUEST, why))))
    case Ok(r) => HandleRequest(r, around)
  }

  /** Reads the call and takes the routing and simplifier members out of its arguments. */
  method ReadCall(params: Json) returns (call: Option<Call>)
    ensures call == ParseCall(params)
  {
    var name := Member(params, "name");
    if name.None? || !name.value.Str? {
      return None;
    }
    var given := Member(params, "arguments");
    var args := if given.Some? then given.value else Obj([]);
    var target := "";
    var editor := Member(args, "_editor");
    if editor.Some? && editor.value.Str? {
      target := editor.value.s;
    }
    args := Erase(args, "_editor");
    var mode := ParseMode(Member(args, "simplify"));
    args := Erase(args, "simplify");
    return Some(Call(name.value.s, args, target, mode));
  }

  /** Simplifies the body and attaches the savings report; None when an exception leaves. */
  method AttachReport(body: Json, mode: Mode) returns (r: Option<Json>)
    ensures r == PostProcess(body, mode)
  {
    if mode == Raw {
      return Some(body);
    }
    var out := SimplifyValue(body, mode == Deep);
    var meta := Meta(mode, body, out);
    match out
    case Obj(fs) => r := Some(Obj(SetMember(fs, "_simplify_meta", meta)));
    case Null => r := Some(Obj([Field("_simplify_meta", meta)]));
    case _ => r := None;
  }

  /** The tools/call handler; None when an exception leaves it. */
  method OnToolsCall(id: Json, params: Json, around: Surroundings) returns (r: Option<Response>)
    ensures r == ToolsCall(id, params, around)
  {
    var call := ReadCall(params);
    if call.None? {
      return Some(Failure(id, FromCode(INVALID_PARAMS, "missing or invalid 'name' field")));
    }
    var outcome := around.dispatch(call.value.tool, call.value.args, call.value.target);
    if outcome.Err? {
      return Some(Failure(id, outcome.error));
    }
    if !Encodable(outcome.value) {
      return None;
    }
    var body := AttachReport(outcome.value, call.value.mode);
    r := if body.None? then None else Some(Success(id, Wrapped(body.value)));
  }

  /** The method table. */
  method OnRequest(name: string, id: Json, params: Json, around: Surroundings)
    returns (answer: Option<Response>)
    ensures answer == Answer(name, id, params, around)
  {
    if name == "initialize" {
      answer := Some(Success(id, InitializeResult(around)));
    } else if name == "ping" {
      answer := Some(Success(id, Obj([])));
    } else if name == "tools/list" {
      answer := Some(Success(id, Obj([Field("tools", around.toolList)])));
    } else if name == "tools/call" {
      answer := OnToolsCall(id, params, around);
    } else {
      answer := Some(Failure(id, FromCode(METHOD_NOT_FOUND, "unknown method: " + name)));
    }
  }

  /** The envelope is the notification that ends the client's start-up. */
  predicate Initializes(payload: Json)
  {
    match RequestFromJson(payload)
    case Err(_) => false
    case Ok(r) => r.id.None? && r.name == "notifications/initialized"
  }

  class Server {
    var initialized: bool

    constructor ()
      ensures !initialized
    {
      initialized := false;
    }

    /** Handles one request; a notification may flip the initialized flag and never answers. */
    method Handle(r: Request, around: Surroundings) returns (handled: Handled)
      modifies this
      ensures handled == HandleRequest(r, around)
      ensures initialized == (old(initialized) || (r.id.None? && r.name == "notifications/initialized"))
    {
      if r.id.None? {
        if r.name == "notifications/initialized" {
          initialized := true;
        }
        return Silent;
      }
      var answer := OnRequest(r.name, r.id.value, r.params, around);
      match answer
      case None => handled := Throws;
      case Some(response) => handled := Reply(ResponseToJson(response));
    }

    method HandleRaw(payload: Json, around: Surroundings) returns (handled: Handled)
      modifies this
      ensures handled == HandlePayload(payload, around)
      ensures initialized == (old(initialized) || Initializes(payload))
    {
      var parsed := RequestFromJson(payload);
      match parsed
      case Err(why) =>
        handled := Reply(ResponseToJson(Failure(Null, FromCode(INVALID_REQUEST, why))));
      case Ok(r) =>
        handled := Handle(r, around);
    }
  }

  // ---- What an answer looks like ----

  /** A request object of section 4 of the JSON-RPC 2.0 specification. */
  ghost predicate IsRequest(j: Json)
  {
    && Member(j, "jsonrpc") == Some(Str("2.0"))
    && Member(j, "method").Some? && Member(j, "method").value.Str?
  }

  /** A request object without an id, section 4.1 of that specification. */
  ghost predicate IsNotification(j: Json)
  {
    IsRequest(j) && Member(j, "id").None?
  }

  /** A response object for that id: exactly one of result and error. */
  ghost predicate IsResponseTo(envelope: Json, id: Json)
  {
    && Member(envelope, "jsonrpc") == Some(Str("2.0"))
    && Member(envelope, "id") == Some(id)
    && (Member(envelope, "result").Some? <==> Member(envelope, "error").None?)
  }

  lemma ResponseHasItsId(r: Response)
    ensures IsResponseTo(ResponseToJson(r), r.id)
    ensures Member(ResponseToJson(r), "result") == if r.Success? then Some(r.result) else None
    ensures Member(ResponseToJson(r), "error") == if r.Failure? then Some(ErrorToJson(r.error)) else None
  {
    ResponseMember(r, "jsonrpc");
    ResponseMember(r, "id");
    ResponseMember(r, "result");
    ResponseMember(r, "error");
  }

  lemma ResponseMember(r: Response, key: string)
    ensures Member(ResponseToJson(r), key)
         == if key == "id" then Some(r.id)
            else if key == "jsonrpc" then Some(Str(VERSION))
            else if key == "result" && r.Success? then Some(r.result)
            else if key == "error" && r.Failure? then Some(ErrorToJson(r.error))
            else None
  {
    var version := Field("jsonrpc", Str(VERSION));
    match r
    case Success(id, result) => LookupThree(Field("id", id), version, Field("result", result), key);
    case Failure(id, error) => LookupThree(Field("error", ErrorToJson(error)), Field("id", id), version, key);
  }

  // ---- What the method table promises ----

  predicate InTable(name: string)
  {
    name == "initialize" || name == "ping" || name == "tools/list" || name == "tools/call"
  }

  /** The tool that a call names is refused with this code by the registry or by the tool. */
  ghost predicate ToolFailsWith(params: Json, around: Surroundings, code: int)
  {
    match ParseCall(params)
    case None => false
    case Some(call) =>
      var outcome := around.dispatch(call.tool, call.args, call.target);
      outcome.Err? && outcome.error.code == code
  }

  predicate FailsWith(answer: Option<Response>, code: int)
  {
    answer.Some? && answer.value.Failure? && answer.value.error.code == code
  }

  /** Every answer carries the id it was asked with. Only tools/call can throw or fail for a method
      of the table; "method not found" comes from a name outside the table, or is the called tool's
      own error, and from nothing else; "invalid params" likewise from a call that names no tool. */
  lemma AnswersByMethod(name: string, id: Json, params: Json, around: Surroundings)
    ensures var a := Answer(name, id, params, around);
            && (a.Some? ==> a.value.id == id)
            && (a.None? ==> name == "tools/call")
            && (a.Some? && a.value.Failure? ==> name == "tools/call" || !InTable(name))
            && (FailsWith(a, METHOD_NOT_FOUND) <==>
                  !InTable(name) || (name == "tools/call" && ToolFailsWith(params, around, METHOD_NOT_FOUND)))
            && (FailsWith(a, INVALID_PARAMS) <==>
                  name == "tools/call"
                  && (ParseCall(params).None? || ToolFailsWith(params, around, INVALID_PARAMS)))
            && (name == "tools/list" ==> Member(a.value.result, "tools") == Some(around.toolList))
  {
    if name == "tools/call" {
      CallsByOutcome(id, params, around);
    }
  }

  lemma CallsByOutcome(id: Json, params: Json, around: Surroundings)
    ensures var a := ToolsCall(id, params, around);
            && (a.Some? ==> a.value.id == id)
            && (FailsWith(a, METHOD_NOT_FOUND) <==> ToolFailsWith(params, around, METHOD_NOT_FOUND))
            && (FailsWith(a, INVALID_PARAMS) <==>
                  ParseCall(params).None? || ToolFailsWith(params, around, INVALID_PARAMS))
  {
  }

  /** A request with an id is answered with that id, unless its handling throws. */
  lemma RequestAnswer(r: Request, around: Surroundings)
    ensures HandleRequest(r, around) == Silent <==> r.id.None?
    ensures HandleRequest(r, around).Reply? ==>
              r.id.Some? && IsResponseTo(HandleRequest(r, around).envelope, r.id.value)
  {
    if r.id.Some? {
      var answer := Answer(r.name, r.id.value, r.params, around);
      AnswersByMethod(r.name, r.id.value, r.params, around);
      if answer.Some? {
        ResponseHasItsId(answer.value);
      }
    }
  }

  /** An envelope is answered unless it is a valid notification; the answer carries the
      request's id, or null with "invalid request" when it is no request. */
  lemma PayloadAnswer(payload: Json, around: Surroundings)
    ensures HandlePayload(payload, around) == Silent <==> IsNotification(payload)
    ensures !IsRequest(payload) ==>
              && HandlePayload(payload, around).Reply?
              && IsResponseTo(HandlePayload(payload, around).envelope, Null)
    ensures IsRequest(payload) && HandlePayload(payload, around).Reply? ==>
              && Member(payload, "id").Some?
              && IsResponseTo(HandlePayload(payload, around).envelope, Member(payload, "id").value)
  {
    match RequestFromJson(payload)
    case Err(why) =>
      ResponseHasItsId(Failure(Null, FromCode(INVALID_REQUEST, why)));
    case Ok(r) =>
      RequestAnswer(r, around);
  }

  lemma ReportFailsIff(body: Json, mode: Mode)
    ensures PostProcess(body, mode).None? <==> mode != Raw && !body.Obj? && !body.Null?
  {
  }

  /** A body the call cannot answer with: one that is not encodable, or, when simplification is
      asked for, one that has no place for the report. */
  predicate IsUnfit(body: Json, mode: Mode)
  {
    !Encodable(body) || (mode != Raw && !body.Obj? && !body.Null?)
  }

  ghost predicate BodyIsUnfit(params: Json, around: Surroundings)
  {
    match ParseCall(params)
    case None => false
    case Some(call) =>
      var outcome := around.dispatch(call.tool, call.args, call.target);
      outcome.Ok? && IsUnfit(outcome.value, call.mode)
  }

  lemma CallThrowsIff(id: Json, params: Json, around: Surroundings)
    ensures ToolsCall(id, params, around).None? <==> BodyIsUnfit(params, around)
  {
    match ParseCall(params)
    case None =>
    case Some(call) =>
      match around.dispatch(call.tool, call.args, call.target)
      case Err(_) =>
      case Ok(body) => ReportFailsIff(body, call.mode);
  }

  /** An exception leaves the dispatcher exactly when a tools/call request gets a body that is not
      encodable, or that is neither an object nor null although simplification was asked for. */
  lemma DispatcherThrowsIff(payload: Json, around: Surroundings)
    ensures HandlePayload(payload, around) == Throws <==>
              match RequestFromJson(payload)
              case Err(_) => false
              case Ok(r) => r.id.Some? && r.name == "tools/call" && BodyIsUnfit(r.params, around)
  {
    match RequestFromJson(payload)
    case Err(_) =>
    case Ok(r) =>
      if r.id.Some? {
        AnswerThrowsIff(r.name, r.id.value, r.params, around);
        CallThrowsIff(r.id.value, r.params, around);
      }
  }

  lemma AnswerThrowsIff(name: string, id: Json, params: Json, around: Surroundings)
    ensures Answer(name, id, params, around).None? <==>
              name == "tools/call" && ToolsCall(id, params, around).None?
  {
  }

  /** The parameters of a call of tool "t" with one argument, the wish for stripping. */
  function StrippingParams(): Json
  {
    Obj([Field("arguments", Obj([Field("simplify", Str("stripped"))])), Field("name", Str("t"))])
  }

  /** Such a failure does occur: a tool "t" that returns the array [1] throws when it is called
      with `"simplify": "stripped"`. */
  lemma StrippingAnArrayThrows(around: Surroundings)
    requires around.dispatch("t", Obj([]), "") == Ok(Arr([Int(1)]))
    ensures HandlePayload(RequestToJson(Request("tools/call", StrippingParams(), Some(Int(1)))), around) == Throws
  {
    var request := Request("tools/call", StrippingParams(), Some(Int(1)));
    RequestRoundTrip(request);
    StrippingCall();
    DispatcherThrowsIff(RequestToJson(request), around);
  }

  lemma StrippingCall()
    ensures ParseCall(StrippingParams()) == Some(Call("t", Obj([]), "", Stripped))
  {
    var args := Obj([Field("simplify", Str("stripped"))]);
    LookupCons("name", Str("t"), [], "name");
    LookupCons("arguments", args, [Field("name", Str("t"))], "name");
    assert Member(StrippingParams(), "name") == Some(Str("t"));
    assert Member(StrippingParams(), "arguments") == Some(args);
    assert Member(args, "_editor") == None && Erase(args, "_editor") == args;
    assert Member(args, "simplify") == Some(Str("stripped"));
    assert Erase(args, "simplify") == Obj([]);
  }

  // ---- The savings report ----

  /** Null or object bodies always get a report; it never claims a negative saving, and
      claims none exactly when the simplifier changed nothing. */
  lemma ReportedSaving(body: Json, mode: Mode)
    requires mode != Raw && (body.Obj? || body.Null?)
    ensures PostProcess(body, mode).Some?
    ensures var out := Simplified(body, mode == Deep);
            && Member(PostProcess(body, mode).value, "_simplify_meta") == Some(Meta(mode, body, out))
            && |Dump(out)| <= |Dump(body)|
            && (|Dump(out)| == |Dump(body)| <==> SimplifierAlgebra.Normal(body, mode == Deep))
  {
    SimplifierSize.NeverLonger(body, mode == Deep);
    SimplifierAlgebra.FixedIffNormal(body, mode == Deep);
  }

  lemma {:induction false} WithoutSetMember(fs: seq<Field>, key: string, val: Json)
    ensures Without(SetMember(fs, key, val), key) == Without(fs, key)
  {
    if fs != [] {
      WithoutSetMember(fs[1..], key, val);
      if fs[0].key == key {
        assert ([Field(key, val)] + fs[1..])[1..] == fs[1..];
      } else {
        assert ([fs[0]] + SetMember(fs[1..], key, val))[1..] == SetMember(fs[1..], key, val);
      }
    }
  }

  ghost predicate IsPlain(f: Field)
  {
    IsAscii(f.key) && (f.val.Int? || (f.val.Str? && IsAscii(f.val.s)))
  }

  lemma PlainIsEncodable(fs: seq<Field>)
    requires forall f | f in fs :: IsPlain(f)
    ensures Encodable(Obj(fs))
  {
    forall f | f in fs ensures IsUtf8(f.key) && Encodable(f.val) {
      assert IsPlain(f);
      AsciiIsUtf8(f.key);
      if f.val.Str? {
        AsciiIsUtf8(f.val.s);
      }
    }
  }

  lemma MetaTextsAreAscii(mode: Mode)
    ensures IsAscii("mode") && IsAscii("raw_bytes") && IsAscii("simplified_bytes")
    ensures IsAscii(ModeText(mode)) && IsAscii("_simplify_meta")
  {
  }

  lemma MetaIsPlain(mode: Mode, before: nat, after: nat)
    ensures forall f | f in MetaFields(mode, before, after) :: IsPlain(f)
  {
    MetaTextsAreAscii(mode);
  }

  lemma {:induction false} SetMemberMembers(fs: seq<Field>, key: string, val: Json)
    ensures forall f | f in SetMember(fs, key, val) :: f in fs || f == Field(key, val)
  {
    if fs != [] {
      SetMemberMembers(fs[1..], key, val);
    }
  }

  lemma SetMemberIsEncodable(fs: seq<Field>, key: string, val: Json)
    requires Encodable(Obj(fs)) && IsAscii(key) && Encodable(val)
    ensures Encodable(Obj(SetMember(fs, key, val)))
  {
    SetMemberMembers(fs, key, val);
    AsciiIsUtf8(key);
  }

  lemma ReportMemberIsEncodable(fs: seq<Field>, mode: Mode, before: nat, after: nat)
    requires Encodable(Obj(fs))
    ensures Encodable(Obj(SetMember(fs, "_simplify_meta", Obj(MetaFields(mode, before, after)))))
  {
    MetaIsPlain(mode, before, after);
    PlainIsEncodable(MetaFields(mode, before, after));
    MetaTextsAreAscii(mode);
    SetMemberIsEncodable(fs, "_simplify_meta", Obj(MetaFields(mode, before, after)));
  }

  /** Simplifying and reporting never turn an encodable body into one that is not. */
  lemma ReportIsEncodable(body: Json, mode: Mode)
    requires Encodable(body) && PostProcess(body, mode).Some?
    ensures Encodable(Simplified(body, mode == Deep))
    ensures Encodable(PostProcess(body, mode).value)
  {
    var out := Simplified(body, mode == Deep);
    SimplifierAlgebra.OutputIsEncodable(body, mode == Deep);
    if mode != Raw {
      ReportMemberIsEncodable(if out.Obj? then out.fields else [], mode, |Dump(body)|, |Dump(out)|);
    }
  }

  /** In raw mode the body is untouched; otherwise it is the simplified body, apart from the
      report member alone. */
  lemma ReportAddsOnlyItself(body: Json, mode: Mode)
    requires PostProcess(body, mode).Some?
    ensures var final := PostProcess(body, mode).value;
            if mode == Raw then final == body
            else
              var out := Simplified(body, mode == Deep);
              && final.Obj? && (out.Obj? || out.Null?)
              && Without(final.fields, "_simplify_meta")
                 == if out.Obj? then Without(out.fields, "_simplify_meta") else []
  {
    if mode != Raw {
      var out := Simplified(body, mode == Deep);
      WithoutSetMember(if out.Obj? then out.fields else [], "_simplify_meta", Meta(mode, body, out));
    }
  }

  /** Tools never see the members that steer the server, and see all others as sent. */
  lemma ToolArgumentsAreClean(params: Json, key: string)
    requires ParseCall(params).Some?
    ensures var given := Member(params, "arguments");
            var args := if given.Some? then given.value else Obj([]);
            Member(ParseCall(params).value.args, key)
              == if key == "_editor" || key == "simplify" then None else Member(args, key)
    ensures Member(params, "arguments").Some? && !Member(params, "arguments").value.Obj? ==>
              ParseCall(params).value.args == Member(params, "arguments").value
  {
    var given := Member(params, "arguments");
    var args := if given.Some? then given.value else Obj([]);
    if args.Obj? {
      var routed := Without(args.fields, "_editor");
      assert ParseCall(params).value.args.fields == Without(routed, "simplify");
      if key != "simplify" {
        LookupWithout(routed, "simplify", key);
        if key != "_editor" {
          LookupWithout(args.fields, "_editor", key);
        }
      }
    }
  }
}
