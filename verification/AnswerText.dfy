/** Which answers of the dispatcher can be printed, told from what goes into them. */
module AnswerText {
  import opened JsonValues
  import opened McpServer
  import opened Rpc
  import PrintedText

  // ---- Objects with plain keys ----

  lemma OneMember(a: Field)
    requires IsAscii(a.key)
    ensures Encodable(Obj([a])) <==> Encodable(a.val)
  {
    AsciiIsUtf8(a.key);
    assert a in [a];
  }

  lemma TwoMembers(a: Field, b: Field)
    requires IsAscii(a.key) && IsAscii(b.key)
    ensures Encodable(Obj([a, b])) <==> Encodable(a.val) && Encodable(b.val)
  {
    AsciiIsUtf8(a.key);
    AsciiIsUtf8(b.key);
    assert a in [a, b] && b in [a, b];
  }

  lemma ThreeMembers(a: Field, b: Field, c: Field)
    requires IsAscii(a.key) && IsAscii(b.key) && IsAscii(c.key)
    ensures Encodable(Obj([a, b, c])) <==> Encodable(a.val) && Encodable(b.val) && Encodable(c.val)
  {
    AsciiIsUtf8(a.key);
    AsciiIsUtf8(b.key);
    AsciiIsUtf8(c.key);
    assert a in [a, b, c] && b in [a, b, c] && c in [a, b, c];
  }

  lemma PlainText(s: string)
    requires IsAscii(s)
    ensures Encodable(Str(s))
  {
    AsciiIsUtf8(s);
  }

  lemma EnvelopeKeysAreAscii()
    ensures IsAscii("code") && IsAscii("message") && IsAscii("error") && IsAscii("id") && IsAscii("jsonrpc")
    ensures IsAscii("result") && IsAscii("data") && IsAscii(VERSION)
  {
  }

  // ---- Responses ----

  /** The text of an error and the data it may carry can be printed. */
  predicate ErrorPrints(e: ErrorObject)
  {
    IsUtf8(e.message) && (e.data.Some? ==> Encodable(e.data.value))
  }

  lemma ErrorPrintsIff(e: ErrorObject)
    ensures Encodable(ErrorToJson(e)) <==> ErrorPrints(e)
  {
    EnvelopeKeysAreAscii();
    var code, message := Field("code", Int(e.code)), Field("message", Str(e.message));
    match e.data
    case None => TwoMembers(code, message);
    case Some(data) => ThreeMembers(code, Field("data", data), message);
  }

  lemma FailurePrintsIff(id: Json, e: ErrorObject)
    ensures Encodable(ResponseToJson(Failure(id, e))) <==> Encodable(id) && ErrorPrints(e)
  {
    EnvelopeKeysAreAscii();
    ErrorPrintsIff(e);
    ThreeMembers(Field("error", ErrorToJson(e)), Field("id", id), Field("jsonrpc", Str(VERSION)));
    PlainText(VERSION);
  }

  lemma SuccessPrintsIff(id: Json, result: Json)
    ensures Encodable(ResponseToJson(Success(id, result))) <==> Encodable(id) && Encodable(result)
  {
    EnvelopeKeysAreAscii();
    ThreeMembers(Field("id", id), Field("jsonrpc", Str(VERSION)), Field("result", result));
    PlainText(VERSION);
  }

  // ---- Error texts ----

  lemma StandardTextsAreAscii()
    ensures IsAscii("Parse error") && IsAscii("Invalid request") && IsAscii("Method not found")
    ensures IsAscii("Invalid params") && IsAscii("Internal error") && IsAscii("Generic Sage error")
  {
  }

  lemma SessionTextsAreAscii()
    ensures IsAscii("Editor not connected") && IsAscii("Slot not found") && IsAscii("Version conflict")
    ensures IsAscii("PIE active, modification rejected") && IsAscii("Unknown error")
  {
  }

  lemma EditorTextsAreAscii()
    ensures IsAscii("Source control checkout required") && IsAscii("Compile error")
    ensures IsAscii("Live Coding unavailable") && IsAscii("Hard cap exceeded, refine query")
  {
  }

  lemma DescribeIsAscii(code: int)
    ensures IsAscii(Describe(code))
  {
    StandardTextsAreAscii();
    SessionTextsAreAscii();
    EditorTextsAreAscii();
  }

  /** The server's own wording never spoils a text. */
  lemma FromCodePrintsIff(code: int, detail: string)
    requires detail != ""
    ensures IsUtf8(FromCode(code, detail).message) <==> IsUtf8(detail)
  {
    DescribeIsAscii(code);
    AsciiPrefix(Describe(code), ": " + detail);
    AsciiPrefix(": ", detail);
  }

  lemma PlainDetailPrints(code: int, detail: string)
    requires detail != "" && IsAscii(detail)
    ensures IsUtf8(FromCode(code, detail).message)
  {
    AsciiIsUtf8(detail);
    FromCodePrintsIff(code, detail);
  }

  // ---- Results ----

  lemma ResultKeysAreAscii()
    ensures IsAscii("capabilities") && IsAscii("tools") && IsAscii("listChanged") && IsAscii("protocolVersion")
    ensures IsAscii("serverInfo") && IsAscii("name") && IsAscii("version") && IsAscii("2025-03-26")
  {
  }

  lemma InitializePrintsIff(around: Surroundings)
    ensures Encodable(InitializeResult(around)) <==> IsUtf8(around.name) && IsUtf8(around.version)
  {
    var listChanged := Obj([Field("listChanged", Bool(false))]);
    var capabilities := Obj([Field("tools", listChanged)]);
    var info := Obj([Field("name", Str(around.name)), Field("version", Str(around.version))]);
    ResultKeysAreAscii();
    OneMember(Field("listChanged", Bool(false)));
    OneMember(Field("tools", listChanged));
    TwoMembers(Field("name", Str(around.name)), Field("version", Str(around.version)));
    PlainText("2025-03-26");
    ThreeMembers(Field("capabilities", capabilities), Field("protocolVersion", Str("2025-03-26")),
                 Field("serverInfo", info));
  }

  lemma ListPrintsIff(tools: Json)
    ensures Encodable(Obj([Field("tools", tools)])) <==> Encodable(tools)
  {
    ResultKeysAreAscii();
    OneMember(Field("tools", tools));
  }

  lemma WrapperKeysAreAscii()
    ensures IsAscii("content") && IsAscii("text") && IsAscii("type") && IsAscii("isError")
    ensures IsAscii("structuredContent")
  {
  }

  lemma OneElement(e: Json)
    ensures Encodable(Arr([e])) <==> Encodable(e)
  {
    assert e in [e];
  }

  lemma TextEntryPrints(text: string, kind: string)
    requires IsUtf8(text) && IsAscii(kind)
    ensures Encodable(Obj([Field("text", Str(text)), Field("type", Str(kind))]))
  {
    WrapperKeysAreAscii();
    PlainText(kind);
    TwoMembers(Field("text", Str(text)), Field("type", Str(kind)));
  }

  /** The text member, the body's own print, is UTF-8 whenever the body can be printed. */
  lemma WrappedPrints(body: Json)
    requires Encodable(body)
    ensures Encodable(Wrapped(body))
  {
    var entry := Obj([Field("text", Str(Dump(body))), Field("type", Str("text"))]);
    WrapperKeysAreAscii();
    PrintedText.DumpIsUtf8(body);
    TextEntryPrints(Dump(body), "text");
    OneElement(entry);
    ThreeMembers(Field("content", Arr([entry])), Field("isError", Bool(false)), Field("structuredContent", body));
  }

  // ---- Answers ----

  /** The called tool succeeds, or fails with a text and data that are UTF-8, or no tool is called. */
  ghost predicate CallErrorPrints(params: Json, around: Surroundings)
  {
    match ParseCall(params)
    case None => true
    case Some(call) =>
      var outcome := around.dispatch(call.tool, call.args, call.target);
      outcome.Err? ==> ErrorPrints(outcome.error)
  }

  /** The texts that go into the answer are UTF-8: the server's name and version, the tool list,
      the called tool's error text and data, or the name of the unknown method. */
  ghost predicate AnswerPrints(name: string, params: Json, around: Surroundings)
  {
    if name == "initialize" then IsUtf8(around.name) && IsUtf8(around.version)
    else if name == "ping" then true
    else if name == "tools/list" then Encodable(around.toolList)
    else if name == "tools/call" then CallErrorPrints(params, around)
    else IsUtf8(name)
  }

  lemma CallPrintsIff(id: Json, params: Json, around: Surroundings)
    requires ToolsCall(id, params, around).Some?
    ensures Encodable(ResponseToJson(ToolsCall(id, params, around).value)) <==>
              Encodable(id) && CallErrorPrints(params, around)
  {
    match ParseCall(params)
    case None => NamelessCallPrintsIff(id, params, around);
    case Some(call) =>
      match around.dispatch(call.tool, call.args, call.target)
      case Err(e) => FailurePrintsIff(id, e);
      case Ok(body) =>
        var final := PostProcess(body, call.mode).value;
        ReportIsEncodable(body, call.mode);
        WrappedPrints(final);
        SuccessPrintsIff(id, Wrapped(final));
  }

  const NO_NAME := "missing or invalid 'name' field"

  lemma NoNameIsAscii()
    ensures IsAscii(NO_NAME)
  {
  }

  lemma NamelessCallPrintsIff(id: Json, params: Json, around: Surroundings)
    requires ParseCall(params).None?
    ensures ToolsCall(id, params, around).Some?
    ensures Encodable(ResponseToJson(ToolsCall(id, params, around).value)) <==> Encodable(id)
  {
    NoNameIsAscii();
    PlainDetailPrints(INVALID_PARAMS, NO_NAME);
    FailurePrintsIff(id, FromCode(INVALID_PARAMS, NO_NAME));
  }

  lemma UnknownPrefixIsAscii()
    ensures IsAscii("unknown method: ")
  {
  }

  lemma UnknownMethodPrintsIff(id: Json, name: string)
    ensures Encodable(ResponseToJson(Failure(id, FromCode(METHOD_NOT_FOUND, "unknown method: " + name))))
       <==> Encodable(id) && IsUtf8(name)
  {
    UnknownPrefixIsAscii();
    AsciiPrefix("unknown method: ", name);
    FromCodePrintsIff(METHOD_NOT_FOUND, "unknown method: " + name);
    FailurePrintsIff(id, FromCode(METHOD_NOT_FOUND, "unknown method: " + name));
  }

  /** An answer can be printed exactly when its id and the texts that go into it can. */
  lemma AnswerPrintsIff(name: string, id: Json, params: Json, around: Surroundings)
    requires Answer(name, id, params, around).Some?
    ensures Encodable(ResponseToJson(Answer(name, id, params, around).value)) <==>
              Encodable(id) && AnswerPrints(name, params, around)
  {
    if name == "tools/call" {
      CallPrintsIff(id, params, around);
    } else if name == "initialize" {
      InitializePrintsIff(around);
      SuccessPrintsIff(id, InitializeResult(around));
    } else if name == "ping" {
      SuccessPrintsIff(id, Obj([]));
    } else if name == "tools/list" {
      ListPrintsIff(around.toolList);
      SuccessPrintsIff(id, Obj([Field("tools", around.toolList)]));
    } else {
      UnknownMethodPrintsIff(id, name);
    }
  }

  lemma RefusalTextsAreAscii()
    ensures IsAscii("envelope must be a JSON object") && IsAscii("invalid or missing 'jsonrpc' version")
    ensures IsAscii("missing or non-string 'method' field")
  {
    MethodRefusalIsAscii();
  }

  lemma MethodRefusalIsAscii()
    ensures IsAscii("missing or non-string 'method' field")
  {
  }

  lemma RefusalsAreAscii(payload: Json)
    requires RequestFromJson(payload).Err?
    ensures RequestFromJson(payload).error != "" && IsAscii(RequestFromJson(payload).error)
  {
    RefusalTextsAreAscii();
  }

  /** A refusal of an envelope can always be printed. */
  lemma RefusalPrints(payload: Json, around: Surroundings)
    requires RequestFromJson(payload).Err?
    ensures HandlePayload(payload, around).Reply? && Encodable(HandlePayload(payload, around).envelope)
  {
    var why := RequestFromJson(payload).error;
    RefusalsAreAscii(payload);
    PlainDetailPrints(INVALID_REQUEST, why);
    FailurePrintsIff(Null, FromCode(INVALID_REQUEST, why));
  }

  // ---- Envelopes that cannot be answered ----

  /** The request is a tools/call whose body is unfit, or its id or a text that goes into its answer
      is not UTF-8. */
  ghost predicate CannotAnswer(r: Request, around: Surroundings)
  {
    && r.id.Some?
    && (|| (r.name == "tools/call" && BodyIsUnfit(r.params, around))
        || !Encodable(r.id.value) || !AnswerPrints(r.name, r.params, around))
  }

  /** The handling of an envelope throws, or yields a reply the printer refuses, exactly when it is
      a request that cannot be answered. */
  lemma PayloadFailsIff(payload: Json, around: Surroundings)
    ensures var handled := HandlePayload(payload, around);
            handled == Throws || (handled.Reply? && !Encodable(handled.envelope)) <==>
              RequestFromJson(payload).Ok? && CannotAnswer(RequestFromJson(payload).value, around)
  {
    match RequestFromJson(payload)
    case Err(_) => RefusalPrints(payload, around);
    case Ok(r) => RequestFailsIff(r, around);
  }

  lemma RequestFailsIff(r: Request, around: Surroundings)
    ensures var handled := HandleRequest(r, around);
            handled == Throws || (handled.Reply? && !Encodable(handled.envelope)) <==> CannotAnswer(r, around)
  {
    if r.id.Some? {
      AnswerThrowsIff(r.name, r.id.value, r.params, around);
      CallThrowsIff(r.id.value, r.params, around);
      if Answer(r.name, r.id.value, r.params, around).Some? {
        AnswerPrintsIff(r.name, r.id.value, r.params, around);
      }
    }
  }
}
