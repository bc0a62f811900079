/** The replies of the dispatcher, told from the members of the envelope and what the tool returned. */
module ToolAnswers {
  import opened JsonValues
  import opened McpServer
  import opened Results
  import opened Rpc
  import opened Simplifier

  // ---- What a request says ----

  lemma RequestIsRead(j: Json)
    ensures RequestFromJson(j).Ok? <==> IsRequest(j)
    ensures IsRequest(j) ==>
              var r := RequestFromJson(j).value;
              && Member(j, "method") == Some(Str(r.name)) && Member(j, "id") == r.id
              && r.params == OrElse(Member(j, "params"), Obj([]))
  {
  }

  /** The request asks with this id for this method, with these parameters. */
  ghost predicate Asks(payload: Json, id: Json, name: string, params: Json)
  {
    && IsRequest(payload)
    && Member(payload, "id") == Some(id) && Member(payload, "method") == Some(Str(name))
    && OrElse(Member(payload, "params"), Obj([])) == params
  }

  lemma AskedAnswer(payload: Json, id: Json, name: string, params: Json, around: Surroundings)
    requires Asks(payload, id, name, params)
    ensures HandlePayload(payload, around) ==
              match Answer(name, id, params, around)
              case None => Throws
              case Some(response) => Reply(ResponseToJson(response))
  {
    RequestIsRead(payload);
  }

  lemma AskedCall(payload: Json, id: Json, params: Json, around: Surroundings)
    requires Asks(payload, id, "tools/call", params)
    ensures HandlePayload(payload, around) ==
              match ToolsCall(id, params, around)
              case None => Throws
              case Some(response) => Reply(ResponseToJson(response))
  {
    AskedAnswer(payload, id, "tools/call", params, around);
  }

  /** The parameters of a call name the tool, may name an editor, and may wish for simplification;
      the tool gets the other arguments. */
  ghost predicate SaysCall(params: Json, tool: string, args: Json, target: string, wish: Option<Json>)
  {
    var given := OrElse(Member(params, "arguments"), Obj([]));
    && Member(params, "name") == Some(Str(tool))
    && target == (match Member(given, "_editor") case Some(Str(editor)) => editor case _ => "")
    && args == Erase(Erase(given, "_editor"), "simplify")
    && wish == Member(given, "simplify")
  }

  lemma WishSurvives(given: Json)
    ensures Member(Erase(given, "_editor"), "simplify") == Member(given, "simplify")
  {
    if given.Obj? {
      LookupWithout(given.fields, "_editor", "simplify");
    }
  }

  lemma CallIsRead(params: Json, tool: string, args: Json, target: string, wish: Option<Json>)
    requires SaysCall(params, tool, args, target, wish)
    ensures ParseCall(params) == Some(Call(tool, args, target, ParseMode(wish)))
  {
    WishSurvives(OrElse(Member(params, "arguments"), Obj([])));
  }

  // ---- What a reply carries ----

  /** The reply answers that id with this result. */
  ghost predicate Returns(handled: Handled, id: Json, result: Json)
  {
    handled.Reply? && IsResponseTo(handled.envelope, id) && Member(handled.envelope, "result") == Some(result)
  }

  /** The reply answers that id with this error. */
  ghost predicate Fails(handled: Handled, id: Json, e: ErrorObject)
  {
    && handled.Reply? && IsResponseTo(handled.envelope, id)
    && Member(handled.envelope, "error").Some? && IsErrorObject(Member(handled.envelope, "error").value, e)
  }

  lemma ResponseTells(r: Response)
    ensures match r
            case Success(id, result) => Returns(Reply(ResponseToJson(r)), id, result)
            case Failure(id, error) => Fails(Reply(ResponseToJson(r)), id, error)
  {
    ResponseHasItsId(r);
    if r.Failure? {
      ErrorMembers(r.error);
    }
  }

  /** A content entry is a text. */
  ghost predicate IsTextEntry(entry: Json, text: string)
  {
    Member(entry, "type") == Some(Str("text")) && Member(entry, "text") == Some(Str(text))
  }

  /** The result carries the content twice, as it is and as its printed text, and reports no error. */
  ghost predicate Carries(result: Json, content: Json)
  {
    && Member(result, "structuredContent") == Some(content)
    && Member(result, "isError") == Some(Bool(false))
    && exists entry :: Member(result, "content") == Some(Arr([entry])) && IsTextEntry(entry, Dump(content))
  }

  /** The report tells the mode and both sizes. */
  ghost predicate IsReport(report: Json, mode: string, before: nat, after: nat)
  {
    && Member(report, "mode") == Some(Str(mode))
    && Member(report, "raw_bytes") == Some(Int(before)) && Member(report, "simplified_bytes") == Some(Int(after))
  }

  /** The content is the simplified body with its report. */
  ghost predicate IsRewritten(content: Json, body: Json, deep: bool, mode: string)
  {
    var out := Simplified(body, deep);
    && content.Obj? && (out.Obj? || out.Null?)
    && Member(content, "_simplify_meta").Some?
    && IsReport(Member(content, "_simplify_meta").value, mode, |Dump(body)|, |Dump(out)|)
    && Erase(content, "_simplify_meta") == if out.Obj? then Erase(out, "_simplify_meta") else Obj([])
  }

  /** What the caller of a tool gets for its body: the body rewritten as wished, or else as it is. */
  ghost predicate AnswersWish(result: Json, body: Json, wish: Option<Json>)
  {
    if wish == Some(Str("stripped")) then
      exists content :: Carries(result, content) && IsRewritten(content, body, false, "stripped")
    else if wish == Some(Str("simplified")) then
      exists content :: Carries(result, content) && IsRewritten(content, body, true, "simplified")
    else Carries(result, body)
  }

  lemma WrappedCarries(content: Json)
    ensures Carries(Wrapped(content), content)
  {
    var text, kind := Field("text", Str(Dump(content))), Field("type", Str("text"));
    var entry := Obj([text, kind]);
    LookupTwo(text, kind, "text");
    LookupTwo(text, kind, "type");
    assert IsTextEntry(entry, Dump(content));
    WrappedMember(content, entry, "content");
    WrappedMember(content, entry, "isError");
    WrappedMember(content, entry, "structuredContent");
  }

  lemma WrappedMember(content: Json, entry: Json, key: string)
    requires entry == Obj([Field("text", Str(Dump(content))), Field("type", Str("text"))])
    ensures Member(Wrapped(content), key)
         == if key == "content" then Some(Arr([entry])) else if key == "isError" then Some(Bool(false))
            else if key == "structuredContent" then Some(content) else None
  {
    var a, b, c := Field("content", Arr([entry])), Field("isError", Bool(false)), Field("structuredContent", content);
    LookupThree(a, b, c, key);
  }

  lemma MetaReports(mode: Mode, body: Json, out: Json)
    ensures IsReport(Meta(mode, body, out), ModeText(mode), |Dump(body)|, |Dump(out)|)
  {
    var m, b := Field("mode", Str(ModeText(mode))), Field("raw_bytes", Int(|Dump(body)|));
    var a := Field("simplified_bytes", Int(|Dump(out)|));
    LookupThree(m, b, a, "mode");
    LookupThree(m, b, a, "raw_bytes");
    LookupThree(m, b, a, "simplified_bytes");
  }

  lemma PostProcessRewrites(body: Json, mode: Mode)
    requires mode != Raw && PostProcess(body, mode).Some?
    ensures IsRewritten(PostProcess(body, mode).value, body, mode == Deep, ModeText(mode))
  {
    MetaReports(mode, body, Simplified(body, mode == Deep));
    ReportAddsOnlyItself(body, mode);
  }

  lemma RewritingAnswersWish(body: Json, wish: Option<Json>)
    requires PostProcess(body, ParseMode(wish)).Some?
    ensures AnswersWish(Wrapped(PostProcess(body, ParseMode(wish)).value), body, wish)
  {
    var mode := ParseMode(wish);
    var content := PostProcess(body, mode).value;
    WrappedCarries(content);
    if mode != Raw {
      PostProcessRewrites(body, mode);
      assert Carries(Wrapped(content), content) && IsRewritten(content, body, mode == Deep, ModeText(mode));
    }
  }

  /** The reply to a call, from the call's own members. A tool's error goes out as it is, with the id
      of the request. A tool's body goes out under "structuredContent" and, printed, as the text: as it
      is, or, when "stripped" or "simplified" is wished for, as that mode makes it with its report. */
  lemma CallReply(payload: Json, id: Json, params: Json, around: Surroundings,
                  tool: string, args: Json, target: string, wish: Option<Json>)
    requires Asks(payload, id, "tools/call", params) && SaysCall(params, tool, args, target, wish)
    ensures var handled := HandlePayload(payload, around);
            match around.dispatch(tool, args, target)
            case Err(e) => Fails(handled, id, e)
            case Ok(body) =>
              handled == Throws || exists result :: Returns(handled, id, result) && AnswersWish(result, body, wish)
  {
    AskedCall(payload, id, params, around);
    CallIsRead(params, tool, args, target, wish);
    match around.dispatch(tool, args, target)
    case Err(e) => ResponseTells(Failure(id, e));
    case Ok(body) =>
      if HandlePayload(payload, around) != Throws {
        RewritingAnswersWish(body, wish);
        ResponseTells(Success(id, Wrapped(PostProcess(body, ParseMode(wish)).value)));
      }
  }

  /** Such a reply fails to come exactly when the body is not encodable, or is no object and not null
      although the caller wished for "stripped" or "simplified". */
  lemma CallThrowsBy(payload: Json, id: Json, params: Json, around: Surroundings,
                     tool: string, args: Json, target: string, wish: Option<Json>)
    requires Asks(payload, id, "tools/call", params) && SaysCall(params, tool, args, target, wish)
    ensures HandlePayload(payload, around) == Throws <==>
              match around.dispatch(tool, args, target)
              case Err(_) => false
              case Ok(body) =>
                || !Encodable(body)
                || ((wish == Some(Str("stripped")) || wish == Some(Str("simplified"))) && !body.Obj? && !body.Null?)
  {
    AskedCall(payload, id, params, around);
    CallIsRead(params, tool, args, target, wish);
    CallThrowsIff(id, params, around);
  }

  // ---- The other replies ----

  lemma ComposedText(code: int, plain: string, detail: string)
    requires Describe(code) == plain && detail != ""
    ensures FromCode(code, detail).message == plain + ": " + detail
  {
    assert plain + (": " + detail) == plain + ": " + detail;
  }

  /** A call that names no tool is refused as such. */
  lemma NamelessCallReply(payload: Json, id: Json, params: Json, around: Surroundings, why: string)
    requires Asks(payload, id, "tools/call", params)
    requires forall tool :: Member(params, "name") != Some(Str(tool))
    requires why == "missing or invalid 'name' field"
    ensures Fails(HandlePayload(payload, around), id, ErrorObject(-32602, "Invalid params: " + why, None))
  {
    AskedCall(payload, id, params, around);
    assert ParseCall(params).None?;
    ComposedText(INVALID_PARAMS, "Invalid params", why);
    assert "Invalid params" + ": " == "Invalid params: ";
    ResponseTells(Failure(id, FromCode(INVALID_PARAMS, why)));
  }

  /** A method that is not in the table is refused by its name. */
  lemma UnknownMethodReply(payload: Json, id: Json, name: string, params: Json, around: Surroundings)
    requires Asks(payload, id, name, params)
    requires name != "initialize" && name != "ping" && name != "tools/list" && name != "tools/call"
    ensures Fails(HandlePayload(payload, around), id,
                  ErrorObject(-32601, "Method not found: " + ("unknown method: " + name), None))
  {
    AskedAnswer(payload, id, name, params, around);
    ComposedText(METHOD_NOT_FOUND, "Method not found", "unknown method: " + name);
    assert "Method not found" + ": " == "Method not found: ";
    ResponseTells(Failure(id, FromCode(METHOD_NOT_FOUND, "unknown method: " + name)));
  }

  /** An envelope that is no request is refused with the first thing that is wrong with it. */
  lemma RefusalReply(payload: Json, around: Surroundings, why: string)
    requires !IsRequest(payload)
    requires why == if !payload.Obj? then "envelope must be a JSON object"
                    else if Member(payload, "jsonrpc") != Some(Str("2.0")) then "invalid or missing 'jsonrpc' version"
                    else "missing or non-string 'method' field"
    ensures Fails(HandlePayload(payload, around), Null, ErrorObject(-32600, "Invalid request: " + why, None))
  {
    RequestIsRead(payload);
    assert RequestFromJson(payload) == Err(why);
    ComposedText(INVALID_REQUEST, "Invalid request", why);
    assert "Invalid request" + ": " == "Invalid request: ";
    ResponseTells(Failure(Null, FromCode(INVALID_REQUEST, why)));
  }

  /** What the two other methods of the table answer with. */
  lemma TableReplies(payload: Json, id: Json, name: string, params: Json, around: Surroundings)
    requires Asks(payload, id, name, params)
    ensures name == "ping" ==> Returns(HandlePayload(payload, around), id, Obj([]))
    ensures name == "tools/list" ==>
              exists result ::
                Returns(HandlePayload(payload, around), id, result) && Member(result, "tools") == Some(around.toolList)
  {
    AskedAnswer(payload, id, name, params, around);
    if name == "ping" {
      ResponseTells(Success(id, Obj([])));
    } else if name == "tools/list" {
      var result := Obj([Field("tools", around.toolList)]);
      ResponseTells(Success(id, result));
      assert Member(result, "tools") == Some(around.toolList);
    }
  }

  /** The start-up answer names the protocol version, the server, and a tool list that does not
      change. */
  ghost predicate Introduces(result: Json, name: string, version: string)
  {
    && Member(result, "protocolVersion") == Some(Str("2025-03-26"))
    && (exists info :: Member(result, "serverInfo") == Some(info)
          && Member(info, "name") == Some(Str(name)) && Member(info, "version") == Some(Str(version)))
    && (exists capabilities, tools :: Member(result, "capabilities") == Some(capabilities)
          && Member(capabilities, "tools") == Some(tools) && Member(tools, "listChanged") == Some(Bool(false)))
  }

  lemma InitializeIntroduces(around: Surroundings)
    ensures Introduces(InitializeResult(around), around.name, around.version)
  {
    var name, version := Field("name", Str(around.name)), Field("version", Str(around.version));
    var info, tools := Obj([name, version]), Obj([Field("listChanged", Bool(false))]);
    var capabilities := Obj([Field("tools", tools)]);
    LookupTwo(name, version, "name");
    LookupTwo(name, version, "version");
    var a, b, c := Field("capabilities", capabilities), Field("protocolVersion", Str("2025-03-26")),
                   Field("serverInfo", info);
    LookupThree(a, b, c, "capabilities");
    LookupThree(a, b, c, "protocolVersion");
    LookupThree(a, b, c, "serverInfo");
    assert Member(capabilities, "tools") == Some(tools) && Member(tools, "listChanged") == Some(Bool(false));
  }

  lemma InitializeReply(payload: Json, id: Json, params: Json, around: Surroundings)
    requires Asks(payload, id, "initialize", params)
    ensures exists result ::
              Returns(HandlePayload(payload, around), id, result) && Introduces(result, around.name, around.version)
  {
    AskedAnswer(payload, id, "initialize", params, around);
    InitializeIntroduces(around);
    ResponseTells(Success(id, InitializeResult(around)));
  }
}
