/** The stdio transport: a read loop and a notification publisher share one line-framed
    output stream. */
module Stdio {
  import opened AnswerText
  import opened JsonValues
  import opened Results
  import opened Rpc
  import opened McpServer
  import opened StdioStream
  import opened ToolAnswers

  /** The JSON parser: a value, or the text of the exception it throws. */
  type Parser = string -> Result<Json, string>

  function ParseErrorEnvelope(why: string): Json
  {
    ResponseToJson(Failure(Null, ErrorObject(PARSE_ERROR, "Parse error: " + why, None)))
  }

  /** A reply that the printer refuses makes the writer throw. */
  function Printed(handled: Handled): (r: Handled)
    ensures r.Reply? ==> Encodable(r.envelope)
  {
    if handled.Reply? && !Encodable(handled.envelope) then Throws else handled
  }

  function HandleLine(line: Line, parse: Parser): (r: Handled)
    ensures r.Reply? ==> Encodable(r.envelope)
  {
    if line.text == "" then Silent
    else
      match parse(line.text)
      case Err(why) => Printed(Reply(ParseErrorEnvelope(why)))
      case Ok(payload) => Printed(HandlePayload(payload, line.around))
  }

  function HandlerOf(parse: Parser): Handler
  {
    line => HandleLine(line, parse)
  }

  /** Handling one line with the MCP server object computes that handler. */
  method HandleWith(server: Server, line: Line, parse: Parser) returns (handled: Handled)
    modifies server
    ensures handled == HandleLine(line, parse)
  {
    if line.text == "" {
      return Silent;
    }
    var payload := parse(line.text);
    match payload
    case Err(why) => handled := Printed(Reply(ParseErrorEnvelope(why)));
    case Ok(j) =>
      handled := server.HandleRaw(j, line.around);
      handled := Printed(handled);
  }

  // ---- Ids ----

  /** The id a line's reply must carry, by sections 4.1 and 5 of the JSON-RPC 2.0 specification:
      none for an empty line or a notification, null when the line is no JSON or no request. */
  ghost function OwedId(line: Line, parse: Parser): Option<Json>
  {
    if line.text == "" then None
    else
      match parse(line.text)
      case Err(_) => Some(Null)
      case Ok(payload) => if IsRequest(payload) then Member(payload, "id") else Some(Null)
  }

  /** A line is owed no reply exactly when it is empty or a valid notification; a reply carries
      the request's id, or null when the line is no JSON or no request. It is a parse error, or what
      the dispatcher replies. */
  lemma LineReply(line: Line, parse: Parser)
    ensures HandleLine(line, parse) == Silent <==> OwedId(line, parse).None?
    ensures OwedId(line, parse).None? <==>
              line.text == "" || (parse(line.text).Ok? && IsNotification(parse(line.text).value))
    ensures HandleLine(line, parse).Reply? ==>
              OwedId(line, parse).Some? && IsResponseTo(HandleLine(line, parse).envelope, OwedId(line, parse).value)
    ensures HandleLine(line, parse).Reply? ==>
              match parse(line.text)
              case Err(why) => Fails(HandleLine(line, parse), Null, ErrorObject(-32700, "Parse error: " + why, None))
              case Ok(payload) => HandleLine(line, parse) == HandlePayload(payload, line.around)
  {
    if line.text != "" {
      match parse(line.text)
      case Err(why) =>
        ResponseTells(Failure(Null, ErrorObject(PARSE_ERROR, "Parse error: " + why, None)));
      case Ok(payload) =>
        PayloadAnswer(payload, line.around);
    }
  }

  // ---- Lines that kill the reader ----

  lemma ParseErrorPrefixIsAscii()
    ensures IsAscii("Parse error: ")
  {
  }

  lemma ParseErrorPrintsIff(why: string)
    ensures Encodable(ParseErrorEnvelope(why)) <==> IsUtf8(why)
  {
    ParseErrorPrefixIsAscii();
    AsciiPrefix("Parse error: ", why);
    FailurePrintsIff(Null, ErrorObject(PARSE_ERROR, "Parse error: " + why, None));
  }

  /** The read loop dies of a line exactly when the line is no JSON and the parser's complaint,
      which quotes it, is not UTF-8, or when the line is a request that cannot be answered. */
  lemma LineThrowsIff(line: Line, parse: Parser)
    ensures HandleLine(line, parse) == Throws <==>
              && line.text != ""
              && match parse(line.text)
                 case Err(why) => !IsUtf8(why)
                 case Ok(payload) =>
                   RequestFromJson(payload).Ok? && CannotAnswer(RequestFromJson(payload).value, line.around)
  {
    if line.text != "" {
      match parse(line.text)
      case Err(why) => ParseErrorPrintsIff(why);
      case Ok(payload) => PayloadFailsIff(payload, line.around);
    }
  }

  /** What a parser that lets only UTF-8 through yields as id and method is UTF-8. */
  lemma ParsedTextsAreUtf8(payload: Json, r: Request)
    requires Encodable(payload) && RequestFromJson(payload) == Ok(r)
    ensures r.id.Some? ==> Encodable(r.id.value)
    ensures IsUtf8(r.name)
  {
    assert r.id.Some? ==> Field("id", r.id.value) in payload.fields;
    var named := Field("method", Str(r.name));
    assert named in payload.fields;
    assert Encodable(named.val);
  }

  /** A request is never at fault itself when the parser lets only UTF-8 through: what it cannot
      have answered is a tool's body, error text or error data, the server's name or version, or the
      tool list. */
  lemma OnlyToolsAndServerFail(payload: Json, r: Request, around: Surroundings)
    requires Encodable(payload) && RequestFromJson(payload) == Ok(r) && r.id.Some?
    ensures CannotAnswer(r, around) <==>
              || (r.name == "tools/call" && (BodyIsUnfit(r.params, around) || !CallErrorPrints(r.params, around)))
              || (r.name == "initialize" && (!IsUtf8(around.name) || !IsUtf8(around.version)))
              || (r.name == "tools/list" && !Encodable(around.toolList))
  {
    ParsedTextsAreUtf8(payload, r);
    CannotAnswerByName(r, around);
  }

  lemma CannotAnswerByName(r: Request, around: Surroundings)
    requires r.id.Some? && Encodable(r.id.value) && IsUtf8(r.name)
    ensures CannotAnswer(r, around) <==>
              || (r.name == "tools/call" && (BodyIsUnfit(r.params, around) || !CallErrorPrints(r.params, around)))
              || (r.name == "initialize" && (!IsUtf8(around.name) || !IsUtf8(around.version)))
              || (r.name == "tools/list" && !Encodable(around.toolList))
  {
  }

  /** A called tool whose error text or error data is not UTF-8 kills the reader, although nothing
      throws before the reply is printed. */
  lemma ErrorKillsReader(line: Line, parse: Parser, r: Request, call: Call, e: ErrorObject)
    requires line.text != "" && parse(line.text) == Ok(RequestToJson(r))
    requires r.id.Some? && r.name == "tools/call" && ParseCall(r.params) == Some(call)
    requires line.around.dispatch(call.tool, call.args, call.target) == Err(e) && !ErrorPrints(e)
    ensures HandlePayload(parse(line.text).value, line.around).Reply?
    ensures HandleLine(line, parse) == Throws
  {
    RequestRoundTrip(r);
    LineThrowsIff(line, parse);
  }

  /** It does occur: tool "t" fails with the byte FF in its text, or in its data. */
  lemma ByteFFKillsReader(line: Line, parse: Parser, request: Request, e: ErrorObject, bad: string)
    requires bad == [0xFF as char]
    requires request == Request("tools/call", StrippingParams(), Some(Int(1)))
    requires e == ErrorObject(INTERNAL_ERROR, bad, None) || e == ErrorObject(INTERNAL_ERROR, "x", Some(Str(bad)))
    requires line.text != "" && parse(line.text) == Ok(RequestToJson(request))
    requires line.around.dispatch("t", Obj([]), "") == Err(e)
    ensures HandleLine(line, parse) == Throws
  {
    StrippingCall();
    assert CharLength(bad) == 0;
    ErrorKillsReader(line, parse, request, Call("t", Obj([]), "", Stripped), e);
  }

  // ---- The ids on the wire ----

  /** The ids owed for a stretch of input, in input order. */
  ghost function OwedIds(lines: seq<Line>, parse: Parser): seq<Json>
  {
    if lines == [] then []
    else
      var id := OwedId(lines[|lines| - 1], parse);
      OwedIds(lines[..|lines| - 1], parse) + if id.Some? then [id.value] else []
  }

  /** These envelopes are responses to these ids, one by one. */
  ghost predicate AreResponsesTo(envelopes: seq<Json>, ids: seq<Json>)
  {
    |envelopes| == |ids| && forall i | 0 <= i < |ids| :: IsResponseTo(envelopes[i], ids[i])
  }

  lemma {:induction false} RepliesCarryOwedIds(lines: seq<Line>, parse: Parser)
    requires forall line | line in lines :: HandleLine(line, parse) != Throws
    ensures AreResponsesTo(Replies(lines, HandlerOf(parse)), OwedIds(lines, parse))
  {
    if lines != [] {
      var init, last := lines[..|lines| - 1], lines[|lines| - 1];
      RepliesCarryOwedIds(init, parse);
      LineReply(last, parse);
    }
  }

  /** How many of the lines read so far did not throw. */
  function Answered(s: State): nat
  {
    if s.phase.Crashed? && s.next > 0 then s.next - 1 else s.next
  }

  lemma AnsweredLinesDoNotThrow(s: State, lines: seq<Line>, parse: Parser)
    requires s.next <= |lines| && OnlyLastThrows(s.next, s.phase, lines, HandlerOf(parse))
    ensures forall line | line in lines[..Answered(s)] :: HandleLine(line, parse) != Throws
  {
    forall line | line in lines[..Answered(s)] ensures HandleLine(line, parse) != Throws {
      var i :| 0 <= i < Answered(s) && lines[i] == line;
      assert HandlerOf(parse)(lines[i]) != Throws;
    }
  }

  lemma CrashedLineHasNoReply(s: State, lines: seq<Line>, handle: Handler)
    requires s.next <= |lines| && OnlyLastThrows(s.next, s.phase, lines, handle)
    ensures Replies(lines[..s.next], handle) == Replies(lines[..Answered(s)], handle)
  {
    if s.phase.Crashed? {
      RepliesSnoc(lines, s.next - 1, handle);
      assert Replies(lines[..s.next - 1], handle) + [] == Replies(lines[..s.next - 1], handle);
    }
  }

  /** Under every interleaving the responses on the wire, with the one still held, answer in
      input order exactly the lines read so far that are owed an answer, each with its own id;
      only a line that killed the reader goes unanswered. */
  lemma ResponsesOnTheWire(steps: seq<Step>, lines: seq<Line>, parse: Parser)
    ensures var s := Exec(steps, lines, HandlerOf(parse));
            && s.next <= |lines|
            && (s.phase.Crashed? ==> s.next > 0)
            && AreResponsesTo(Responses(s.log) + Held(s.phase), OwedIds(lines[..Answered(s)], parse))
  {
    var s := Exec(steps, lines, HandlerOf(parse));
    InvAlways(steps, lines, HandlerOf(parse));
    AnsweredLinesDoNotThrow(s, lines, parse);
    CrashedLineHasNoReply(s, lines, HandlerOf(parse));
    RepliesCarryOwedIds(lines[..Answered(s)], parse);
  }

  // ---- The stream of this handler ----

  /** The reader died at the last line it read, which threw, and at no earlier one. */
  ghost predicate DiedAt(s: State, lines: seq<Line>, parse: Parser)
  {
    && 0 < s.next <= |lines| && HandleLine(lines[s.next - 1], parse) == Throws
    && forall i | 0 <= i < s.next - 1 :: HandleLine(lines[i], parse) != Throws
  }

  lemma CrashedHasDied(s: State, lines: seq<Line>, parse: Parser)
    requires s.phase.Crashed? && s.next <= |lines| && OnlyLastThrows(s.next, s.phase, lines, HandlerOf(parse))
    ensures DiedAt(s, lines, parse)
  {
    var handle := HandlerOf(parse);
    assert forall i | 0 <= i < s.next :: HandleLine(lines[i], parse) == handle(lines[i]);
  }

  lemma NothingHeld(s: State)
    requires s.phase.Ended? || s.phase.Crashed?
    ensures Responses(s.log) + Held(s.phase) == Responses(s.log)
  {
  }

  /** Under every interleaving splitting standard output on line breaks gives back exactly the
      envelopes written, and a reader that is never asked to stop either answers every line that
      is owed an answer, in input order and with its id, or dies at the first line that throws. */
  lemma ServerStreamIsExact(steps: seq<Step>, lines: seq<Line>, parse: Parser)
    ensures var s := Exec(steps, lines, HandlerOf(parse));
            && SplitLines(s.stdout) == (Dumps(Envelopes(s.log)), "")
            && (NoStop(steps) && s.phase.Ended? ==> AreResponsesTo(Responses(s.log), OwedIds(lines, parse)))
            && (s.phase.Crashed? ==>
                  DiedAt(s, lines, parse) && AreResponsesTo(Responses(s.log), OwedIds(lines[..s.next - 1], parse)))
  {
    var handle := HandlerOf(parse);
    var s := Exec(steps, lines, handle);
    StreamIsExact(steps, lines, handle);
    ResponsesOnTheWire(steps, lines, parse);
    if s.phase.Ended? || s.phase.Crashed? {
      InvAlways(steps, lines, handle);
      NothingHeld(s);
      if s.phase.Crashed? {
        CrashedHasDied(s, lines, parse);
      } else if NoStop(steps) {
        NeverStopped(steps, lines, handle);
        assert lines[..|lines|] == lines;
      }
    }
  }
}
