/** The plugin-server wire messages the bridge consumes and emits. */
module Protocol {
  import opened JsonValues
  import opened Results
  import opened Rpc

  /** A parser's three ends: a message, a refusal with its reason, or an exception of the
      JSON library because a member has another type than the code reads. */
  datatype Parsed<+T> =
    | Message(value: T)
    | Invalid(why: string)
    | TypeError

  /** A string member with a default: absent gives the default, another type throws. */
  function StringOr(j: Json, key: string, default: string): Parsed<string>
  {
    match Member(j, key)
    case None => Message(default)
    case Some(Str(s)) => Message(s)
    case _ => TypeError
  }

  // ---- hello ----

  datatype Hello = Hello(pluginVersion: string, slotId: string, editor: Json)

  function ParseHello(j: Json): Parsed<Hello>
  {
    if !j.Obj? then Invalid("hello: not an object")
    else if !HasString(j, "version") then Invalid("hello: missing or non-string 'version'")
    else if !HasString(j, "slot_id") then Invalid("hello: missing or non-string 'slot_id'")
    else
      match StringOr(j, "plugin_version", "")
      case Message(pluginVersion) =>
        var editor := Member(j, "editor");
        Message(Hello(pluginVersion, Member(j, "slot_id").value.s,
                      if editor.Some? && editor.value.Obj? then editor.value else Obj([])))
      case _ => TypeError
  }

  predicate HasString(j: Json, key: string)
  {
    Member(j, key).Some? && Member(j, key).value.Str?
  }

  // ---- tool_result ----

  datatype ToolReply = ToolReply(txId: string, success: bool, result: Option<Json>, error: Option<Json>)

  function ParseToolResult(j: Json): Parsed<ToolReply>
  {
    if !HasString(j, "tx_id") then Invalid("tool_result: missing or non-string 'tx_id'")
    else
      var txId := Member(j, "tx_id").value.s;
      match Member(j, "success")
      case None => Message(ToolReply(txId, true, Member(j, "result"), Member(j, "error")))
      case Some(Bool(b)) => Message(ToolReply(txId, b, Member(j, "result"), Member(j, "error")))
      case _ => TypeError
  }

  /** A number read into a 32-bit signed integer: the value modulo 2^32. */
  function ToInt32(i: int): int
  {
    var low := i % 0x1_0000_0000;
    if low < 0x8000_0000 then low else low - 0x1_0000_0000
  }

  /** An int member with a default: numbers and booleans convert, another type throws. */
  function IntOr(j: Json, key: string, default: int): Parsed<int>
  {
    match Member(j, key)
    case None => Message(default)
    case Some(Int(i)) => Message(ToInt32(i))
    case Some(Float(_, whole)) => Message(whole)
    case Some(Bool(b)) => Message(if b then 1 else 0)
    case _ => TypeError
  }

  /** What a tool_result sets the waiting call's promise to. */
  function ReplyValue(r: ToolReply): Parsed<ToolResult>
  {
    if r.success then Message(Ok(if r.result.Some? then r.result.value else Obj([])))
    else if r.error.Some? && r.error.value.Obj? then
      match IntOr(r.error.value, "code", GENERIC_SAGE)
      case Message(code) =>
        (match StringOr(r.error.value, "message", "tool failed")
         case Message(text) => Message(Err(ErrorObject(code, text, None)))
         case _ => TypeError)
      case _ => TypeError
    else Message(Err(FromCode(GENERIC_SAGE, "tool failed")))
  }

  /** A result sets a success exactly when its flag says so; it cannot be read exactly when it is
      a failure whose error object has a code that is no number or a message that is no string. */
  lemma ReplyThrowsIff(r: ToolReply)
    ensures ReplyValue(r).Message? && ReplyValue(r).value.Ok? <==> r.success
    ensures r.success ==> ReplyValue(r) == Message(Ok(OrElse(r.result, Obj([]))))
    ensures !ReplyValue(r).Message? <==>
              && !r.success && r.error.Some? && r.error.value.Obj?
              && (!IntOr(r.error.value, "code", 0).Message? || !StringOr(r.error.value, "message", "").Message?)
    ensures !r.success && ReplyValue(r).Message? && r.error.Some? && HasString(r.error.value, "message") ==>
              Some(Str(ReplyValue(r).value.error.message)) == Member(r.error.value, "message")
  {
  }

  /** A tool_result as its members tell it: the transaction it names and what it says. Absent, the flag
      means success, the result is {}, the code is -32000 and the text is "tool failed"; a failure
      without an error object says so in the server's words. */
  ghost predicate Says(j: Json, tx: string, result: ToolResult)
  {
    && Member(j, "tx_id") == Some(Str(tx))
    && match Member(j, "success")
       case None => result == Ok(OrElse(Member(j, "result"), Obj([])))
       case Some(Bool(true)) => result == Ok(OrElse(Member(j, "result"), Obj([])))
       case Some(Bool(false)) => result.Err? && SaysFailure(Member(j, "error"), result.error)
       case _ => false
  }

  ghost predicate SaysFailure(error: Option<Json>, e: ErrorObject)
  {
    && e.data.None?
    && match error
       case Some(Obj(fs)) =>
         && SaysInt(Member(Obj(fs), "code"), -32000, e.code)
         && OrElse(Member(Obj(fs), "message"), Str("tool failed")) == Str(e.message)
       case _ => e.code == -32000 && e.message == "Generic Sage error: tool failed"
  }

  /** The 32-bit integer a member is read as: the default when there is none, an integer modulo 2^32
      into the signed range, a float cut to its integer, and 0 or 1 for a boolean. */
  ghost predicate SaysInt(v: Option<Json>, default: int, n: int)
  {
    match v
    case None => n == default
    case Some(Int(i)) =>
      -0x8000_0000 <= n < 0x8000_0000 && exists k: int {:trigger k * 0x1_0000_0000} :: i == n + k * 0x1_0000_0000
    case Some(Float(_, whole)) => n == whole
    case Some(Bool(b)) => n == if b then 1 else 0
    case _ => false
  }

  lemma IntIsRead(j: Json, key: string, default: int)
    ensures var read := IntOr(j, key, default);
            && (read.Message? ==> SaysInt(Member(j, key), default, read.value))
            && (!read.Message? ==> forall n :: !SaysInt(Member(j, key), default, n))
  {
    match Member(j, key)
    case Some(Int(i)) =>
      var low, k := i % 0x1_0000_0000, i / 0x1_0000_0000;
      assert i == low + k * 0x1_0000_0000;
      assert low >= 0x8000_0000 ==> i == (low - 0x1_0000_0000) + (k + 1) * 0x1_0000_0000;
    case _ =>
  }

  /** What a tool_result is read as: the transaction and the value that its members say, or nothing
      when they say none. */
  function ReadToolResult(j: Json): Option<(string, ToolResult)>
  {
    match ParseToolResult(j)
    case Message(r) =>
      (match ReplyValue(r)
       case Message(value) => Some((r.txId, value))
       case _ => None)
    case _ => None
  }

  lemma ReadsWhatItSays(j: Json)
    ensures ReadToolResult(j).Some? ==> Says(j, ReadToolResult(j).value.0, ReadToolResult(j).value.1)
    ensures ReadToolResult(j).None? ==> forall tx, result :: !Says(j, tx, result)
  {
    var parsed := ParseToolResult(j);
    if parsed.Message? && !parsed.value.success {
      FailureIsRead(parsed.value);
    }
  }

  lemma DefaultFailureText()
    ensures FromCode(GENERIC_SAGE, "tool failed").message == "Generic Sage error: tool failed"
  {
    assert "Generic Sage error" + (": " + "tool failed") == "Generic Sage error: tool failed";
  }

  lemma FailureIsRead(r: ToolReply)
    requires !r.success
    ensures ReplyValue(r).Message? ==> ReplyValue(r).value.Err? && SaysFailure(r.error, ReplyValue(r).value.error)
    ensures !ReplyValue(r).Message? ==> forall e :: !SaysFailure(r.error, e)
  {
    DefaultFailureText();
    if r.error.Some? && r.error.value.Obj? {
      IntIsRead(r.error.value, "code", GENERIC_SAGE);
    }
  }

  lemma SaysOneInt(v: Option<Json>, default: int, m: int, n: int)
    requires SaysInt(v, default, m) && SaysInt(v, default, n)
    ensures m == n
  {
    if v.Some? && v.value.Int? {
      var j: int :| v.value.i == m + j * 0x1_0000_0000;
      var k: int :| v.value.i == n + k * 0x1_0000_0000;
      assert m - n == (k - j) * 0x1_0000_0000;
    }
  }

  /** A tool_result says at most one thing. */
  lemma SaysOneThing(j: Json, tx: string, result: ToolResult, tx': string, result': ToolResult)
    requires Says(j, tx, result) && Says(j, tx', result')
    ensures tx == tx' && result == result'
  {
    if result.Err? && Member(j, "error").Some? && Member(j, "error").value.Obj? {
      SaysOneInt(Member(Member(j, "error").value, "code"), -32000, result.error.code, result'.error.code);
    }
  }

  // ---- tool_call ----

  function ToolCallMessage(txId: string, tool: string, args: Json): Json
  {
    Obj([Field("args", args), Field("tool", Str(tool)), Field("tx_id", Str(txId)), Field("type", Str("tool_call"))])
  }

  lemma ToolCallMember(txId: string, tool: string, args: Json, key: string)
    ensures Member(ToolCallMessage(txId, tool, args), key)
         == if key == "args" then Some(args) else if key == "tool" then Some(Str(tool))
            else if key == "tx_id" then Some(Str(txId)) else if key == "type" then Some(Str("tool_call")) else None
  {
    var a, b := Field("args", args), Field("tool", Str(tool));
    var c, d := Field("tx_id", Str(txId)), Field("type", Str("tool_call"));
    LookupFour(a, b, c, d, key);
    LookupThree(b, c, d, key);
  }

  /** The message of a call names its transaction, its tool and its arguments as the caller gave them. */
  lemma ToolCallCarries(txId: string, tool: string, args: Json)
    ensures var m := ToolCallMessage(txId, tool, args);
            && Member(m, "tx_id") == Some(Str(txId)) && Member(m, "tool") == Some(Str(tool))
            && Member(m, "args") == Some(args) && Member(m, "type") == Some(Str("tool_call"))
  {
    ToolCallMember(txId, tool, args, "tx_id");
    ToolCallMember(txId, tool, args, "tool");
    ToolCallMember(txId, tool, args, "args");
    ToolCallMember(txId, tool, args, "type");
  }

  /** A reply that copies the call's tx_id member, and whose success flag is absent or a
      boolean, names exactly the transaction the call was sent under. */
  lemma EchoNamesTheCall(txId: string, tool: string, args: Json, reply: Json)
    requires reply.Obj?
    requires Member(reply, "tx_id") == Member(ToolCallMessage(txId, tool, args), "tx_id")
    ensures ParseToolResult(reply).Message? <==>
              Member(reply, "success").None? || Member(reply, "success").value.Bool?
    ensures ParseToolResult(reply).Message? ==> ParseToolResult(reply).value.txId == txId
  {
    ToolCallCarries(txId, tool, args);
  }
}
