# Sage server: models and proofs

A Dafny model of the C++ MCP server's hard core, in four connected pieces and their
composition. Paths in the table are relative to the repository root.

1. **The response simplifier** (`Simplifier*`). The recursive JSON rewrite with its two modes,
   *stripped* and *deep*. The loops, including the erase-while-iterating pass, are methods proved
   to compute `Simplified`; the algebra, the normal form, the size law and the content law are
   proved about that function. A JSON object is the sequence of its members in iteration order.
2. **The MCP dispatcher and the stdio stream** (`Utf8`, `PrintedText`, `Rpc`, `McpServer`,
   `ToolAnswers`, `AnswerText`, `StdioStream`, `Stdio`). One
   JSON-RPC line in, at most one envelope out, or an exception that ends the read loop. The
   shared writer is a transition system of one reader, any number of publishers and a stopper.
3. **The bridge protocol** (`TxIds`, `Protocol`, `Bridge`, `BridgeMachine`, `BridgeInvariant`,
   `BridgeTheorems`, `RouteHistory`, `Delivery`, `Stranding`). Every lock-held section is a function on
   the shared state, and a method of the class `BridgeServer` is proved to compute it. Dispatching threads, connection handlers and
   a stopping thread interleave these sections arbitrarily; theorems hold of every schedule.
4. **The async job engine** (`Dispatcher`, `JobLog`, `JobBoard`, `Jobs`, `JobMachine`,
   `JobInvariant`, `JobTheorems`, `JobProgress`, `JobOrder`). The class `JobManager` has the loops; a transition system
   interleaves starters, one worker per job and cancellers.
5. **Compositions.** The worker of a remote job waits for a bridge call and settles its job with the
   call's outcome (`Classification`, `Composition`). Session notices and call replies share standard
   output (`Wire`).

In the transition systems a step that is not enabled changes nothing, so every sequence of steps
is a schedule and a theorem about all sequences covers every interleaving. Safety is proved by
one invariant per machine, step by step.

A `char` stands for one byte. The JSON printer throws on text that is not UTF-8, and the model
says where (`JsonValues.Encodable`, `Utf8.Utf8IffEncodes`).

What an operation hands to its caller is stated in literal values and in the members of the message
or record, not through the function that computes it: the values the simplifier drops
(`SimplifierAlgebra.DroppedAreSix`), what a reply to a call carries (`ToolAnswers.CallReply`), what a
`tool_result` says (`Protocol.Says`), what a call returns for each way it can end (`Bridge.Yields`),
how a job ends (`Composition.EndsBy`, `JobBoard.EndsWith`), and which page of a log is read
(`JobLog.IsPageFor`).

## Where the code and its documentation differ

The model follows the code. Where a promise fails, the condition under which it is kept is proved
in both directions, beside an input on which it fails.

- **Label precedence.** The header says a label takes precedence over a session id
  (`server/src/bridge/bridge_server.h:72-73`); the code tries the session id first, and then tests
  label, instance id and project name session by session
  (`server/src/bridge/bridge_server.cpp:98-113`). The label wins exactly when the name is no other
  session's id and no session without that label answers to it (`Bridge.LabelWinsIff`); it loses to
  an id (`Bridge.IdTakesTheLabel`) and may lose to an instance id, by map order
  (`Bridge.InstanceIdMayTakeTheLabel`).
- **Newest-first.** `jobs.list` is described as newest-first (`server/src/main.cpp:604`). Eviction
  moves a live job to the back of the queue. The queue is in creation order throughout a run exactly
  when no eviction of the run meets a live job (`JobOrder.OrderedIffNeverRotates`), one insertion at
  a time as well (`JobOrder.StepKeepsOrderIff`); then every listing is newest-first
  (`JobOrder.ListIsNewestFirst`). Starting 201 jobs before the first ends breaks it
  (`JobOrder.NewestFirstBreaks`). Creation is the moment a job enters the table.
- **Cancelling.** "cancel_requested" as a state lasts until the job settles exactly when the worker
  has made its last report by the time of the cancel (`JobTheorems.CancelStateLastsIff`). As a flag it
  always stays (`JobTheorems.CancelFlagStays`).
- **Waiting.** A `wait` can find its job evicted when it wakes up, and then throws. It never does so
  for a job whose worker is still at work (`JobTheorems.WaitNeverLosesALiveJob`), and in a run that
  creates at most 200 jobs not at all; with 201 it can (`JobOrder.NoWaitThrowsIff`, by the schedule of
  `JobOrder.AWaitThrows`).
- **Stranded entries.** A pending entry can be bound to a session that is already closed and swept. A
  run holds no such entry exactly when no insertion comes after the sweep of its session
  (`Stranding.NeverStrandedIff`); `Stranding.StrandedEntryIsReachable` is a schedule that makes one. What
  still ends it is a result, its time-out, a stop, or the session's id coming back into use
  (`Stranding.StrandingEndsIff`).
- **Stopping.** A stop is to leave no waiting thread behind (`server/src/bridge/bridge_server.cpp:52`),
  but a call already past the running test can insert its entry after the stop's sweep, and then waits
  for its time-out. A stopped bridge never holds an entry exactly when no such insertion happens
  (`Stranding.NeverLeftBehindIff`); `Stranding.LeftBehindIsReachable` is a schedule with one.
- **Connected notices.** The "connected" notice is to be on standard output before the reply of a
  `wait_for_editor` (`server/src/bridge/bridge_server.cpp:384-392`). The session is in the table before
  its callback runs, so a waiter that looks in between may be answered first, and only such a waiter
  (`Wire.WaiterAnswersFirstIff`, with the run of `Wire.WaiterMayAnswerFirst`).
- **Polling.** Following `next_cursor` (`server/src/main.cpp:687-688`) is complete only while at most
  500 entries were appended. `JobLog.PollsAreAdjacentIff` gives the exact condition for two
  consecutive polls, `JobLog.PollingStallsAtTheEnd` what happens at the end of a full buffer.
- **Crash classification.** "editor_crashed" is meant for a vanished editor. A target text that
  matches no editor, or an error the plugin sends, can also hold the word the test looks for;
  `Classification.CrashIff` is exact about that.
- **Answers.** Not every line of input is answered. The read loop dies of a line whose handling
  throws, which is exactly (`Stdio.LineThrowsIff`):
  a line that is no JSON and makes the parser quote bytes that are not UTF-8; a `tools/call` whose
  tool succeeds with a body that is not UTF-8, or, with simplification, with one that is neither an
  object nor null; a `tools/call` whose tool fails with an error text, or with error data
  (`server/src/mcp/types.h:24-36`), that is not UTF-8; an
  `initialize` when the server's name or version, a `tools/list` when the tool list, is not; or an id or
  unknown method name that is not UTF-8, which a parser that checks its input never lets through
  (`Stdio.OnlyToolsAndServerFail`). `McpServer.StrippingAnArrayThrows` and `Stdio.ByteFFKillsReader` are
  calls that do it. All lines are answered exactly when none throws (`StdioStream.EndedAnswersAll`).
- **Collapsing.** The simplifier's comment announces a collapse of `properties` members
  (`server/src/mcp/server.cpp:33-35`). No code does that.

## Model

| member | source | states |
|---|---|---|
| Simplifier.SimplifyValue | server/src/mcp/server.cpp:51-108 | the rewrite in either mode: children first, droppable children left out, in deep mode redundant counts erased afterwards |
| Simplifier.SimplifyMembers | server/src/mcp/server.cpp:52-62 | the member loop keeps the simplified, non-droppable members in order, and the length table holds exactly the arrays that were kept |
| Simplifier.SimplifyElems | server/src/mcp/server.cpp:98-106 | the element loop keeps the simplified, non-droppable elements in order |
| Simplifier.EraseCounts | server/src/mcp/server.cpp:63-94 | erasing while iterating leaves exactly the members that are not redundant, in order |
| SimplifierAlgebra.RedundantIffRepeatsSibling | server/src/mcp/server.cpp:65-90 | a member is erased if and only if it is an integer that repeats the length of the only sibling array, of the sibling array its name refers to, or, for "returned", of any sibling array |
| SimplifierAlgebra.ErasureNeverEmpties | server/src/mcp/server.cpp:63-94 | erasing counts never leaves a non-empty object empty, because the array that is counted stays |
| SimplifierAlgebra.DroppedAreSix | server/src/mcp/server.cpp:40-49 | exactly six values are dropped: null, "", "None", "()", [] and {} |
| SimplifierAlgebra.ModesAgreeOnDropped | server/src/mcp/server.cpp:40-108 | whether a simplified value is droppable, and its length as an array, is the same in both modes at every depth |
| SimplifierAlgebra.PassesAbsorb | server/src/mcp/server.cpp:51-108 | two passes equal one pass in the stronger of the two modes: both modes are idempotent and deep absorbs stripped on either side, on every JSON value |
| SimplifierAlgebra.OutputIsNormal | server/src/mcp/server.cpp:51-108 | every output is in normal form for its mode |
| SimplifierAlgebra.FixedIffNormal | server/src/mcp/server.cpp:51-108 | the values a mode leaves unchanged are exactly its normal forms |
| SimplifierAlgebra.DeepNormalIsNormal | server/src/mcp/server.cpp:51-108 | a normal form of deep mode is one of stripped mode |
| SimplifierAlgebra.OutputHasNoDroppedDescendant | server/src/mcp/server.cpp:40-108 | nothing below the root of an output is null, "", "None", "()", [] or {}, at any position, in both modes |
| SimplifierAlgebra.OutputIsWellFormed | server/src/mcp/server.cpp:51-108 | unique object keys stay unique at every depth |
| SimplifierSize.NeverLonger | server/src/mcp/server.cpp:321-331 | the compact text of the output is never longer than that of the input, and equally long exactly when nothing changed |
| SimplifierContent.StrippedKeepsLeaves | server/src/mcp/server.cpp:51-108 | stripped mode keeps every scalar that is none of null, "", "None" and "()", in document order and under the same object keys, for any root |
| SimplifierContent.DeepOnlyRemovesCounts | server/src/mcp/server.cpp:63-94 | deep mode differs from stripped mode only by integer members, at any depth, that repeat the length of an array their own output object still holds |
| SimplifierContent.CountEqualsLength | server/src/mcp/server.cpp:67-68 | the wrapping read of a 64-bit integer agrees with an array length only when the two numbers are equal |
| Rpc.RequestRoundTrip | server/src/mcp/types.h:61-83 | parsing an envelope the server wrote gives back the request, notification or not |
| ToolAnswers.RequestIsRead | server/src/mcp/types.h:61-73 | an envelope is read exactly when it is a request object, with its own method and id, and {} for missing parameters |
| Rpc.ErrorMembers | server/src/mcp/types.h:24-36 | an error object has the members code, message, data when there is some, and no other (section 5.1 of the JSON-RPC 2.0 specification) |
| McpServer.ReadCall | server/src/mcp/server.cpp:281-314 | tool name, target and mode are read, and the routing and simplifier members taken out of the arguments |
| McpServer.ToolArgumentsAreClean | server/src/mcp/server.cpp:288-314 | no tool ever sees `_editor` or `simplify`, and it sees every other argument as the caller sent it |
| McpServer.AttachReport | server/src/mcp/server.cpp:320-331 | the body after the mode's rewrite with its savings report, or an exception |
| McpServer.ReportedSaving | server/src/mcp/server.cpp:321-331 | every null or object body gets a report whose second size is at most its first, equal exactly when the body was in normal form |
| McpServer.ReportAddsOnlyItself | server/src/mcp/server.cpp:319-331 | in raw mode the body is untouched; otherwise it is the simplified body, apart from the report member alone |
| McpServer.OnToolsCall | server/src/mcp/server.cpp:281-345 | the tools/call handler: invalid name, tool error, wrapped body, or an exception |
| ToolAnswers.CallReply | server/src/mcp/server.cpp:281-345 | the reply to a call, from the call's own members: a tool's error goes out under the request's id; a tool's body goes out as structuredContent and, printed, as the text, with isError false: as it is, or for "stripped" and "simplified" as that mode makes it plus `_simplify_meta` with the mode and both sizes |
| ToolAnswers.CallThrowsBy | server/src/mcp/server.cpp:317-338 | such a reply fails to come exactly when the body is not UTF-8, or is neither an object nor null although "stripped" or "simplified" was asked for |
| ToolAnswers.NamelessCallReply | server/src/mcp/server.cpp:281-286 | a call without a text as name gets error -32602 |
| ToolAnswers.UnknownMethodReply | server/src/mcp/server.cpp:140-143 | a method outside the table gets error -32601 that names it |
| ToolAnswers.RefusalReply | server/src/mcp/types.h:61-73 | an envelope that is no request gets error -32600 with the first thing that is wrong with it, under id null |
| ToolAnswers.TableReplies | server/src/mcp/server.cpp:133-138 | ping gets {}, tools/list the tool list |
| ToolAnswers.InitializeReply | server/src/mcp/server.cpp:159-171 | initialize gets the protocol version, the server's name and version, and a tool list that does not change |
| McpServer.AnswersByMethod | server/src/mcp/server.cpp:133-143 | an answer keeps its id; only tools/call can throw or fail for a method of the table; "method not found" comes exactly from a name outside the table or as the called tool's own error, "invalid params" exactly from a call that names no tool or likewise |
| McpServer.Server.Handle | server/src/mcp/server.cpp:120-144 | a notification never answers and only the initialized one flips the flag; a request gets its answer |
| McpServer.Server.HandleRaw | server/src/mcp/server.cpp:146-157 | an envelope that is no request is answered with "invalid request" |
| McpServer.ResponseHasItsId | server/src/mcp/types.h:90-111 | every response carries its id and exactly one of result and error (section 5 of the JSON-RPC 2.0 specification) |
| McpServer.PayloadAnswer | server/src/mcp/server.cpp:120-157 | no answer exactly for a valid notification (section 4.1 of that specification); an answer carries the request's id, or null when the envelope is no request |
| McpServer.DispatcherThrowsIff | server/src/mcp/server.cpp:317-338 | an exception leaves the dispatcher if and only if a tools/call request gets a body that is not UTF-8, or that is neither an object nor null although simplification was asked for |
| McpServer.StrippingAnArrayThrows | server/src/mcp/server.cpp:319-331 | calling a tool that returns [1] with "simplify": "stripped" throws |
| McpServer.ReportIsEncodable | server/src/mcp/server.cpp:319-338 | a body that prints once still prints after simplifying and reporting |
| JsonValues.DumpIsOneLine | server/src/transport/stdio_mcp.cpp:16-22 | the printed form of every value is a single line (section 7 of RFC 8259 for strings; number texts are visible ASCII by their type) |
| Utf8.Utf8IffEncodes | server/src/mcp/server.cpp:333-338 | the texts the printer accepts are exactly the UTF-8 forms of sequences of Unicode scalar values (section 3 of RFC 3629) |
| PrintedText.DumpIsUtf8 | server/src/mcp/server.cpp:333-338 | a value whose keys and strings are UTF-8 prints as UTF-8, so that the text member of a reply can be printed again |
| AnswerText.AnswerPrintsIff | server/src/mcp/server.cpp:133-143 | an answer can be printed exactly when its id and the texts that go into it can: server name and version, tool list, the called tool's error text and data, the unknown method's name |
| AnswerText.PayloadFailsIff | server/src/mcp/server.cpp:146-157 | the handling of an envelope throws, or yields a reply the printer refuses, exactly when it is a request with an unfit tool body or with one of those texts not UTF-8 |
| StdioStream.SplitRecoversFrames | server/src/transport/stdio_mcp.cpp:16-22 | splitting the stream on line breaks recovers exactly the envelopes written |
| StdioStream.Transport.WriteJson | server/src/transport/stdio_mcp.cpp:16-22 | the output grows by one frame |
| StdioStream.Transport.Run | server/src/transport/stdio_mcp.cpp:24-61 | without other writers the read loop writes exactly the replies owed, in input order, up to the end of input or the first line whose handling throws |
| StdioStream.Transport.Stop | server/src/transport/stdio_mcp.cpp:63-65 | the running flag falls |
| StdioStream.StreamIsExact | server/src/transport/stdio_mcp.cpp:16-65 | under every interleaving of reader, publishers and stop, splitting the output gives the envelopes written, and the responses among them, with the one still held, are those owed for the lines read, in input order |
| StdioStream.EndedAnswersAll | server/src/transport/stdio_mcp.cpp:24-61 | a reader that is never asked to stop finishes with every line answered if and only if no line's handling throws |
| Stdio.HandleWith | server/src/transport/stdio_mcp.cpp:36-57 | handling one line with the server object: skip, parse error, or the dispatcher's answer |
| Stdio.ServerStreamIsExact | server/src/transport/stdio_mcp.cpp:16-65 | under every interleaving splitting the output gives the envelopes written; a reader that is not stopped answers every line that is owed an answer, in order and with its id, or dies at the first line that throws, all earlier ones answered |
| Stdio.LineReply | server/src/transport/stdio_mcp.cpp:36-57 | a line is owed no reply exactly when it is empty or a valid notification; a reply carries the request's id, or null when the line is no JSON or no request, and is error -32700 with the parser's complaint or what the dispatcher replies |
| Stdio.LineThrowsIff | server/src/transport/stdio_mcp.cpp:36-57 | the read loop dies of a line exactly when the line is no JSON and the parser's complaint is not UTF-8, or when it is a request with an unfit tool body or with an id or answer text that is not UTF-8, told from the inputs |
| Stdio.OnlyToolsAndServerFail | server/src/transport/stdio_mcp.cpp:36-57 | when the parser lets only UTF-8 through, a request is never at fault itself: only a tool's body, error text or error data, the server's name or version, or the tool list is |
| Stdio.ErrorKillsReader | server/src/mcp/types.h:24-36 | a called tool whose error text or error data is not UTF-8 kills the reader although the dispatcher replies |
| Stdio.ByteFFKillsReader | server/src/mcp/tool_registry.cpp:130-135 | a tool that fails with the byte FF in its error text, or in its error data, does |
| Stdio.ResponsesOnTheWire | server/src/transport/stdio_mcp.cpp:16-61 | under every interleaving the responses on the wire, with the one still held, are, in input order, one per line read that is owed an answer, each with its own id; only a line that killed the reader goes unanswered |
| TxIds.TxIdRoundTrip | server/src/bridge/bridge_server.cpp:541-546 | a decoder inverts the transaction id of every 64-bit counter value |
| TxIds.TxIdsAliasIff | server/src/bridge/bridge_server.cpp:541-546 | two counter values give the same id exactly when the 64-bit counter cannot tell them apart |
| TxIds.TxIdFitsBuffer | server/src/bridge/bridge_server.cpp:543-544 | the id is "tx-" and sixteen lower-case hexadecimal digits, and with its terminator fits the 32-byte buffer |
| Protocol.EchoNamesTheCall | server/src/bridge/protocol.cpp:81-121 | a reply that copies the call's transaction member is accepted exactly when its success flag is absent or a boolean, and then names that call |
| Protocol.ReplyThrowsIff | server/src/bridge/bridge_server.cpp:443-458 | a success sets its result, or {} when it has none; a result cannot be read exactly when it is a failure whose code is no number or whose message is no string |
| Protocol.ReadsWhatItSays | server/src/bridge/protocol.cpp:81-95 | a tool_result is read as what its members say: a success with its `result` or {}, or a failure with the error object's code and message, or with the default failure; it is not read exactly when they say nothing |
| Protocol.SaysOneThing | server/src/bridge/bridge_server.cpp:443-458 | a tool_result says at most one thing |
| Protocol.ToolCallCarries | server/src/bridge/protocol.cpp:112-121 | the message of a call carries its transaction, its tool and its arguments as given |
| Bridge.ProjectNameIsPrefix | server/src/bridge/bridge_server.cpp:108-112 | the project name is the text before the first '@', and exists exactly when there is one |
| Bridge.BridgeServer.FindByIdOrLabel | server/src/bridge/bridge_server.cpp:96-115 | the search loop finds a session-id hit, else some session that answers to the name, else that there is none |
| Bridge.AnswersToItsNames | server/src/bridge/bridge_server.cpp:105-113 | a session answers to its label, to its instance id and to what stands before the first '@' of its instance id, and to nothing else |
| Bridge.SearchIsSoundAndComplete | server/src/bridge/bridge_server.cpp:96-115 | something is found exactly when a session matches by id, label, instance id or project name; an id hit wins, and the answer is independent of map order when at most one session answers |
| Bridge.LabelWinsIff | server/src/bridge/bridge_server.h:71-73 | a session labelled with the name is found, whatever the map order, exactly when the name is no session id or the id of one labelled so, and no session without that label answers to it |
| Bridge.IdTakesTheLabel | server/src/bridge/bridge_server.cpp:98-101 | two sessions of which one's id is the other's label: the label loses |
| Bridge.InstanceIdMayTakeTheLabel | server/src/bridge/bridge_server.cpp:105-113 | two sessions of which one's instance id is the other's label: the label may lose |
| Bridge.BridgeServer.Choose | server/src/bridge/bridge_server.cpp:157-185 | explicit target, else active session, else the only session, else the error that applies |
| Bridge.BridgeServer.Route | server/src/bridge/bridge_server.cpp:152-201 | the chosen session's socket or the routing error; no shared state changes |
| Bridge.RoutingIsSound | server/src/bridge/bridge_server.cpp:152-201 | on one state of the tables, what the rule yields is a connected session and the one that precedence prescribes; interleaved dispatches are the matter of `RouteHistory` |
| Bridge.RoutingIsComplete | server/src/bridge/bridge_server.cpp:152-201 | on one state of the tables, routing fails exactly when the target names no session, the active session is not connected, or without either the number of sessions is not one |
| Bridge.BridgeServer.SetActiveSession | server/src/bridge/bridge_server.cpp:117-120 | only the active pointer changes |
| Bridge.BridgeServer.NextTxId | server/src/bridge/bridge_server.cpp:541-546 | the id of the old counter value; the counter wraps at 2^64 |
| Bridge.BridgeServer.Insert | server/src/bridge/bridge_server.cpp:205-210 | a new pending entry bound to the session with a fresh promise; an aliased id would count as a promise error |
| Bridge.BridgeServer.EraseAfterTimeout | server/src/bridge/bridge_server.cpp:217-223 | only that entry leaves the table; its promise stays unset |
| Bridge.BridgeServer.HandleToolResult | server/src/bridge/bridge_server.cpp:429-464 | the delivery of the message, proved about in `Bridge.DeliverySets` and `Bridge.DeliveryIgnores` |
| Bridge.DeliverySets | server/src/bridge/bridge_server.cpp:429-464 | a tool_result for a pending transaction sets its promise to exactly what the members say and takes the entry out, and changes no other promise or entry |
| Bridge.DeliveryIgnores | server/src/bridge/bridge_server.cpp:429-464 | a tool_result that says nothing, or names no pending transaction, changes nothing |
| Delivery.SentResultIsReturned | server/src/bridge/bridge_server.cpp:212-225 | in every schedule, when a tool_result arrives for a pending transaction whose call has not given up, that call returns exactly what the message says, whatever comes in between |
| Delivery.SetPromiseIsReturned | server/src/bridge/bridge_server.cpp:212-225 | a call that has not given up when its promise is set returns what it is set to and never times out |
| Delivery.LookingReturnsIt | server/src/bridge/bridge_server.cpp:217-225 | once such a call looks at its promise, it returns, even past its deadline |
| Delivery.GivesUpOnlyUnanswered | server/src/bridge/bridge_server.cpp:217-223 | a call gives up only when its deadline has passed and its promise is not set |
| Bridge.OutcomeByCause | server/src/bridge/bridge_server.cpp:143-226 | what a call returns for each way it can end: the reply's own value, or an error with the code and text of that end; it succeeds exactly for a reply that is a success |
| Bridge.BridgeServer.SweepClosed | server/src/bridge/bridge_server.cpp:278-300 | the erase-while-iterating loop does the sweep and counts exactly the entries it removed |
| Bridge.SweepIsExactFilter | server/src/bridge/bridge_server.cpp:278-300 | the sweep removes and fails precisely the entries of the closed session and touches no other entry or promise |
| Bridge.StopFailsEveryEntry | server/src/bridge/bridge_server.cpp:53-65 | the sweep of a stop empties the table and fails every entry in it, and no other promise |
| Bridge.BridgeServer.SweepOnStop | server/src/bridge/bridge_server.cpp:53-65 | every pending promise is set to "bridge stopped" and the table is empty |
| Bridge.BridgeServer.ExchangeRunning | server/src/bridge/bridge_server.cpp:48 | only the first stopper sees the flag up |
| Bridge.BridgeServer.HandleHello | server/src/bridge/bridge_server.cpp:349-382 | a readable hello registers its session; any other changes nothing |
| Bridge.HelloRegistersIff | server/src/bridge/protocol.cpp:37-55 | a hello registers a session exactly when version and slot are strings and no optional member it carries has another type than the code reads |
| Bridge.HelloKeepsNames | server/src/bridge/bridge_server.cpp:362-377 | the record is filed under the connection's id and keeps every text the hello gives, or "" |
| Bridge.BridgeServer.TakeSession | server/src/bridge/bridge_server.cpp:245-252 | the session leaves the table and its last record is returned |
| Bridge.WaitForSession | server/src/bridge/bridge_server.cpp:514-539 | the wait ends at the first look that finds a stopped bridge, a session of the wanted slot or the deadline passed, and returns a session exactly when that look has one and the flag, read again, is still up |
| BridgeInvariant.InvStep | server/src/bridge/bridge_server.cpp:143-464 | every locked section keeps the invariant that ties tables, promises, threads, connection handlers and event trace together |
| BridgeInvariant.InvAlways | server/src/bridge/bridge_server.cpp:143-464 | the invariant holds after every schedule that draws at most 2^64 ids |
| BridgeTheorems.OneOutcomePerCall | server/src/bridge/bridge_server.cpp:203-225 | no promise is ever set twice, pending promises are unset, a call in flight is pending or answered but not both, and a returned call returned the one value its promise was set to or timed out |
| BridgeTheorems.TransactionsSplit | server/src/bridge/bridge_server.cpp:203-225 | the transaction ids drawn split disjointly into not yet inserted, pending, resolved and timed out |
| BridgeTheorems.NoLeakAfterReturn | server/src/bridge/bridge_server.cpp:212-225 | once a dispatch has returned, its outcome is final and its transaction is pending in no later state |
| BridgeTheorems.RoutingFailureOwnsNothing | server/src/bridge/bridge_server.cpp:147-201 | a call that ended with a routing error drew no transaction id |
| BridgeTheorems.UninterruptedRouting | server/src/bridge/bridge_server.cpp:147-201 | when nothing interferes, the steps of a dispatch choose what the rule yields on the tables as they stand, and change nothing but the call |
| RouteHistory.BoundCallsAreRouted | server/src/bridge/bridge_server.cpp:147-210 | in every schedule a call bound to a session was dispatched with a target, then at its own looks saw that target name the session, or with no target saw it active, or saw no active session and later this only one; after that it saw, at its socket lookup, the session connected over the socket it holds |
| RouteHistory.RoutingErrorsAreRight | server/src/bridge/bridge_server.cpp:147-201 | in every schedule a call that ended with a routing error saw, at its own looks and in the order of the code, what makes that error right |
| RouteHistory.SentCallsAreRouted | server/src/bridge/bridge_server.cpp:187-213 | in every schedule each message sent goes to the session and over the socket its call was led to, after the call drew its transaction and entered it bound to that session |
| RouteHistory.ExplanationsStartWithDispatch | server/src/bridge/bridge_server.cpp:143-150 | each of these explanations starts with the call's own dispatch and target |
| BridgeTheorems.DisconnectIsToldFirst | server/src/bridge/bridge_server.cpp:254-300 | with a callback set, every "editor disconnected" outcome delivered for a session comes after that session's "disconnected" event |
| Wire.NoticePrecedesReply | server/src/bridge/bridge_server.cpp:254-258 | however sessions, calls and writers interleave, the reply of a call that failed because its editor disconnected stands on standard output after the notice of that disconnect |
| Wire.WaiterAnswersFirstIff | server/src/bridge/bridge_server.cpp:379-404 | after any run, a waiter that finds a session may be answered before the session's first "connected" notice if and only if it looks between the registration of the hello and its callback |
| Wire.WaiterMayAnswerFirst | server/src/main.cpp:5022-5028 | a run in which the waiter's fast path does so |
| Bridge.BridgeServer.PublishEvent | server/src/bridge/bridge_server.cpp:259-272 | the event is observed when a callback is set, and nothing else changes |
| Stranding.InsertStrandsIff | server/src/bridge/bridge_server.cpp:203-210 | an insertion leaves an entry bound to a closed and swept session exactly when its session is neither connected nor still to be swept |
| Stranding.OnlyInsertStrands | server/src/bridge/bridge_server.cpp:239-300 | no other step leaves one |
| Stranding.NeverStrandedIff | server/src/bridge/bridge_server.cpp:188-300 | a run never holds such an entry if and only if it never inserts one too late |
| Stranding.StrandingEndsIff | server/src/bridge/bridge_server.cpp:203-464 | in every reachable state exactly these steps end the stranding of an entry: a result for it, its own time-out, the sweep of a stop, or a hello or a close under its session's id |
| Stranding.EntryMayOutliveItsSession | server/src/bridge/bridge_server.cpp:188-210 | wherever a call stands between socket lookup and insertion, a whole close in between leaves such an entry |
| Stranding.StrandedEntryIsReachable | server/src/bridge/bridge_server.cpp:188-210 | for every session there is a schedule from the start that leaves such an entry |
| Stranding.OnlyInsertLeavesBehind | server/src/bridge/bridge_server.cpp:47-65 | only an insertion after the stop's sweep leaves an entry in a stopped bridge |
| Stranding.NeverLeftBehindIff | server/src/bridge/bridge_server.cpp:47-65 | in a whole run a stopped bridge never holds a pending entry if and only if no call inserts after the sweep |
| Stranding.LeftBehindIsReachable | server/src/bridge/bridge_server.cpp:147-210 | a schedule in which a call that passed the running test inserts after the stop |
| Dispatcher.MakePlan | server/src/main.cpp:547-566 | a call goes to the bridge at once when `async` is absent or false, and is detached exactly when it is true and its time-out readable; the tool's own arguments all stay, the server's all go, and the time-out, an hour by default, is clamped to one day |
| JobLog.Append | server/src/main.cpp:391-412 | the append with its cut and its renumbering loop |
| JobLog.AppendRefinesHistory | server/src/main.cpp:391-412 | appending to the buffer is appending to the full history, seen through the 500-entry window |
| JobLog.BufferIsLastEntries | server/src/main.cpp:391-412 | after any number of appends the buffer holds min(500, total) entries, entry i carries number i, and they are the last ones appended |
| JobLog.ReadPage | server/src/main.cpp:181-201 | the page loop returns the stretch of the log from the cursor, up to the limit |
| JobLog.RequestedPageIsFor | server/src/main.cpp:685-699 | for all integers: the page starts at the larger of 0 and the cursor, holds the log from there on as far as the limit allows (at least 1, and 100 when above 500), and `next_cursor` is its end |
| JobLog.PollAdvances | server/src/main.cpp:181-201 | a poll below the log's count reads from the cursor asked for, or from 0 when that is negative, and strictly advances beyond it |
| JobLog.PollingIsComplete | server/src/main.cpp:181-201 | with appends in between and at most 500 in all, following the tool's `next_cursor` from c, with any limits, reads each entry from c to the new cursor once, in order |
| JobLog.PollsAreAdjacentIff | server/src/main.cpp:391-412 | two polls in a row read adjacent stretches of the full history exactly when the buffer dropped nothing between them |
| JobLog.PollingStallsAtTheEnd | server/src/main.cpp:181-201 | a reader at cursor 500 never reads another entry |
| Jobs.JobManager.Trim | server/src/main.cpp:440-453 | the eviction loop ends with the closed form of eviction |
| JobBoard.TrimKeepsBoard | server/src/main.cpp:440-453 | eviction keeps queue and table in step, removes only terminal jobs and changes none it keeps |
| JobBoard.InsertKeepsBoard | server/src/main.cpp:254-258 | a new job survives its own insertion, and only terminal jobs leave for it |
| JobBoard.EvictionIsExact | server/src/main.cpp:440-453 | up to 200 jobs all stay; of more, terminal ones go from the front until 200 are left, unless a live one is met, which moves to the back and ends it; what stays is unchanged |
| Jobs.JobIdRoundTrip | server/src/main.cpp:263-268 | a decoder inverts job ids |
| Jobs.JobIdShape | server/src/main.cpp:263-268 | "job-" and the decimal digits of the number without leading zeros |
| Jobs.JobManager.NextJobId | server/src/main.cpp:263-268 | the id of the incremented 64-bit counter |
| Jobs.JobManager.CreateQueuedRecord | server/src/main.cpp:238-261 | the queued record with its first log entry is in the table, and the board stays consistent |
| Jobs.JobManager.SetState | server/src/main.cpp:275-288 | the record gets the state and a log entry without any guard; a missing job is ignored |
| Jobs.JobManager.Finish | server/src/main.cpp:313-337 | the worker's last section writes result or error object, completion time, final state and log entry; "editor_crashed" exactly for a remote job whose error has code -32001 and the word "disconnected" in its text |
| Jobs.JobManager.Cancel | server/src/main.cpp:203-219 | the flag goes up, a live job's state changes and a terminal one's does not, and the caller sees the new record |
| Jobs.JobManager.Snapshot | server/src/main.cpp:414-438 | the record of a known job, with completion time, target, result and error only when there is one and, for the last two, when asked for, and its last log entry; nothing for an unknown job |
| Jobs.JobManager.List | server/src/main.cpp:149-165 | exactly min(limit, total) jobs, from the back of the queue |
| JobOrder.StepKeepsOrderIff | server/src/main.cpp:440-453 | from a queue in creation order, a step leaves it so exactly when it creates no job whose eviction meets a live one |
| JobOrder.OrderedIffNeverRotates | server/src/main.cpp:440-453 | the queue is in creation order throughout a run if and only if no eviction of the run meets a live job |
| JobOrder.ListingIsNewestFirstIff | server/src/main.cpp:149-165 | a listing is newest-first exactly when the stretch of the queue it shows is in creation order |
| JobOrder.ListIsNewestFirst | server/src/main.cpp:149-165 | as long as no eviction met a live job every listing is newest-first |
| JobOrder.NewestFirstBreaks | server/src/main.cpp:440-453 | after starting 201 jobs, none finished, a whole listing is not newest-first |
| JobOrder.NothingEvictedUpTo200 | server/src/main.cpp:440-453 | up to 200 creations queue and table hold every job created |
| Jobs.JobManager.Logs | server/src/main.cpp:181-201 | the page for the cursor and limit the caller gives, entry by entry; nothing for an unknown job |
| Jobs.Wait | server/src/main.cpp:167-179 | the wait ends at the first wake-up that finds the job no longer live or the deadline passed, reports the record it then finds, and a time-out exactly when the job is still live |
| JobInvariant.InvStep | server/src/main.cpp:203-453 | every locked section keeps the invariant that ties queue, table, workers and log histories together |
| JobInvariant.InvAlways | server/src/main.cpp:203-453 | the invariant holds after every schedule that draws at most 2^64 ids |
| JobTheorems.NoJobEverLost | server/src/main.cpp:238-261 | in every reachable state the queue has no duplicates and exactly the table's keys, every unfinished worker finds its record, and no worker ever took a "not found" exit |
| JobTheorems.LiveJobsStay | server/src/main.cpp:440-453 | a job leaves the table only after its worker finished |
| JobTheorems.EvictedStaysEvicted | server/src/main.cpp:440-453 | an evicted job never comes back |
| JobTheorems.RecordsTellOutcomes | server/src/main.cpp:312-337 | a record is terminal exactly when its worker is done; completed goes with the result and no error, failed and crashed with the outcome's error object and no result, anything else with neither; crashed exactly for a remote job whose error has the code and the word that tell it |
| JobProgress.HistoryTellsProgress | server/src/main.cpp:304-387 | in every schedule a job's history tells, cancel warnings apart, exactly the stages its worker reached, in order: queued, then dispatched, running and waiting for the editor for a remote job, or running for a local one, and at the end how it ended |
| JobTheorems.TerminalIsAbsorbing | server/src/main.cpp:203-219 | once terminal, a job's state, result, error and completion time never change under any later schedule |
| JobTheorems.LogsAreHistories | server/src/main.cpp:391-412 | in every reachable state a job's log is the window on everything ever appended to it |
| JobTheorems.CancelFlagStays | server/src/main.cpp:203-219 | the cancel flag is never lowered |
| JobTheorems.CancelStateLastsIff | server/src/main.cpp:275-288 | after a cancel of a live job its state stays "cancel_requested" in every later state up to its settling if and only if its worker had no report left |
| JobTheorems.WaitNeverLosesALiveJob | server/src/main.cpp:167-179 | a wait throws only for a job that finished and was evicted meanwhile, and reports a time-out exactly when the job's worker is still at work |
| JobOrder.NoWaitThrowsIff | server/src/main.cpp:167-179 | no wait throws in any run that creates at most n jobs, if and only if n is at most 200 |
| JobOrder.AWaitThrows | server/src/main.cpp:173-177 | a schedule of 201 creations in which a waiter finds its finished job evicted |
| Classification.RoutingMessagesHaveNoMark | server/src/bridge/bridge_server.cpp:170-200 | the composed messages of the fixed-text routing errors do not hold the word the crash test looks for |
| Classification.SweepMessageHasMark | server/src/bridge/bridge_server.cpp:284-286 | the composed message of the close sweep does |
| Classification.NoMatchHasMarkIff | server/src/bridge/bridge_server.cpp:160-167 | the message that quotes the caller's target holds that word exactly when the target does |
| Classification.CrashIff | server/src/main.cpp:324-332 | an error is taken for a crash exactly when the close sweep failed the call, or an unmatched target or the plugin's own error text holds that word, the latter with code -32001 |
| Composition.Projects | server/src/main.cpp:290-339 | a schedule of both machines together is a schedule of each |
| Composition.SettledAlways | server/src/main.cpp:310-313 | a finished remote worker settled with what its own bridge call returned |
| Composition.JobEndsByItsCause | server/src/main.cpp:310-337 | in every run of both machines a finished remote job is completed exactly when the plugin replied with a success, and then holds its value; for every other end of its call it is crashed or failed, as that end says, with that end's code and text as its error |
| Composition.SweptJobIsCrashedAndExplained | server/src/bridge/bridge_server.cpp:254-300 | a job whose call the close sweep failed ends "editor_crashed", and its session's "disconnected" event came before the very observation that failed its call |

## Left out

- BridgeInvariant.InvAlways: bounds the transaction ids drawn by 2^64; past that the counter wraps and ids alias (`TxIds.TxIdsAliasIff`).
- JobInvariant.InvAlways: bounds the job ids drawn by 2^64, for the same reason.
- Jobs.Wait: takes the tables the waiter reads as a parameter and asks that the deadline comes in the end; condition-variable wake-ups and real clocks are not modelled, and times are arbitrary numbers.
- Bridge.WaitForSession: takes what the waiter sees each time it holds the lock as a parameter, as `Jobs.Wait` does.
- Bridge.BridgeServer.HandleToolResult: an exception of the JSON library in a callback is modelled as "nothing changes"; what the socket library does with it is not.
- McpServer.OnToolsCall: the tool registry is a parameter that maps a call to its result; `_simplify_meta` is appended where a sorted map would put it at its sorted place.
- Stdio.HandleWith: the JSON parser is a parameter of which nothing is assumed.
- Wire.NoticePrecedesReply: a notice always prints; one with text that is not UTF-8, which the parser of the hello keeps out, would be dropped.
- Utf8.Utf8IffEncodes: the compact printer itself is taken as its library documents it; no parser is proved to invert it.
- SimplifierSize.NeverLonger: speaks of the printed text of any value; a value that is not UTF-8 is never printed.
- Promises and futures as objects: a promise is an entry of a table keyed by transaction id that outlives the pending entry.
- The socket pointer's lifetime: a socket is a number, and sending is one observation of transaction, session and socket that never fails; the message sent is `Protocol.ToolCallMessage`.
- Stack depth and memory: recursion over a JSON value is not bounded.
- Heartbeats, plugin events, welcome and error messages, and session timestamps: no state of the protocol above depends on them.
- Restarting a stopped bridge, and changing the session callback during a run.
- The JSON layout of job views: a `JobView` has the same members as a datatype.
- The state "stale": `isTerminal` knows it, but no code ever sets it.
- The HTTP transport, tool schemas, tool handlers, signal and crash handling, the Unreal plugin and the npm command line: no algorithm of comparable difficulty.
