/** The bridge's shared state and its lock-held sections: each section is a function on the
    shared state, and a method of the server object proved to compute it. */
module Bridge {
  import opened Encodings
  import opened JsonValues
  import opened Protocol
  import opened Results
  import opened Rpc
  import opened TxIds

  // ---- Sessions and routing ----

  datatype EditorSession = EditorSession(
    sessionId: string,
    slotId: string,
    instanceId: string,
    labelText: string,
    projectId: string,
    projectPath: string,
    engineVersion: string,
    pluginVersion: string,
    ws: nat)

  type Sessions = map<string, EditorSession>

  /** The part of an instance id before its first '@', if it has one. */
  function ProjectName(instanceId: string): Option<string>
  {
    if instanceId == "" then None
    else if instanceId[0] == '@' then Some("")
    else
      match ProjectName(instanceId[1..])
      case None => None
      case Some(rest) => Some([instanceId[0]] + rest)
  }

  /** The name is the text before the first '@'. */
  lemma {:induction false} ProjectNameIsPrefix(instanceId: string)
    ensures ProjectName(instanceId).None? <==> '@' !in instanceId
    ensures ProjectName(instanceId).Some? ==>
              var name := ProjectName(instanceId).value;
              '@' !in name && name + "@" <= instanceId
  {
    if instanceId != "" && instanceId[0] != '@' {
      ProjectNameIsPrefix(instanceId[1..]);
      assert instanceId == [instanceId[0]] + instanceId[1..];
    }
  }

  predicate InSlot(s: EditorSession, slot: Option<string>)
  {
    slot.None? || s.slotId == slot.value
  }

  predicate Answers(s: EditorSession, name: string)
  {
    || s.labelText == name
    || s.instanceId == name
    || ProjectName(s.instanceId) == Some(name)
  }

  /** The results the search may return: a session-id hit always wins; otherwise any session
      that answers to the name; nothing only when none does. */
  ghost predicate Finds(sessions: Sessions, name: string, r: Option<EditorSession>)
  {
    if name in sessions then r == Some(sessions[name])
    else
      match r
      case Some(s) => s in sessions.Values && Answers(s, name)
      case None => forall s | s in sessions.Values :: !Answers(s, name)
  }

  /** A session answers to its label, to its instance id, and to what stands before the first '@' of
      its instance id. */
  lemma AnswersToItsNames(s: EditorSession, name: string)
    ensures Answers(s, name) <==>
              s.labelText == name || s.instanceId == name || ('@' !in name && name + "@" <= s.instanceId)
  {
    ProjectNameIsPrefix(s.instanceId);
    if '@' !in name && name + "@" <= s.instanceId {
      PrefixBeforeAt(s.instanceId, name);
    }
  }

  lemma {:induction false} PrefixBeforeAt(instanceId: string, name: string)
    requires '@' !in name && name + "@" <= instanceId
    ensures ProjectName(instanceId) == Some(name)
  {
    assert instanceId[|name|] == '@';
    if name != "" {
      assert instanceId[0] == name[0] && name[0] in name;
      assert name[1..] + "@" <= instanceId[1..];
      PrefixBeforeAt(instanceId[1..], name[1..]);
      assert [instanceId[0]] + name[1..] == name;
    }
  }

  /** The search finds something exactly when some session matches by id, label, instance id
      or project name; a match by id wins, and the answer does not depend on the order in which it
      meets the sessions when at most one of them answers. */
  lemma SearchIsSoundAndComplete(sessions: Sessions, name: string, r: Option<EditorSession>)
    requires Finds(sessions, name, r)
    ensures name in sessions ==> r == Some(sessions[name])
    ensures r.Some? && name !in sessions ==>
              var s := r.value;
              && s in sessions.Values
              && (s.labelText == name || s.instanceId == name || ('@' !in name && name + "@" <= s.instanceId))
    ensures r.None? ==>
              name !in sessions && forall s | s in sessions.Values ::
                s.labelText != name && s.instanceId != name && ('@' in name || !(name + "@" <= s.instanceId))
    ensures forall r' | Finds(sessions, name, r') ::
              && r'.Some? == r.Some?
              && ((forall s, t | s in sessions.Values && t in sessions.Values ::
                     Answers(s, name) && Answers(t, name) ==> s == t) ==> r' == r)
  {
    if name !in sessions {
      if r.Some? {
        AnswersToItsNames(r.value, name);
      } else {
        forall s | s in sessions.Values
          ensures s.labelText != name && s.instanceId != name && ('@' in name || !(name + "@" <= s.instanceId))
        {
          AnswersToItsNames(s, name);
        }
      }
    }
  }

  // ---- Label precedence ----

  ghost predicate HasLabel(sessions: Sessions, name: string)
  {
    exists s :: s in sessions.Values && s.labelText == name
  }

  /** What a caller who reads the header expects of a name that some session is labelled with:
      whatever the order of the search, a session labelled so is found. */
  ghost predicate LabelWins(sessions: Sessions, name: string)
  {
    forall r :: Finds(sessions, name, r) ==> r.Some? && r.value.labelText == name
  }

  /** The label wins exactly when the name is no session id, or the id of a session labelled so,
      and no session without that label answers to the name. */
  lemma LabelWinsIff(sessions: Sessions, name: string)
    requires HasLabel(sessions, name)
    ensures LabelWins(sessions, name) <==>
              if name in sessions then sessions[name].labelText == name
              else forall s | s in sessions.Values && Answers(s, name) :: s.labelText == name
  {
    if name in sessions {
      assert Finds(sessions, name, Some(sessions[name]));
    } else {
      forall s | LabelWins(sessions, name) && s in sessions.Values && Answers(s, name)
        ensures s.labelText == name
      {
        assert Finds(sessions, name, Some(s));
      }
    }
  }

  function Named(id: string, labelText: string, instanceId: string): EditorSession
  {
    EditorSession(id, "slot", instanceId, labelText, "", "", "", "", 0)
  }

  /** A session whose id is another one's label takes the name. */
  lemma IdTakesTheLabel()
    ensures var sessions := map["1" := Named("1", "2", "a"), "2" := Named("2", "b", "c")];
            HasLabel(sessions, "2") && !LabelWins(sessions, "2")
  {
    var sessions := map["1" := Named("1", "2", "a"), "2" := Named("2", "b", "c")];
    assert sessions["1"] in sessions.Values;
    LabelWinsIff(sessions, "2");
  }

  /** So may a session whose instance id is another one's label: then map order decides. */
  lemma InstanceIdMayTakeTheLabel()
    ensures var sessions := map["1" := Named("1", "Kale", "a"), "2" := Named("2", "b", "Kale")];
            HasLabel(sessions, "Kale") && !LabelWins(sessions, "Kale")
  {
    var sessions := map["1" := Named("1", "Kale", "a"), "2" := Named("2", "b", "Kale")];
    assert sessions["1"] in sessions.Values && sessions["2"] in sessions.Values;
    assert Answers(sessions["2"], "Kale") && sessions["2"].labelText == "b";
    LabelWinsIff(sessions, "Kale");
  }

  // ---- Choosing and routing ----

  /** The target a call is bound to when nothing interferes: the explicit target if one is
      given, else the active session, else the only connected session. */
  ghost predicate Chooses(sessions: Sessions, active: string, target: string, r: Result<string, Cause>)
  {
    if target != "" then
      exists found :: Finds(sessions, target, found)
        && r == if found.Some? then Ok(found.value.sessionId) else Err(NoMatch(target))
    else if active != "" then r == Ok(active)
    else if r.Ok? then
      exists id :: sessions.Keys == {id} && r.value == sessions[id].sessionId
    else
      && (forall id :: sessions.Keys != {id})
      && r.error == (if sessions == map[] then NoPlugin else Ambiguous)
  }

  /** The socket of the chosen session, or why there is none. */
  ghost predicate Routes(sessions: Sessions, active: string, target: string, r: Result<(string, nat), Cause>)
  {
    exists choice :: Chooses(sessions, active, target, choice)
      && r == match choice
              case Err(cause) => Err(cause)
              case Ok(id) => if id in sessions then Ok((id, sessions[id].ws)) else Err(Gone)
  }

  /** On one state of the tables the rule yields only a connected session: one that goes by the
      explicit target if there is one, else the active session, else the only session. */
  lemma RoutingIsSound(sessions: Sessions, active: string, target: string, r: Result<(string, nat), Cause>)
    requires forall id | id in sessions :: sessions[id].sessionId == id
    requires Routes(sessions, active, target, r)
    ensures r.Ok? ==> r.value.0 in sessions && r.value.1 == sessions[r.value.0].ws
    ensures r.Ok? && target != "" ==> r.value.0 == target || Answers(sessions[r.value.0], target)
    ensures r.Ok? && target != "" && target in sessions ==> r.value.0 == target
    ensures r.Ok? && target == "" && active != "" ==> r.value.0 == active
    ensures r.Ok? && target == "" && active == "" ==> sessions.Keys == {r.value.0}
  {
  }

  /** A call fails to route exactly when the target names no session, the active session is not
      connected, or without either the number of connected sessions is not one. */
  lemma RoutingIsComplete(sessions: Sessions, active: string, target: string, r: Result<(string, nat), Cause>)
    requires forall id | id in sessions :: sessions[id].sessionId == id
    requires Routes(sessions, active, target, r)
    ensures r.Err? <==>
              if target != "" then target !in sessions && forall s | s in sessions.Values :: !Answers(s, target)
              else if active != "" then active !in sessions
              else forall id :: sessions.Keys != {id}
  {
    if target == "" && active == "" && r.Err? {
      var choice :| Chooses(sessions, active, target, choice)
        && r == match choice
                case Err(cause) => Err(cause)
                case Ok(id) => if id in sessions then Ok((id, sessions[id].ws)) else Err(Gone);
    }
  }

  // ---- Outcomes ----

  /** Why a dispatched call ends. */
  datatype Cause =
    | NotRunning
    | NoMatch(target: string)
    | NoPlugin
    | Ambiguous
    | Gone
    | TimedOut
    | Replied(result: ToolResult)
    | Disconnected(sessionId: string)
    | Stopped

  const GONE_TEXT := "target editor session no longer connected"
  const AMBIGUOUS_TEXT :=
    "multiple editors connected " + "and no active one set; " + "pass _editor or call set_active_editor"
  const DISCONNECTED_TEXT := "editor disconnected before tool result"

  function NoMatchText(target: string): string
  {
    "no editor session matches '" + target + "' (use list_editors)"
  }

  /** The result a call that ends for this cause returns. */
  function Outcome(cause: Cause): ToolResult
  {
    match cause
    case NotRunning => Err(FromCode(INTERNAL_ERROR, "bridge not running"))
    case NoMatch(target) => Err(FromCode(EDITOR_NOT_CONNECTED, NoMatchText(target)))
    case NoPlugin => Err(FromCode(EDITOR_NOT_CONNECTED, "no plugin connected"))
    case Ambiguous => Err(FromCode(EDITOR_NOT_CONNECTED, AMBIGUOUS_TEXT))
    case Gone => Err(FromCode(EDITOR_NOT_CONNECTED, GONE_TEXT))
    case TimedOut => Err(FromCode(INTERNAL_ERROR, "tool dispatch timeout"))
    case Replied(result) => result
    case Disconnected(_) => Err(FromCode(EDITOR_NOT_CONNECTED, DISCONNECTED_TEXT))
    case Stopped => Err(FromCode(INTERNAL_ERROR, "bridge stopped"))
  }

  lemma InternalText(detail: string)
    requires detail != ""
    ensures FromCode(-32603, detail).message == "Internal error: " + detail
  {
    assert "Internal error" + ": " == "Internal error: ";
    assert "Internal error" + (": " + detail) == ("Internal error" + ": ") + detail;
  }

  lemma NotConnectedText(detail: string)
    requires detail != ""
    ensures FromCode(-32001, detail).message == "Editor not connected: " + detail
  {
    assert "Editor not connected" + ": " == "Editor not connected: ";
    assert "Editor not connected" + (": " + detail) == ("Editor not connected" + ": ") + detail;
  }

  /** The result of a call whose editor is not there, for this reason. */
  predicate NotConnectedFor(result: ToolResult, detail: string)
  {
    result == Err(ErrorObject(-32001, "Editor not connected: " + detail, None))
  }

  predicate InternalFor(result: ToolResult, detail: string)
  {
    result == Err(ErrorObject(-32603, "Internal error: " + detail, None))
  }

  /** What a dispatched call returns: the reply's own value, and for every other end an error with
      its own code and text. */
  ghost predicate Yields(cause: Cause, result: ToolResult)
  {
    match cause
    case Replied(value) => result == value
    case NotRunning => InternalFor(result, "bridge not running")
    case TimedOut => InternalFor(result, "tool dispatch timeout")
    case Stopped => InternalFor(result, "bridge stopped")
    case NoMatch(target) =>
      NotConnectedFor(result, "no editor session matches '" + target + "' (use list_editors)")
    case NoPlugin => NotConnectedFor(result, "no plugin connected")
    case Ambiguous =>
      NotConnectedFor(result, "multiple editors connected and no active one set; "
                              + "pass _editor or call set_active_editor")
    case Gone => NotConnectedFor(result, "target editor session no longer connected")
    case Disconnected(_) => NotConnectedFor(result, "editor disconnected before tool result")
  }

  /** The call succeeds exactly for a reply that is a success. */
  lemma OutcomeByCause(cause: Cause)
    ensures Yields(cause, Outcome(cause))
    ensures Outcome(cause).Ok? <==> cause.Replied? && cause.result.Ok?
  {
    match cause
    case NoMatch(target) => NotConnectedText(NoMatchText(target));
    case NoPlugin => NotConnectedText("no plugin connected");
    case Ambiguous =>
      NotConnectedText(AMBIGUOUS_TEXT);
      AmbiguousParts();
    case Gone => NotConnectedText(GONE_TEXT);
    case Disconnected(_) => NotConnectedText(DISCONNECTED_TEXT);
    case NotRunning => InternalText("bridge not running");
    case TimedOut => InternalText("tool dispatch timeout");
    case Stopped => InternalText("bridge stopped");
    case Replied(_) =>
  }

  lemma AmbiguousParts()
    ensures AMBIGUOUS_TEXT == "multiple editors connected and no active one set; "
                              + "pass _editor or call set_active_editor"
  {
    assert "multiple editors connected " + "and no active one set; "
        == "multiple editors connected and no active one set; ";
  }

  // ---- Shared state ----

  /** A promise is set at most once; a second attempt is an error. */
  datatype Promise = Unset | Satisfied(cause: Cause)

  /** What the outside sees, in order: session events, calls sent to an editor, and groups of
      promises set under one lock. */
  datatype Observation =
    | Joined(session: EditorSession)
    | Left(session: EditorSession)
    | Sent(txId: string, sessionId: string, ws: nat)
    | Resolved(txIds: set<string>, cause: Cause)

  /** Pending calls map a transaction id to the session the call was bound to. The promise of
      a transaction outlives its pending entry, because the waiting thread still reads it. */
  datatype Shared = Shared(
    running: bool,
    txCounter: nat,
    sessions: Sessions,
    pending: map<string, string>,
    promises: map<string, Promise>,
    activeSessionId: string,
    callbackSet: bool,
    promiseErrors: nat,
    trace: seq<Observation>)

  function DrawTx(sh: Shared): Shared
  {
    sh.(txCounter := (sh.txCounter + 1) % TWO_TO_64)
  }

  /** A new pending entry with a fresh promise. An entry already there would be re-bound, and
      taking its future a second time is an error. */
  function InsertPending(sh: Shared, tx: string, sessionId: string): Shared
  {
    if tx in sh.pending then
      sh.(pending := sh.pending[tx := sessionId], promiseErrors := sh.promiseErrors + 1)
    else
      sh.(pending := sh.pending[tx := sessionId], promises := sh.promises[tx := Unset])
  }

  function ErasePending(sh: Shared, tx: string): Shared
  {
    sh.(pending := sh.pending - {tx})
  }

  function SetPromises(promises: map<string, Promise>, txs: set<string>, cause: Cause): map<string, Promise>
  {
    map tx | tx in promises ::
      if tx in txs && promises[tx].Unset? then Satisfied(cause) else promises[tx]
  }

  function AlreadySet(promises: map<string, Promise>, txs: set<string>): set<string>
  {
    set tx | tx in txs && tx in promises && promises[tx].Satisfied?
  }

  /** Sets the promises of these entries to one cause and removes the entries. */
  function ResolveAll(sh: Shared, txs: set<string>, cause: Cause): Shared
  {
    sh.(pending := sh.pending - txs,
        promises := SetPromises(sh.promises, txs, cause),
        promiseErrors := sh.promiseErrors + |AlreadySet(sh.promises, txs)|,
        trace := sh.trace + [Resolved(txs, cause)])
  }

  /** The entries bound to a session. */
  function BoundTo(pending: map<string, string>, sessionId: string): set<string>
  {
    set tx | tx in pending && pending[tx] == sessionId
  }

  function SweepSession(sh: Shared, sessionId: string): Shared
  {
    ResolveAll(sh, BoundTo(sh.pending, sessionId), Disconnected(sessionId))
  }

  function SweepAll(sh: Shared): Shared
  {
    ResolveAll(sh, sh.pending.Keys, Stopped)
  }

  function Answer(sh: Shared, tx: string, result: ToolResult): Shared
  {
    if tx in sh.pending then ResolveAll(sh, {tx}, Replied(result)) else sh
  }

  /** The delivery of a tool_result: what it cannot read changes nothing. */
  function Deliver(sh: Shared, payload: Json): Shared
  {
    match ReadToolResult(payload)
    case Some((tx, result)) => Answer(sh, tx, result)
    case None => sh
  }

  /** A tool_result for a pending transaction sets its promise to what its members say and takes the
      entry out, and changes no other promise and no other entry. */
  lemma DeliverySets(sh: Shared, payload: Json, tx: string, result: ToolResult)
    requires Says(payload, tx, result)
    requires tx in sh.pending && tx in sh.promises && sh.promises[tx].Unset?
    ensures Deliver(sh, payload)
         == sh.(pending := sh.pending - {tx}, promises := sh.promises[tx := Satisfied(Replied(result))],
                trace := sh.trace + [Resolved({tx}, Replied(result))])
  {
    ReadsWhatItSays(payload);
    var read := ReadToolResult(payload).value;
    SaysOneThing(payload, tx, result, read.0, read.1);
    SetOne(sh.promises, tx, Replied(result));
  }

  /** A tool_result that says nothing, or names no pending transaction, changes nothing. */
  lemma DeliveryIgnores(sh: Shared, payload: Json)
    requires forall tx, result :: Says(payload, tx, result) ==> tx !in sh.pending
    ensures Deliver(sh, payload) == sh
  {
    ReadsWhatItSays(payload);
  }

  function Register(sh: Shared, session: EditorSession): Shared
  {
    sh.(sessions := sh.sessions[session.sessionId := session])
  }

  function EraseSession(sh: Shared, sessionId: string): Shared
  {
    sh.(sessions := sh.sessions - {sessionId})
  }

  function Announce(sh: Shared, event: Observation): Shared
  {
    if sh.callbackSet then sh.(trace := sh.trace + [event]) else sh
  }

  /** The session record a hello gives rise to; None when the message is refused or the JSON
      library throws, and then nothing is registered. */
  function SessionOfHello(sessionId: string, ws: nat, payload: Json): Option<EditorSession>
  {
    match ParseHello(payload)
    case Message(hello) =>
      var e := hello.editor;
      (match (StringOr(e, "id", ""), StringOr(e, "label", ""), StringOr(e, "project_id", ""),
              StringOr(e, "project_path", ""), StringOr(e, "engine_version", ""))
       case (Message(id), Message(named), Message(project), Message(path), Message(engine)) =>
         if PidReadable(e) then
           Some(EditorSession(sessionId, hello.slotId, id, named, project, path, engine, hello.pluginVersion, ws))
         else None
       case _ => None)
    case _ => None
  }

  predicate StringOrAbsent(j: Json, key: string)
  {
    Member(j, key).None? || Member(j, key).value.Str?
  }

  function EditorOf(payload: Json): Json
  {
    var editor := Member(payload, "editor");
    if editor.Some? && editor.value.Obj? then editor.value else Obj([])
  }

  /** A hello registers a session exactly when it names its version and slot as strings and no
      optional member it carries has another type than the code reads. */
  lemma HelloRegistersIff(sessionId: string, ws: nat, payload: Json)
    ensures var e := EditorOf(payload);
            SessionOfHello(sessionId, ws, payload).Some? <==>
              && HasString(payload, "version") && HasString(payload, "slot_id")
              && StringOrAbsent(payload, "plugin_version")
              && StringOrAbsent(e, "id") && StringOrAbsent(e, "label") && StringOrAbsent(e, "project_id")
              && StringOrAbsent(e, "project_path") && StringOrAbsent(e, "engine_version") && PidReadable(e)
  {
  }

  /** A member, or the empty text when there is none. */
  function Given(j: Json, key: string): Option<Json>
  {
    if Member(j, key).Some? then Member(j, key) else Some(Str(""))
  }

  /** The record is filed under the connection's own id and keeps the texts the hello gives. */
  lemma HelloKeepsNames(sessionId: string, ws: nat, payload: Json)
    requires SessionOfHello(sessionId, ws, payload).Some?
    ensures var s, e := SessionOfHello(sessionId, ws, payload).value, EditorOf(payload);
            && s.sessionId == sessionId && s.ws == ws
            && Member(payload, "slot_id") == Some(Str(s.slotId))
            && Some(Str(s.labelText)) == Given(e, "label") && Some(Str(s.instanceId)) == Given(e, "id")
            && Some(Str(s.projectId)) == Given(e, "project_id") && Some(Str(s.projectPath)) == Given(e, "project_path")
            && Some(Str(s.engineVersion)) == Given(e, "engine_version")
            && Some(Str(s.pluginVersion)) == Given(payload, "plugin_version")
  {
  }

  /** The process id is read as a 64-bit integer, which a boolean does not convert to. */
  predicate PidReadable(e: Json)
  {
    match Member(e, "pid")
    case None => true
    case Some(pid) => pid.Int? || pid.Float?
  }

  /** A group of promises has been set, and the errors counted, starting from `start`. */
  ghost predicate SetSoFar(start: map<string, Promise>, now: map<string, Promise>,
                           startErrors: nat, errors: nat, done: set<string>, cause: Cause)
  {
    && now == SetPromises(start, done, cause)
    && errors == startErrors + |AlreadySet(start, done)|
  }

  // ---- The server object ----

  class BridgeServer {
    var running: bool
    var txCounter: nat
    var sessions: Sessions
    var pending: map<string, string>
    var promises: map<string, Promise>
    var activeSessionId: string
    var callbackSet: bool
    var promiseErrors: nat
    ghost var trace: seq<Observation>

    ghost function View(): Shared
      reads this
    {
      Shared(running, txCounter, sessions, pending, promises, activeSessionId, callbackSet, promiseErrors, trace)
    }

    constructor (callbackSet: bool)
      ensures View() == Shared(true, 0, map[], map[], map[], "", callbackSet, 0, [])
    {
      running, txCounter, sessions, pending, promises := true, 0, map[], map[], map[];
      activeSessionId, this.callbackSet, promiseErrors, trace := "", callbackSet, 0, [];
    }

    method FindByIdOrLabel(name: string) returns (r: Option<EditorSession>)
      ensures Finds(sessions, name, r)
    {
      if name in sessions {
        return Some(sessions[name]);
      }
      var rest := sessions.Keys;
      while rest != {}
        invariant rest <= sessions.Keys
        invariant forall id | id in sessions.Keys - rest :: !Answers(sessions[id], name)
      {
        var id :| id in rest;
        if Answers(sessions[id], name) {
          return Some(sessions[id]);
        }
        rest := rest - {id};
      }
      return None;
    }

    /** Target resolution and socket lookup of a dispatch that nothing interrupts. Whatever the
        outcome, no shared state changes. */
    method Route(target: string) returns (r: Result<(string, nat), Cause>)
      ensures Routes(sessions, activeSessionId, target, r)
    {
      var choice := Choose(target);
      match choice
      case Err(cause) => r := Err(cause);
      case Ok(id) =>
        r := if id in sessions then Ok((id, sessions[id].ws)) else Err(Gone);
    }

    method Choose(target: string) returns (choice: Result<string, Cause>)
      ensures Chooses(sessions, activeSessionId, target, choice)
    {
      if target != "" {
        var found := FindByIdOrLabel(target);
        choice := if found.Some? then Ok(found.value.sessionId) else Err(NoMatch(target));
      } else if activeSessionId != "" {
        choice := Ok(activeSessionId);
      } else if sessions == map[] {
        choice := Err(NoPlugin);
      } else {
        var id :| id in sessions;
        if sessions.Keys == {id} {
          choice := Ok(sessions[id].sessionId);
        } else {
          choice := Err(Ambiguous);
        }
      }
    }

    method SetActiveSession(sessionId: string)
      modifies this`activeSessionId
      ensures View() == old(View()).(activeSessionId := sessionId)
    {
      activeSessionId := sessionId;
    }

    method NextTxId() returns (tx: string)
      modifies this`txCounter
      ensures tx == TxId(old(txCounter))
      ensures View() == DrawTx(old(View()))
    {
      tx := TxId(txCounter);
      txCounter := (txCounter + 1) % TWO_TO_64;
    }

    method Insert(tx: string, sessionId: string)
      modifies this
      ensures View() == InsertPending(old(View()), tx, sessionId)
    {
      if tx in pending {
        promiseErrors := promiseErrors + 1;
      } else {
        promises := promises[tx := Unset];
      }
      pending := pending[tx := sessionId];
    }

    method EraseAfterTimeout(tx: string)
      modifies this`pending
      ensures View() == ErasePending(old(View()), tx)
    {
      pending := pending - {tx};
    }

    /** The tool_result handler. An exception of the JSON library leaves the entry in place. */
    method HandleToolResult(payload: Json)
      modifies this
      ensures View() == Deliver(old(View()), payload)
    {
      var parsed := ParseToolResult(payload);
      if !parsed.Message? {
        return;
      }
      var tx := parsed.value.txId;
      if tx !in pending {
        return;
      }
      var value := ReplyValue(parsed.value);
      if !value.Message? {
        return;
      }
      SetValue(tx, Replied(value.value));
      pending := pending - {tx};
      trace := trace + [Resolved({tx}, Replied(value.value))];
    }

    /** Sets one promise; a promise already set counts an error. */
    method SetValue(tx: string, cause: Cause)
      modifies this`promises, this`promiseErrors
      ensures promises == SetPromises(old(promises), {tx}, cause)
      ensures promiseErrors == old(promiseErrors) + |AlreadySet(old(promises), {tx})|
    {
      SetOne(promises, tx, cause);
      if tx in promises {
        if promises[tx].Unset? {
          promises := promises[tx := Satisfied(cause)];
        } else {
          promiseErrors := promiseErrors + 1;
        }
      }
    }

    /** One turn of the close sweep: an entry of the closed session is failed and erased. */
    method FailIfBound(tx: string, sessionId: string) returns (hit: bool)
      requires tx in pending
      modifies this`pending, this`promises, this`promiseErrors
      ensures hit <==> old(pending)[tx] == sessionId
      ensures pending == old(pending) - if hit then {tx} else {}
      ensures hit ==>
                && promises == SetPromises(old(promises), {tx}, Disconnected(sessionId))
                && promiseErrors == old(promiseErrors) + |AlreadySet(old(promises), {tx})|
      ensures !hit ==> promises == old(promises) && promiseErrors == old(promiseErrors)
    {
      hit := pending[tx] == sessionId;
      if hit {
        SetValue(tx, Disconnected(sessionId));
        pending := pending - {tx};
      }
    }

    /** The sweep after a close, one entry at a time in any order; it counts what it fails. */
    method SweepClosed(sessionId: string) returns (failed: nat)
      modifies this`pending, this`promises, this`promiseErrors, this`trace
      ensures View() == SweepSession(old(View()), sessionId)
      ensures failed == |BoundTo(old(pending), sessionId)|
    {
      ghost var done;
      failed, done := FailBound(sessionId);
      trace := trace + [Resolved(done, Disconnected(sessionId))];
    }

    method FailBound(sessionId: string) returns (failed: nat, ghost done: set<string>)
      modifies this`pending, this`promises, this`promiseErrors
      ensures done == BoundTo(old(pending), sessionId) && failed == |done|
      ensures pending == old(pending) - done
      ensures promises == SetPromises(old(promises), done, Disconnected(sessionId))
      ensures promiseErrors == old(promiseErrors) + |AlreadySet(old(promises), done)|
    {
      ghost var start, errors, table := promises, promiseErrors, pending;
      done := {};
      failed := 0;
      var rest := pending.Keys;
      while rest != {}
        invariant rest <= table.Keys && done !! rest
        invariant forall tx | tx in table && tx !in rest :: tx in done <==> table[tx] == sessionId
        invariant done <= table.Keys && failed == |done|
        invariant pending == table - done
        invariant SetSoFar(start, promises, errors, promiseErrors, done, Disconnected(sessionId))
        decreases rest
      {
        var tx :| tx in rest;
        rest := rest - {tx};
        SetOneMore(start, done, tx, Disconnected(sessionId));
        var hit := FailIfBound(tx, sessionId);
        if hit {
          failed := failed + 1;
          done := done + {tx};
        }
      }
    }

    /** Sets the promise of every pending entry. */
    method SetAllPending(cause: Cause)
      modifies this`promises, this`promiseErrors
      ensures promises == SetPromises(old(promises), pending.Keys, cause)
      ensures promiseErrors == old(promiseErrors) + |AlreadySet(old(promises), pending.Keys)|
    {
      ghost var start, errors, all := promises, promiseErrors, pending.Keys;
      var rest := pending.Keys;
      while rest != {}
        invariant rest <= all
        invariant SetSoFar(start, promises, errors, promiseErrors, all - rest, cause)
        decreases rest
      {
        var tx :| tx in rest;
        SetOneMore(start, all - rest, tx, cause);
        assert all - (rest - {tx}) == (all - rest) + {tx};
        SetValue(tx, cause);
        rest := rest - {tx};
      }
      assert all - rest == all;
    }

    /** The sweep of a stopping bridge: sets every promise, then clears the table. */
    method SweepOnStop()
      modifies this`pending, this`promises, this`promiseErrors, this`trace
      ensures View() == SweepAll(old(View()))
      ensures pending == map[]
    {
      SetAllPending(Stopped);
      trace := trace + [Resolved(pending.Keys, Stopped)];
      pending := map[];
      assert old(pending) - old(pending).Keys == map[];
    }

    /** stop() acts once: only the first caller sees the flag up. */
    method ExchangeRunning() returns (was: bool)
      modifies this`running
      ensures was == old(running)
      ensures View() == old(View()).(running := false)
    {
      was := running;
      running := false;
    }

    method RegisterSession(session: EditorSession)
      modifies this`sessions
      ensures View() == Register(old(View()), session)
    {
      sessions := sessions[session.sessionId := session];
    }

    /** The hello handler up to the registration. */
    method HandleHello(sessionId: string, ws: nat, payload: Json) returns (session: Option<EditorSession>)
      modifies this`sessions
      ensures session == SessionOfHello(sessionId, ws, payload)
      ensures View() == if session.Some? then Register(old(View()), session.value) else old(View())
    {
      session := SessionOfHello(sessionId, ws, payload);
      if session.Some? {
        RegisterSession(session.value);
      }
    }

    method TakeSession(sessionId: string) returns (snapshot: Option<EditorSession>)
      modifies this`sessions
      ensures View() == EraseSession(old(View()), sessionId)
      ensures snapshot == if sessionId in old(sessions) then Some(old(sessions)[sessionId]) else None
    {
      snapshot := if sessionId in sessions then Some(sessions[sessionId]) else None;
      sessions := sessions - {sessionId};
    }

    method PublishEvent(event: Observation)
      modifies this`trace
      ensures View() == Announce(old(View()), event)
      ensures trace == if callbackSet then old(trace) + [event] else old(trace)
    {
      if callbackSet {
        trace := trace + [event];
      }
    }
  }

  // ---- Waiting for a session ----

  /** What a waiter for a session sees each time it holds the lock, and whether its deadline has
      passed by then. It reads the running flag, which no lock guards, again before it returns. */
  datatype Glimpse = Glimpse(running: bool, sessions: Sessions, deadline: bool, stillRunning: bool)

  ghost predicate HasSession(g: Glimpse, slot: Option<string>)
  {
    exists s :: s in g.sessions.Values && (slot.None? || s.slotId == slot.value)
  }

  /** The wait ends at the first look that finds a stopped bridge, a session of the wanted slot, or
      the deadline passed, which comes sooner or later; it returns a session exactly when the
      bridge has one at that look and still runs right after it. */
  method WaitForSession(glimpses: seq<Glimpse>, slot: Option<string>)
    returns (r: Option<EditorSession>, last: nat)
    requires glimpses != [] && glimpses[|glimpses| - 1].deadline
    ensures last < |glimpses|
    ensures forall i | 0 <= i <= last ::
              i < last <==> glimpses[i].running && !HasSession(glimpses[i], slot) && !glimpses[i].deadline
    ensures r.Some? <==> glimpses[last].stillRunning && HasSession(glimpses[last], slot)
    ensures r.Some? ==>
              r.value in glimpses[last].sessions.Values && (slot.None? || r.value.slotId == slot.value)
  {
    last := 0;
    var found := FindInSlot(glimpses[0].sessions, slot);
    while glimpses[last].running && found.None? && !glimpses[last].deadline
      invariant last < |glimpses|
      invariant found.Some? <==> HasSession(glimpses[last], slot)
      invariant found.Some? ==> found.value in glimpses[last].sessions.Values && InSlot(found.value, slot)
      invariant forall i | 0 <= i < last ::
                  glimpses[i].running && !HasSession(glimpses[i], slot) && !glimpses[i].deadline
      decreases |glimpses| - last
    {
      last := last + 1;
      found := FindInSlot(glimpses[last].sessions, slot);
    }
    r := if glimpses[last].stillRunning then found else None;
  }

  method FindInSlot(sessions: Sessions, slot: Option<string>) returns (r: Option<EditorSession>)
    ensures r.Some? <==> exists s :: s in sessions.Values && InSlot(s, slot)
    ensures r.Some? ==> r.value in sessions.Values && InSlot(r.value, slot)
  {
    var rest := sessions.Keys;
    while rest != {}
      invariant rest <= sessions.Keys
      invariant forall id | id in sessions.Keys - rest :: !InSlot(sessions[id], slot)
    {
      var id :| id in rest;
      if InSlot(sessions[id], slot) {
        return Some(sessions[id]);
      }
      rest := rest - {id};
    }
    return None;
  }

  /** The sweep is an exact filter: it keeps every entry of another session, with its promise
      as it was, and removes and sets every entry of the closed one. */
  lemma SweepIsExactFilter(sh: Shared, sessionId: string)
    ensures var swept := SweepSession(sh, sessionId);
            && (forall tx :: tx in swept.pending <==> tx in sh.pending && sh.pending[tx] != sessionId)
            && (forall tx | tx in swept.pending :: swept.pending[tx] == sh.pending[tx])
            && swept.promises.Keys == sh.promises.Keys
            && (forall tx | tx in sh.promises ::
                  swept.promises[tx] ==
                    if tx in sh.pending && sh.pending[tx] == sessionId && sh.promises[tx].Unset?
                    then Satisfied(Disconnected(sessionId)) else sh.promises[tx])
  {
  }

  /** The sweep of a stop empties the table and fails every entry in it, and no other promise. */
  lemma StopFailsEveryEntry(sh: Shared)
    ensures var swept := SweepAll(sh);
            && swept.pending == map[] && swept.promises.Keys == sh.promises.Keys
            && (forall tx | tx in sh.promises ::
                  swept.promises[tx] == if tx in sh.pending && sh.promises[tx].Unset? then Satisfied(Stopped)
                                        else sh.promises[tx])
            && swept.trace == sh.trace + [Resolved(sh.pending.Keys, Stopped)]
  {
    assert sh.pending - sh.pending.Keys == map[];
  }

  lemma SetOne(promises: map<string, Promise>, tx: string, cause: Cause)
    ensures SetPromises(promises, {tx}, cause) ==
              if tx in promises && promises[tx].Unset? then promises[tx := Satisfied(cause)] else promises
    ensures AlreadySet(promises, {tx}) == if tx in promises && promises[tx].Satisfied? then {tx} else {}
  {
  }

  /** Setting one more promise after a group is setting the larger group. */
  lemma SetOneMore(promises: map<string, Promise>, done: set<string>, tx: string, cause: Cause)
    requires tx !in done
    ensures SetPromises(SetPromises(promises, done, cause), {tx}, cause)
         == SetPromises(promises, done + {tx}, cause)
    ensures |AlreadySet(promises, done)| + |AlreadySet(SetPromises(promises, done, cause), {tx})|
         == |AlreadySet(promises, done + {tx})|
  {
    var more := AlreadySet(SetPromises(promises, done, cause), {tx});
    assert AlreadySet(promises, done + {tx}) == AlreadySet(promises, done) + more;
    assert AlreadySet(promises, done) !! more;
  }
}
