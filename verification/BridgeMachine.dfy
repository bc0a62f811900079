/** The bridge as a transition system: dispatching threads, one handler per connection and a
    stopping thread interleave at the lock-held sections. */
module BridgeMachine {
  import opened Bridge
  import opened Encodings
  import opened Results
  import opened Rpc
  import opened TxIds

  /** Where a dispatching thread stands. From Drawing on it is bound to a session; from
      Inserting on it owns a transaction id. */
  datatype Pc =
    | Begin(target: string)
    | Resolving(target: string)
    | ReadingActive
    | ReadingSole
    | LookingUp(sessionId: string)
    | Drawing(sessionId: string, ws: nat)
    | Inserting(sessionId: string, ws: nat, tx: string)
    | Sending(sessionId: string, ws: nat, tx: string)
    | Awaiting(sessionId: string, tx: string)
    | Expired(sessionId: string, tx: string)
    | Returned(cause: Cause, owned: Option<string>)

  /** Where the handler of a connection stands between two locked sections. The callbacks of
      one connection run one after another. */
  datatype Handler =
    | Greeting(session: EditorSession)
    | Closing(snapshot: Option<EditorSession>)
    | Sweeping

  /** `issued` counts the transaction ids drawn so far and `owner` tells which call drew each;
      `seen` holds every session that ever said hello. */
  datatype State = State(
    sh: Shared,
    calls: map<nat, Pc>,
    handlers: map<string, Handler>,
    stopping: bool,
    issued: nat,
    owner: map<string, nat>,
    seen: set<string>)

  datatype Step =
    | Dispatch(call: nat, target: string)
    | TestRunning(call: nat)
    | Resolve(call: nat, found: Option<EditorSession>)
    | ReadActive(call: nat)
    | ReadSole(call: nat)
    | LookUp(call: nat)
    | Draw(call: nat)
    | Insert(call: nat)
    | Send(call: nat)
    | Decide(call: nat, deadlinePassed: bool)
    | EraseExpired(call: nat)
    | Hello(session: EditorSession)
    | PublishJoined(sessionId: string)
    | Close(sessionId: string)
    | PublishLeft(sessionId: string)
    | Sweep(sessionId: string)
    | ToolResult(tx: string, result: ToolResult)
    | SetActive(sessionId: string)
    | StopFlag
    | StopSweep

  function Start(callbackSet: bool): State
  {
    State(Shared(true, 0, map[], map[], map[], "", callbackSet, 0, []), map[], map[], false, 0, map[], {})
  }

  function Goto(s: State, call: nat, pc: Pc): State
  {
    s.(calls := s.calls[call := pc])
  }

  /** The steps of a dispatching thread that only choose a target. */
  ghost function RouteStep(s: State, call: nat, step: Step): Option<Pc>
    requires call in s.calls
  {
    match (s.calls[call], step)
    case (Begin(target), TestRunning(_)) =>
      Some(if !s.sh.running then Returned(NotRunning, None)
           else if target != "" then Resolving(target)
           else ReadingActive)
    case (Resolving(target), Resolve(_, found)) =>
      if !Finds(s.sh.sessions, target, found) then None
      else if found.Some? then Some(LookingUp(found.value.sessionId))
      else Some(Returned(NoMatch(target), None))
    case (ReadingActive, ReadActive(_)) =>
      Some(if s.sh.activeSessionId == "" then ReadingSole else LookingUp(s.sh.activeSessionId))
    case (ReadingSole, ReadSole(_)) =>
      if |s.sh.sessions| == 0 then Some(Returned(NoPlugin, None))
      else if |s.sh.sessions| > 1 then Some(Returned(Ambiguous, None))
      else
        var id :| id in s.sh.sessions;
        Some(LookingUp(s.sh.sessions[id].sessionId))
    case (LookingUp(id), LookUp(_)) =>
      Some(if id in s.sh.sessions then Drawing(id, s.sh.sessions[id].ws) else Returned(Gone, None))
    case _ => None
  }

  ghost function ApplyRoute(s: State, call: nat, step: Step): State
  {
    if call !in s.calls then s
    else
      match RouteStep(s, call, step)
      case None => s
      case Some(pc) => Goto(s, call, pc)
  }

  /** The steps of a dispatching thread that owns, or is about to own, a transaction. */
  function ApplyDraw(s: State, call: nat): State
  {
    if call in s.calls && s.calls[call].Drawing? then
      var pc, tx := s.calls[call], TxId(s.sh.txCounter);
      Goto(s, call, Inserting(pc.sessionId, pc.ws, tx))
      .(sh := DrawTx(s.sh), issued := s.issued + 1, owner := s.owner[tx := call])
    else s
  }

  function ApplyInsert(s: State, call: nat): State
  {
    if call in s.calls && s.calls[call].Inserting? then
      var pc := s.calls[call];
      Goto(s, call, Sending(pc.sessionId, pc.ws, pc.tx)).(sh := InsertPending(s.sh, pc.tx, pc.sessionId))
    else s
  }

  function ApplySend(s: State, call: nat): State
  {
    if call in s.calls && s.calls[call].Sending? then
      var pc := s.calls[call];
      Goto(s, call, Awaiting(pc.sessionId, pc.tx))
      .(sh := s.sh.(trace := s.sh.trace + [Sent(pc.tx, pc.sessionId, pc.ws)]))
    else s
  }

  /** The wait ends when the promise is set; otherwise, once the deadline has passed, the call
      has expired, whatever happens to the promise afterwards. */
  function ApplyDecide(s: State, call: nat, deadlinePassed: bool): State
  {
    if call in s.calls && s.calls[call].Awaiting? then
      var pc := s.calls[call];
      if pc.tx in s.sh.promises && s.sh.promises[pc.tx].Satisfied? then
        Goto(s, call, Returned(s.sh.promises[pc.tx].cause, Some(pc.tx)))
      else if deadlinePassed then Goto(s, call, Expired(pc.sessionId, pc.tx))
      else s
    else s
  }

  function ApplyEraseExpired(s: State, call: nat): State
  {
    if call in s.calls && s.calls[call].Expired? then
      var tx := s.calls[call].tx;
      Goto(s, call, Returned(TimedOut, Some(tx))).(sh := ErasePending(s.sh, tx))
    else s
  }

  /** The steps of connection handlers. */
  function ApplyHello(s: State, session: EditorSession): State
  {
    var id := session.sessionId;
    if id in s.handlers then s
    else s.(sh := Register(s.sh, session), handlers := s.handlers[id := Greeting(session)], seen := s.seen + {id})
  }

  function ApplyPublishJoined(s: State, id: string): State
  {
    if id in s.handlers && s.handlers[id].Greeting? then
      s.(sh := Announce(s.sh, Joined(s.handlers[id].session)), handlers := s.handlers - {id})
    else s
  }

  function ApplyClose(s: State, id: string): State
  {
    if id in s.handlers then s
    else
      var snapshot := if id in s.sh.sessions then Some(s.sh.sessions[id]) else None;
      s.(sh := EraseSession(s.sh, id), handlers := s.handlers[id := Closing(snapshot)])
  }

  function ApplyPublishLeft(s: State, id: string): State
  {
    if id in s.handlers && s.handlers[id].Closing? then
      var snapshot := s.handlers[id].snapshot;
      s.(sh := if snapshot.Some? then Announce(s.sh, Left(snapshot.value)) else s.sh,
         handlers := s.handlers[id := Sweeping])
    else s
  }

  function ApplySweep(s: State, id: string): State
  {
    if id in s.handlers && s.handlers[id].Sweeping? then
      s.(sh := SweepSession(s.sh, id), handlers := s.handlers - {id})
    else s
  }

  /** The state after a step; a step that is not enabled changes nothing, so that every
      sequence of steps is a schedule. */
  ghost function Apply(s: State, step: Step): State
  {
    match step
    case Dispatch(call, target) =>
      if call in s.calls then s else Goto(s, call, Begin(target))
    case TestRunning(call) => ApplyRoute(s, call, step)
    case Resolve(call, _) => ApplyRoute(s, call, step)
    case ReadActive(call) => ApplyRoute(s, call, step)
    case ReadSole(call) => ApplyRoute(s, call, step)
    case LookUp(call) => ApplyRoute(s, call, step)
    case Draw(call) => ApplyDraw(s, call)
    case Insert(call) => ApplyInsert(s, call)
    case Send(call) => ApplySend(s, call)
    case Decide(call, deadlinePassed) => ApplyDecide(s, call, deadlinePassed)
    case EraseExpired(call) => ApplyEraseExpired(s, call)
    case Hello(session) => ApplyHello(s, session)
    case PublishJoined(id) => ApplyPublishJoined(s, id)
    case Close(id) => ApplyClose(s, id)
    case PublishLeft(id) => ApplyPublishLeft(s, id)
    case Sweep(id) => ApplySweep(s, id)
    case ToolResult(tx, result) => s.(sh := Answer(s.sh, tx, result))
    case SetActive(id) => s.(sh := s.sh.(activeSessionId := id))
    case StopFlag =>
      if s.sh.running then s.(sh := s.sh.(running := false), stopping := true) else s
    case StopSweep =>
      if s.stopping then s.(sh := SweepAll(s.sh), stopping := false) else s
  }

  ghost function ExecFrom(s: State, steps: seq<Step>): State
  {
    if steps == [] then s
    else Apply(ExecFrom(s, steps[..|steps| - 1]), steps[|steps| - 1])
  }

  ghost function Exec(callbackSet: bool, steps: seq<Step>): State
  {
    ExecFrom(Start(callbackSet), steps)
  }

  lemma {:induction false} ExecFromAppend(s: State, first: seq<Step>, second: seq<Step>)
    ensures ExecFrom(s, first + second) == ExecFrom(ExecFrom(s, first), second)
  {
    if second == [] {
      assert first + second == first;
    } else {
      var init, last := second[..|second| - 1], second[|second| - 1];
      ExecFromAppend(s, first, init);
      assert (first + second)[..|first + second| - 1] == first + init;
    }
  }

  // ---- Invariant ----

  predicate OwnsTx(pc: Pc)
  {
    pc.Inserting? || pc.Sending? || pc.Awaiting? || pc.Expired? || (pc.Returned? && pc.owned.Some?)
  }

  function TxOf(pc: Pc): string
    requires OwnsTx(pc)
  {
    if pc.Returned? then pc.owned.value else pc.tx
  }

  predicate InFlight(pc: Pc)
  {
    pc.Sending? || pc.Awaiting? || pc.Expired?
  }

  predicate BoundToSession(pc: Pc)
  {
    pc.Drawing? || pc.Inserting? || InFlight(pc)
  }

  /** Causes a promise is set to. */
  predicate ByPromise(cause: Cause)
  {
    cause.Replied? || cause.Disconnected? || cause.Stopped?
  }

  predicate IsSet(sh: Shared, tx: string)
  {
    tx in sh.promises && sh.promises[tx].Satisfied?
  }

  predicate SetTo(sh: Shared, tx: string, cause: Cause)
  {
    tx in sh.promises && sh.promises[tx] == Satisfied(cause)
  }

  ghost function IdsBelow(n: nat): set<string>
  {
    set k | 0 <= k < n :: TxId(k)
  }

  /** The ids drawn are those of the first counter values. */
  ghost predicate IdsAreCounted(s: State)
  {
    && s.issued <= TWO_TO_64
    && s.sh.txCounter == s.issued % TWO_TO_64
    && s.owner.Keys == IdsBelow(s.issued)
  }

  /** Every id drawn is still held by the call that drew it. */
  ghost predicate TxsAreHeld(s: State)
  {
    forall tx | tx in s.owner ::
      s.owner[tx] in s.calls && OwnsTx(s.calls[s.owner[tx]]) && TxOf(s.calls[s.owner[tx]]) == tx
  }

  /** A call with a transaction is the one that drew it, and its promise exists once it is
      inserted. In flight it is pending or answered, and bound to a session that said hello.
      Returned it holds no pending entry, and returned what its promise was set to, or timed out;
      a call that failed to route owns no transaction. */
  ghost predicate CallIsSound(s: State, c: nat)
    requires c in s.calls
  {
    var pc := s.calls[c];
    && (OwnsTx(pc) ==>
          && TxOf(pc) in s.owner && s.owner[TxOf(pc)] == c
          && (TxOf(pc) in s.sh.promises <==> !pc.Inserting?))
    && (InFlight(pc) ==> pc.tx in s.sh.pending || IsSet(s.sh, pc.tx))
    && (BoundToSession(pc) ==> pc.sessionId in s.seen)
    && (pc.Returned? ==>
          if pc.owned.None? then !ByPromise(pc.cause) && pc.cause != TimedOut
          else
            && pc.owned.value !in s.sh.pending
            && (pc.cause == TimedOut
                || (ByPromise(pc.cause) && SetTo(s.sh, pc.owned.value, pc.cause))))
  }

  ghost predicate CallsAreSound(s: State)
  {
    forall c | c in s.calls :: CallIsSound(s, c)
  }

  /** A promise belongs to a drawn id, and is set by a reply, a sweep or a stop. */
  ghost predicate PromisesAreOwned(s: State)
  {
    forall tx | tx in s.sh.promises ::
      tx in s.owner && (s.sh.promises[tx].Satisfied? ==> ByPromise(s.sh.promises[tx].cause))
  }

  /** A pending entry has an unset promise and a call in flight to the session it is bound to. */
  ghost predicate PendingIsInFlight(s: State)
  {
    forall tx | tx in s.sh.pending ::
      && tx in s.sh.promises && s.sh.promises[tx].Unset?
      && tx in s.owner && s.owner[tx] in s.calls
      && InFlight(s.calls[s.owner[tx]]) && s.calls[s.owner[tx]].sessionId == s.sh.pending[tx]
  }

  /** How often the promise of a transaction was set. */
  function TimesResolved(trace: seq<Observation>, tx: string): nat
  {
    if trace == [] then 0
    else
      var o := trace[|trace| - 1];
      TimesResolved(trace[..|trace| - 1], tx) + if o.Resolved? && tx in o.txIds then 1 else 0
  }

  /** The trace tells what every promise was set to, once. */
  ghost predicate TraceTellsPromises(s: State)
  {
    && s.sh.promiseErrors == 0
    && (forall tx :: TimesResolved(s.sh.trace, tx) ==
          if IsSet(s.sh, tx) then 1 else 0)
    && (forall i, tx | 0 <= i < |s.sh.trace| && s.sh.trace[i].Resolved? && tx in s.sh.trace[i].txIds ::
          SetTo(s.sh, tx, s.sh.trace[i].cause))
  }

  ghost predicate LeftBefore(trace: seq<Observation>, n: nat, id: string)
  {
    exists i :: 0 <= i < n && i < |trace| && trace[i].Left? && trace[i].session.sessionId == id
  }

  /** A session that said hello is connected, or its close is about to be announced, or its
      leaving has been announced. */
  ghost predicate SessionsAreTold(s: State)
  {
    && (forall id | id in s.sh.sessions :: id in s.seen && s.sh.sessions[id].sessionId == id)
    && (forall id | id in s.handlers && !s.handlers[id].Greeting? :: id !in s.sh.sessions)
    && (forall id | id in s.handlers && s.handlers[id].Closing? && s.handlers[id].snapshot.Some? ::
          s.handlers[id].snapshot.value.sessionId == id)
    && (forall id | id in s.seen ::
          || id in s.sh.sessions
          || (id in s.handlers && s.handlers[id].Closing? && s.handlers[id].snapshot.Some?)
          || (s.sh.callbackSet ==> LeftBefore(s.sh.trace, |s.sh.trace|, id)))
  }

  /** Every group of disconnect outcomes comes after the announcement that explains it. */
  ghost predicate OutcomesAreExplained(s: State)
  {
    s.sh.callbackSet ==>
      forall i | 0 <= i < |s.sh.trace| && s.sh.trace[i].Resolved? && s.sh.trace[i].cause.Disconnected?
                 && s.sh.trace[i].txIds != {} ::
        LeftBefore(s.sh.trace, i, s.sh.trace[i].cause.sessionId)
  }

  /** The part of the invariant about calls and their transactions. */
  ghost predicate CallInv(s: State)
  {
    TxsAreHeld(s) && CallsAreSound(s) && PromisesAreOwned(s) && PendingIsInFlight(s)
  }

  /** The part about what was observed. */
  ghost predicate TraceInv(s: State)
  {
    TraceTellsPromises(s) && SessionsAreTold(s) && OutcomesAreExplained(s)
  }

  ghost predicate Inv(s: State)
  {
    IdsAreCounted(s) && CallInv(s) && TraceInv(s)
  }
}
