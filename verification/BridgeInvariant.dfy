/** Every step of the bridge keeps its invariant. */
module BridgeInvariant {
  import opened Bridge
  import opened BridgeMachine
  import opened Encodings
  import opened Results
  import opened Rpc
  import opened TxIds

  lemma InvAtStart(callbackSet: bool)
    ensures Inv(Start(callbackSet))
  {
    assert IdsBelow(0) == {};
  }

  // ---- Steps that only move one call ----

  /** A move that neither gains nor loses a transaction. */
  lemma MoveKeepsCalls(s: State, call: nat, pc: Pc)
    requires CallInv(s)
    requires call in s.calls ==> !OwnsTx(s.calls[call])
    requires !OwnsTx(pc)
    requires BoundToSession(pc) ==> pc.sessionId in s.seen
    requires pc.Returned? ==> !ByPromise(pc.cause) && pc.cause != TimedOut
    ensures CallInv(Goto(s, call, pc))
  {
    var t := Goto(s, call, pc);
    assert forall tx | tx in s.owner :: s.owner[tx] != call;
    forall c | c in t.calls ensures CallIsSound(t, c) {
      assert c != call ==> CallIsSound(s, c);
    }
  }

  lemma MoveKeeps(s: State, call: nat, pc: Pc)
    requires Inv(s)
    requires call in s.calls ==> !OwnsTx(s.calls[call])
    requires !OwnsTx(pc)
    requires BoundToSession(pc) ==> pc.sessionId in s.seen
    requires pc.Returned? ==> !ByPromise(pc.cause) && pc.cause != TimedOut
    ensures Inv(Goto(s, call, pc))
  {
    MoveKeepsCalls(s, call, pc);
    SilentKeepsTrace(s, Goto(s, call, pc));
  }

  lemma RouteStepFacts(s: State, call: nat, step: Step)
    requires call in s.calls && RouteStep(s, call, step).Some?
    requires s.sh.sessions.Keys <= s.seen
    requires BoundToSession(s.calls[call]) ==> s.calls[call].sessionId in s.seen
    ensures var pc := RouteStep(s, call, step).value;
            && !OwnsTx(s.calls[call]) && !OwnsTx(pc)
            && (BoundToSession(pc) ==> pc.sessionId in s.seen)
            && (pc.Returned? ==> !ByPromise(pc.cause) && pc.cause != TimedOut)
  {
  }

  lemma SeenCoversSessions(s: State)
    requires SessionsAreTold(s)
    ensures s.sh.sessions.Keys <= s.seen
  {
  }

  lemma RouteKeeps(s: State, call: nat, step: Step)
    requires Inv(s)
    ensures Inv(ApplyRoute(s, call, step))
  {
    if call in s.calls && RouteStep(s, call, step).Some? {
      SeenCoversSessions(s);
      assert CallIsSound(s, call);
      RouteStepFacts(s, call, step);
      MoveKeeps(s, call, RouteStep(s, call, step).value);
    }
  }

  // ---- Drawing a transaction id ----

  lemma NextIdIsFresh(n: nat)
    requires n < TWO_TO_64
    ensures TxId(n) !in IdsBelow(n)
    ensures IdsBelow(n + 1) == IdsBelow(n) + {TxId(n)}
  {
    forall k | 0 <= k < n ensures TxId(k) != TxId(n) {
      TxIdRoundTrip(k);
      TxIdRoundTrip(n);
    }
  }

  /** A fresh id is held by the call that drew it and by no other. */
  lemma DrawKeepsHolders(s: State, call: nat)
    requires TxsAreHeld(s) && TxId(s.sh.txCounter) !in s.owner
    requires call in s.calls && s.calls[call].Drawing?
    ensures TxsAreHeld(ApplyDraw(s, call))
    ensures forall tx | tx in s.owner :: s.owner[tx] != call
  {
  }

  lemma DrawKeepsDrawer(s: State, call: nat)
    requires PromisesAreOwned(s) && TxId(s.sh.txCounter) !in s.owner
    requires call in s.calls && s.calls[call].Drawing? && CallIsSound(s, call)
    ensures CallIsSound(ApplyDraw(s, call), call)
  {
    assert TxId(s.sh.txCounter) !in s.sh.promises;
  }

  lemma DrawKeepsOther(s: State, call: nat, c: nat)
    requires c != call && c in s.calls && CallIsSound(s, c)
    requires TxId(s.sh.txCounter) !in s.owner
    requires call in s.calls && s.calls[call].Drawing?
    ensures CallIsSound(ApplyDraw(s, call), c)
  {
  }

  lemma DrawKeepsTables(s: State, call: nat)
    requires PromisesAreOwned(s) && PendingIsInFlight(s) && TxId(s.sh.txCounter) !in s.owner
    requires call in s.calls && s.calls[call].Drawing?
    requires forall tx | tx in s.owner :: s.owner[tx] != call
    ensures PromisesAreOwned(ApplyDraw(s, call)) && PendingIsInFlight(ApplyDraw(s, call))
  {
  }

  /** A call in Drawing that takes a fresh id. */
  lemma DrawKeepsCalls(s: State, call: nat)
    requires CallInv(s) && TxId(s.sh.txCounter) !in s.owner
    requires call in s.calls && s.calls[call].Drawing?
    ensures CallInv(ApplyDraw(s, call))
  {
    var t := ApplyDraw(s, call);
    DrawKeepsHolders(s, call);
    DrawKeepsTables(s, call);
    forall c | c in t.calls ensures CallIsSound(t, c) {
      assert CallIsSound(s, c);
      if c == call {
        DrawKeepsDrawer(s, call);
      } else {
        DrawKeepsOther(s, call, c);
      }
    }
  }

  /** The 64-bit counter follows the unbounded count modulo 2^64. */
  lemma CounterWraps(n: nat)
    requires n < TWO_TO_64
    ensures n % TWO_TO_64 == n
    ensures (n + 1) % TWO_TO_64 == if n + 1 == TWO_TO_64 then 0 else n + 1
  {
  }

  lemma DrawnIdIsFresh(s: State)
    requires IdsAreCounted(s) && s.issued < TWO_TO_64
    ensures s.sh.txCounter == s.issued
    ensures TxId(s.sh.txCounter) !in s.owner
  {
    CounterWraps(s.issued);
    NextIdIsFresh(s.issued);
  }

  lemma DrawCounts(s: State, call: nat)
    requires call in s.calls && s.calls[call].Drawing?
    ensures var t := ApplyDraw(s, call);
            && t.issued == s.issued + 1 && t.sh.txCounter == (s.sh.txCounter + 1) % TWO_TO_64
            && t.owner.Keys == s.owner.Keys + {TxId(s.sh.txCounter)}
  {
  }

  lemma DrawKeepsIds(s: State, call: nat)
    requires IdsAreCounted(s) && s.issued < TWO_TO_64
    ensures IdsAreCounted(ApplyDraw(s, call))
    ensures TxId(s.sh.txCounter) !in s.owner
  {
    DrawnIdIsFresh(s);
    if call in s.calls && s.calls[call].Drawing? {
      DrawCounts(s, call);
      NextIdIsFresh(s.issued);
    }
  }

  /** Steps that set no promise and observe nothing. */
  lemma SilentKeepsTrace(s: State, t: State)
    requires TraceInv(s)
    requires t.sh.trace == s.sh.trace && t.sh.promiseErrors == s.sh.promiseErrors
    requires t.sh.callbackSet == s.sh.callbackSet && t.sh.sessions == s.sh.sessions
    requires t.handlers == s.handlers && t.seen == s.seen
    requires forall tx :: IsSet(s.sh, tx) <==> IsSet(t.sh, tx)
    requires forall tx, cause :: SetTo(s.sh, tx, cause) ==> SetTo(t.sh, tx, cause)
    ensures TraceInv(t)
  {
  }

  lemma DrawKeeps(s: State, call: nat)
    requires Inv(s) && s.issued < TWO_TO_64
    ensures Inv(ApplyDraw(s, call))
  {
    DrawKeepsIds(s, call);
    SilentKeepsTrace(s, ApplyDraw(s, call));
    if call in s.calls && s.calls[call].Drawing? {
      DrawKeepsCalls(s, call);
    }
  }

  // ---- Inserting, sending, waiting, expiring ----

  lemma InsertKeepsCalls(s: State, call: nat)
    requires CallInv(s)
    requires call in s.calls && s.calls[call].Inserting?
    ensures CallInv(ApplyInsert(s, call))
    ensures s.calls[call].tx !in s.sh.promises && s.calls[call].tx !in s.sh.pending
  {
    var t := ApplyInsert(s, call);
    assert CallIsSound(s, call);
    forall c | c in t.calls ensures CallIsSound(t, c) {
      assert CallIsSound(s, c);
    }
  }

  lemma InsertKeeps(s: State, call: nat)
    requires Inv(s)
    ensures Inv(ApplyInsert(s, call))
  {
    if call in s.calls && s.calls[call].Inserting? {
      InsertKeepsCalls(s, call);
      SilentKeepsTrace(s, ApplyInsert(s, call));
    }
  }

  /** A call that keeps its transaction moves to a sound place. */
  lemma AdvanceKeepsCalls(s: State, call: nat, pc: Pc)
    requires CallInv(s)
    requires call in s.calls && OwnsTx(s.calls[call]) && OwnsTx(pc) && TxOf(pc) == TxOf(s.calls[call])
    requires CallIsSound(Goto(s, call, pc), call)
    requires TxOf(pc) in s.sh.pending ==> InFlight(pc) && pc.sessionId == s.sh.pending[TxOf(pc)]
    ensures CallInv(Goto(s, call, pc))
  {
    var t := Goto(s, call, pc);
    forall c | c in t.calls ensures CallIsSound(t, c) {
      assert CallIsSound(s, c);
    }
  }

  /** The invariant on calls says nothing about the trace. */
  lemma CallInvIgnoresTrace(s: State, trace: seq<Observation>)
    requires CallInv(s)
    ensures CallInv(s.(sh := s.sh.(trace := trace)))
  {
    var t := s.(sh := s.sh.(trace := trace));
    forall c | c in t.calls ensures CallIsSound(t, c) {
      assert CallIsSound(s, c);
    }
  }

  /** An observation that sets no promise. */
  lemma QuietObservation(trace: seq<Observation>, o: Observation)
    requires !o.Resolved?
    ensures forall tx :: TimesResolved(trace + [o], tx) == TimesResolved(trace, tx)
    ensures forall n, id :: 0 <= n <= |trace| ==> LeftBefore(trace + [o], n, id) == LeftBefore(trace, n, id)
    ensures forall id :: LeftBefore(trace, |trace|, id) ==> LeftBefore(trace + [o], |trace| + 1, id)
  {
    assert (trace + [o])[..|trace|] == trace;
  }

  lemma QuietKeepsTrace(s: State, o: Observation)
    requires TraceInv(s) && !o.Resolved?
    ensures TraceInv(s.(sh := s.sh.(trace := s.sh.trace + [o])))
  {
    var trace := s.sh.trace + [o];
    QuietObservation(s.sh.trace, o);
    forall i | 0 <= i < |trace| && trace[i].Resolved? ensures i < |s.sh.trace| && trace[i] == s.sh.trace[i] {
    }
  }

  lemma SendKeeps(s: State, call: nat)
    requires Inv(s)
    ensures Inv(ApplySend(s, call))
  {
    if call in s.calls && s.calls[call].Sending? {
      var pc := s.calls[call];
      var moved := Goto(s, call, Awaiting(pc.sessionId, pc.tx));
      assert CallIsSound(s, call);
      AdvanceKeepsCalls(s, call, Awaiting(pc.sessionId, pc.tx));
      SilentKeepsTrace(s, moved);
      CallInvIgnoresTrace(moved, ApplySend(s, call).sh.trace);
      QuietKeepsTrace(moved, Sent(pc.tx, pc.sessionId, pc.ws));
    }
  }

  /** A call moves on that keeps its transaction and touches no table. */
  lemma AdvanceKeeps(s: State, call: nat, pc: Pc)
    requires Inv(s)
    requires call in s.calls && OwnsTx(s.calls[call]) && OwnsTx(pc) && TxOf(pc) == TxOf(s.calls[call])
    requires CallIsSound(Goto(s, call, pc), call)
    requires TxOf(pc) in s.sh.pending ==> InFlight(pc) && pc.sessionId == s.sh.pending[TxOf(pc)]
    ensures Inv(Goto(s, call, pc))
  {
    AdvanceKeepsCalls(s, call, pc);
    SilentKeepsTrace(s, Goto(s, call, pc));
  }

  lemma PromisedCallIsSound(s: State, call: nat)
    requires PromisesAreOwned(s) && PendingIsInFlight(s)
    requires call in s.calls && s.calls[call].Awaiting? && CallIsSound(s, call) && IsSet(s.sh, s.calls[call].tx)
    ensures s.calls[call].tx !in s.sh.pending
    ensures var tx := s.calls[call].tx;
            CallIsSound(Goto(s, call, Returned(s.sh.promises[tx].cause, Some(tx))), call)
  {
  }

  lemma DecideKeeps(s: State, call: nat, deadlinePassed: bool)
    requires Inv(s)
    ensures Inv(ApplyDecide(s, call, deadlinePassed))
  {
    if call in s.calls && s.calls[call].Awaiting? {
      var pc := s.calls[call];
      assert CallIsSound(s, call);
      if IsSet(s.sh, pc.tx) {
        PromisedCallIsSound(s, call);
        AdvanceKeeps(s, call, Returned(s.sh.promises[pc.tx].cause, Some(pc.tx)));
      } else if deadlinePassed {
        AdvanceKeeps(s, call, Expired(pc.sessionId, pc.tx));
      }
    }
  }

  lemma ExpireKeepsOther(s: State, call: nat, c: nat)
    requires call in s.calls && s.calls[call].Expired? && CallIsSound(s, call)
    requires c != call && c in s.calls && CallIsSound(s, c)
    ensures CallIsSound(ApplyEraseExpired(s, call), c)
  {
    assert OwnsTx(s.calls[c]) ==> TxOf(s.calls[c]) != s.calls[call].tx;
  }

  lemma ExpireKeepsTables(s: State, call: nat)
    requires TxsAreHeld(s) && PromisesAreOwned(s) && PendingIsInFlight(s)
    requires call in s.calls && s.calls[call].Expired? && CallIsSound(s, call)
    ensures var t := ApplyEraseExpired(s, call);
            TxsAreHeld(t) && PromisesAreOwned(t) && PendingIsInFlight(t)
  {
  }

  lemma ExpireKeepsCalls(s: State, call: nat)
    requires CallInv(s)
    requires call in s.calls && s.calls[call].Expired?
    ensures CallInv(ApplyEraseExpired(s, call))
  {
    var t := ApplyEraseExpired(s, call);
    assert CallIsSound(s, call);
    ExpireKeepsTables(s, call);
    forall c | c in t.calls ensures CallIsSound(t, c) {
      assert CallIsSound(s, c);
      if c != call {
        ExpireKeepsOther(s, call, c);
      }
    }
  }

  lemma ExpireKeeps(s: State, call: nat)
    requires Inv(s)
    ensures Inv(ApplyEraseExpired(s, call))
  {
    if call in s.calls && s.calls[call].Expired? {
      ExpireKeepsCalls(s, call);
      SilentKeepsTrace(s, ApplyEraseExpired(s, call));
    }
  }

  // ---- Setting promises ----

  lemma PendingIsUnset(s: State, txs: set<string>)
    requires PendingIsInFlight(s) && txs <= s.sh.pending.Keys
    ensures AlreadySet(s.sh.promises, txs) == {}
    ensures forall tx | tx in txs :: tx in s.sh.promises && s.sh.promises[tx].Unset?
  {
  }

  lemma ResolveKeepsCalls(s: State, txs: set<string>, cause: Cause)
    requires CallInv(s) && txs <= s.sh.pending.Keys && ByPromise(cause)
    ensures CallInv(s.(sh := ResolveAll(s.sh, txs, cause)))
  {
    var t := s.(sh := ResolveAll(s.sh, txs, cause));
    PendingIsUnset(s, txs);
    forall c | c in t.calls ensures CallIsSound(t, c) {
      assert CallIsSound(s, c);
    }
  }

  lemma ResolvedObservation(trace: seq<Observation>, txs: set<string>, cause: Cause)
    ensures forall tx :: TimesResolved(trace + [Resolved(txs, cause)], tx)
                      == TimesResolved(trace, tx) + if tx in txs then 1 else 0
    ensures forall n, id :: 0 <= n <= |trace| ==>
              LeftBefore(trace + [Resolved(txs, cause)], n, id) == LeftBefore(trace, n, id)
    ensures forall id :: LeftBefore(trace, |trace|, id)
                     ==> LeftBefore(trace + [Resolved(txs, cause)], |trace| + 1, id)
  {
    assert (trace + [Resolved(txs, cause)])[..|trace|] == trace;
  }

  lemma ResolveKeepsPromiseTrace(s: State, txs: set<string>, cause: Cause)
    requires CallInv(s) && TraceTellsPromises(s) && txs <= s.sh.pending.Keys
    ensures TraceTellsPromises(s.(sh := ResolveAll(s.sh, txs, cause)))
  {
    var t := s.(sh := ResolveAll(s.sh, txs, cause));
    PendingIsUnset(s, txs);
    ResolvedObservation(s.sh.trace, txs, cause);
    assert forall tx :: IsSet(t.sh, tx) <==> IsSet(s.sh, tx) || tx in txs;
    forall i, tx | 0 <= i < |t.sh.trace| && t.sh.trace[i].Resolved? && tx in t.sh.trace[i].txIds
      ensures SetTo(t.sh, tx, t.sh.trace[i].cause)
    {
      if i < |s.sh.trace| {
        assert SetTo(s.sh, tx, s.sh.trace[i].cause);
      }
    }
  }

  lemma ResolveKeepsEvents(s: State, txs: set<string>, cause: Cause)
    requires SessionsAreTold(s) && OutcomesAreExplained(s)
    requires cause.Disconnected? && txs != {} && s.sh.callbackSet ==>
               LeftBefore(s.sh.trace, |s.sh.trace|, cause.sessionId)
    ensures var t := s.(sh := ResolveAll(s.sh, txs, cause)); SessionsAreTold(t) && OutcomesAreExplained(t)
  {
    ResolvedObservation(s.sh.trace, txs, cause);
    var t := s.(sh := ResolveAll(s.sh, txs, cause));
    if s.sh.callbackSet {
      forall i | 0 <= i < |t.sh.trace| && t.sh.trace[i].Resolved? && t.sh.trace[i].cause.Disconnected?
                 && t.sh.trace[i].txIds != {}
        ensures LeftBefore(t.sh.trace, i, t.sh.trace[i].cause.sessionId)
      {
        if i < |s.sh.trace| {
          assert t.sh.trace[i] == s.sh.trace[i];
        }
      }
    }
  }

  lemma ResolveKeeps(s: State, txs: set<string>, cause: Cause)
    requires Inv(s) && txs <= s.sh.pending.Keys && ByPromise(cause)
    requires cause.Disconnected? && txs != {} && s.sh.callbackSet ==>
               LeftBefore(s.sh.trace, |s.sh.trace|, cause.sessionId)
    ensures Inv(s.(sh := ResolveAll(s.sh, txs, cause)))
  {
    ResolveKeepsCalls(s, txs, cause);
    ResolveKeepsPromiseTrace(s, txs, cause);
    ResolveKeepsEvents(s, txs, cause);
  }

  // ---- Connection handlers ----

  /** Only sessions, handlers and what was seen may differ. */
  lemma CallInvIgnoresSessions(s: State, t: State)
    requires CallInv(s) && t.calls == s.calls && t.owner == s.owner && s.seen <= t.seen
    requires t.sh.pending == s.sh.pending && t.sh.promises == s.sh.promises
    ensures CallInv(t)
  {
    forall c | c in t.calls ensures CallIsSound(t, c) {
      assert CallIsSound(s, c);
    }
  }

  lemma TraceIgnoresSessions(s: State, t: State)
    requires TraceInv(s) && t.sh.trace == s.sh.trace && t.sh.promises == s.sh.promises
    requires t.sh.promiseErrors == s.sh.promiseErrors && t.sh.callbackSet == s.sh.callbackSet
    ensures TraceTellsPromises(t) && OutcomesAreExplained(t)
  {
    assert forall tx :: IsSet(s.sh, tx) <==> IsSet(t.sh, tx);
    assert forall tx, cause :: SetTo(s.sh, tx, cause) <==> SetTo(t.sh, tx, cause);
  }

  lemma HelloKeepsSessions(s: State, session: EditorSession)
    requires SessionsAreTold(s)
    ensures SessionsAreTold(ApplyHello(s, session))
  {
  }

  lemma HelloKeeps(s: State, session: EditorSession)
    requires Inv(s)
    ensures Inv(ApplyHello(s, session))
  {
    CallInvIgnoresSessions(s, ApplyHello(s, session));
    TraceIgnoresSessions(s, ApplyHello(s, session));
    HelloKeepsSessions(s, session);
  }

  lemma PublishJoinedKeeps(s: State, id: string)
    requires Inv(s)
    ensures Inv(ApplyPublishJoined(s, id))
  {
    if id in s.handlers && s.handlers[id].Greeting? {
      var t := ApplyPublishJoined(s, id);
      CallInvIgnoresSessions(s, t);
      var quiet := s.(handlers := s.handlers - {id});
      GreetingGoneKeeps(s, id);
      QuietKeepsTrace(quiet, Joined(s.handlers[id].session));
    }
  }

  lemma GreetingGoneKeeps(s: State, id: string)
    requires TraceInv(s) && id in s.handlers && s.handlers[id].Greeting?
    ensures TraceInv(s.(handlers := s.handlers - {id}))
  {
  }

  lemma CloseKeepsSessions(s: State, id: string)
    requires SessionsAreTold(s)
    ensures SessionsAreTold(ApplyClose(s, id))
  {
  }

  lemma CloseKeeps(s: State, id: string)
    requires Inv(s)
    ensures Inv(ApplyClose(s, id))
  {
    CallInvIgnoresSessions(s, ApplyClose(s, id));
    TraceIgnoresSessions(s, ApplyClose(s, id));
    CloseKeepsSessions(s, id);
  }

  lemma PublishLeftKeeps(s: State, id: string)
    requires Inv(s)
    ensures Inv(ApplyPublishLeft(s, id))
  {
    if id in s.handlers && s.handlers[id].Closing? {
      var t := ApplyPublishLeft(s, id);
      CallInvIgnoresSessions(s, t);
      var snapshot := s.handlers[id].snapshot;
      if snapshot.Some? && s.sh.callbackSet {
        var told := s.(sh := s.sh.(trace := s.sh.trace + [Left(snapshot.value)]));
        QuietKeepsTrace(s, Left(snapshot.value));
        assert told.sh.trace[|s.sh.trace|].Left?;
        SweepingNextKeeps(told, id);
      } else {
        SweepingNextKeeps(s, id);
      }
    }
  }

  lemma SweepingNextKeeps(s: State, id: string)
    requires TraceInv(s) && id in s.handlers && s.handlers[id].Closing?
    requires s.sh.callbackSet && s.handlers[id].snapshot.Some? ==> LeftBefore(s.sh.trace, |s.sh.trace|, id)
    ensures TraceInv(s.(handlers := s.handlers[id := Sweeping]))
  {
  }

  /** A sweep that fails anything comes after the session's leaving was announced: an entry
      bound to the session means it once said hello, and now it is gone. */
  lemma SweptSessionIsTold(s: State, id: string)
    requires Inv(s) && id in s.handlers && s.handlers[id].Sweeping?
    requires BoundTo(s.sh.pending, id) != {} && s.sh.callbackSet
    ensures LeftBefore(s.sh.trace, |s.sh.trace|, id)
  {
    var tx :| tx in BoundTo(s.sh.pending, id);
    var c := s.owner[tx];
    assert CallIsSound(s, c);
    assert id in s.seen;
  }

  lemma SweepKeeps(s: State, id: string)
    requires Inv(s)
    ensures Inv(ApplySweep(s, id))
  {
    if id in s.handlers && s.handlers[id].Sweeping? {
      if BoundTo(s.sh.pending, id) != {} && s.sh.callbackSet {
        SweptSessionIsTold(s, id);
      }
      ResolveKeeps(s, BoundTo(s.sh.pending, id), Disconnected(id));
      var swept := s.(sh := SweepSession(s.sh, id));
      CallInvIgnoresSessions(swept, ApplySweep(s, id));
      SweepingGoneKeeps(swept, id);
    }
  }

  lemma SweepingGoneKeeps(s: State, id: string)
    requires TraceInv(s) && id in s.handlers && s.handlers[id].Sweeping?
    ensures TraceInv(s.(handlers := s.handlers - {id}))
  {
  }

  // ---- All steps ----

  lemma ToolResultKeeps(s: State, tx: string, result: ToolResult)
    requires Inv(s)
    ensures Inv(s.(sh := Answer(s.sh, tx, result)))
  {
    if tx in s.sh.pending {
      ResolveKeeps(s, {tx}, Replied(result));
    }
  }

  /** The flag, the active pointer and the stopper's position are in no part of the invariant. */
  lemma FlagsKeep(s: State, running: bool, active: string, stopping: bool)
    requires Inv(s)
    ensures Inv(s.(sh := s.sh.(running := running, activeSessionId := active), stopping := stopping))
  {
    var t := s.(sh := s.sh.(running := running, activeSessionId := active), stopping := stopping);
    CallInvIgnoresSessions(s, t);
    SilentKeepsTrace(s, t);
  }

  lemma StopSweepKeeps(s: State)
    requires Inv(s)
    ensures Inv(Apply(s, StopSweep))
  {
    if s.stopping {
      ResolveKeeps(s, s.sh.pending.Keys, Stopped);
      var swept := s.(sh := SweepAll(s.sh));
      FlagsKeep(swept, swept.sh.running, swept.sh.activeSessionId, false);
      assert Apply(s, StopSweep) == swept.(stopping := false);
    }
  }

  predicate IsRouting(step: Step)
  {
    step.TestRunning? || step.Resolve? || step.ReadActive? || step.ReadSole? || step.LookUp?
  }

  predicate IsOwning(step: Step)
  {
    step.Draw? || step.Insert? || step.Send? || step.Decide? || step.EraseExpired?
  }

  lemma OwningStepKeeps(s: State, step: Step)
    requires Inv(s) && IsOwning(step)
    requires Apply(s, step).issued <= TWO_TO_64
    ensures Inv(Apply(s, step))
  {
    match step
    case Draw(call) =>
      if call in s.calls && s.calls[call].Drawing? {
        DrawKeeps(s, call);
      }
    case Insert(call) => InsertKeeps(s, call);
    case Send(call) => SendKeeps(s, call);
    case Decide(call, deadlinePassed) => DecideKeeps(s, call, deadlinePassed);
    case EraseExpired(call) => ExpireKeeps(s, call);
  }

  lemma SharedStepKeeps(s: State, step: Step)
    requires Inv(s)
    requires step.ToolResult? || step.SetActive? || step.StopFlag? || step.StopSweep?
    ensures Inv(Apply(s, step))
  {
    match step
    case ToolResult(tx, result) => ToolResultKeeps(s, tx, result);
    case SetActive(id) => FlagsKeep(s, s.sh.running, id, s.stopping);
    case StopFlag => FlagsKeep(s, false, s.sh.activeSessionId, true);
    case StopSweep => StopSweepKeeps(s);
  }

  lemma SessionStepKeeps(s: State, step: Step)
    requires Inv(s) && (step.Hello? || step.PublishJoined?)
    ensures Inv(Apply(s, step))
  {
    match step
    case Hello(session) => HelloKeeps(s, session);
    case PublishJoined(id) => PublishJoinedKeeps(s, id);
  }

  lemma CloseStepKeeps(s: State, step: Step)
    requires Inv(s) && (step.Close? || step.PublishLeft? || step.Sweep?)
    ensures Inv(Apply(s, step))
  {
    match step
    case Close(id) => CloseKeeps(s, id);
    case PublishLeft(id) => PublishLeftKeeps(s, id);
    case Sweep(id) => SweepKeeps(s, id);
  }

  lemma InvStep(s: State, step: Step)
    requires Inv(s)
    requires Apply(s, step).issued <= TWO_TO_64
    ensures Inv(Apply(s, step))
  {
    if IsOwning(step) {
      OwningStepKeeps(s, step);
    } else if IsRouting(step) {
      RouteKeeps(s, step.call, step);
    } else if step.Dispatch? {
      if step.call !in s.calls {
        MoveKeeps(s, step.call, Begin(step.target));
      }
    } else if step.ToolResult? || step.SetActive? || step.StopFlag? || step.StopSweep? {
      SharedStepKeeps(s, step);
    } else if step.Hello? || step.PublishJoined? {
      SessionStepKeeps(s, step);
    } else {
      CloseStepKeeps(s, step);
    }
  }

  lemma {:induction false} IssuedGrows(s: State, steps: seq<Step>)
    ensures s.issued <= ExecFrom(s, steps).issued
  {
    if steps != [] {
      IssuedGrows(s, steps[..|steps| - 1]);
      IssuedStep(ExecFrom(s, steps[..|steps| - 1]), steps[|steps| - 1]);
    }
  }

  lemma IssuedStep(s: State, step: Step)
    ensures s.issued <= Apply(s, step).issued
  {
  }

  lemma {:induction false} InvFrom(s: State, steps: seq<Step>)
    requires Inv(s) && ExecFrom(s, steps).issued <= TWO_TO_64
    ensures Inv(ExecFrom(s, steps))
  {
    if steps != [] {
      var init, last := steps[..|steps| - 1], steps[|steps| - 1];
      IssuedStep(ExecFrom(s, init), last);
      InvFrom(s, init);
      InvStep(ExecFrom(s, init), last);
    }
  }

  /** The invariant holds after every schedule that draws at most 2^64 transaction ids. */
  lemma InvAlways(callbackSet: bool, steps: seq<Step>)
    requires Exec(callbackSet, steps).issued <= TWO_TO_64
    ensures Inv(Exec(callbackSet, steps))
  {
    InvAtStart(callbackSet);
    InvFrom(Start(callbackSet), steps);
  }
}
