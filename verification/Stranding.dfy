/** Pending entries bound to a session that is closed and swept, or held by a bridge that has stopped
    and swept: when a call leaves one, that nothing else does, and what can still end it. */
module Stranding {
  import opened Bridge
  import opened BridgeInvariant
  import opened BridgeMachine
  import opened Encodings
  import opened Results
  import opened TxIds

  /** The session is connected, or its close is still to sweep the pending table. */
  predicate Covered(s: State, id: string)
  {
    id in s.sh.sessions || (id in s.handlers && !s.handlers[id].Greeting?)
  }

  /** A pending entry whose session is closed and swept. The close that swept it will not fail it. */
  predicate Stranded(s: State, tx: string)
  {
    tx in s.sh.pending && !Covered(s, s.sh.pending[tx])
  }

  // ---- Exactly when an entry is stranded ----

  /** The step inserts an entry for a session that is already closed and swept. */
  predicate InsertsTooLate(s: State, step: Step)
  {
    && step.Insert? && step.call in s.calls && s.calls[step.call].Inserting?
    && !Covered(s, s.calls[step.call].sessionId)
  }

  /** An insertion strands its entry exactly when the session is no longer covered. */
  lemma InsertStrandsIff(s: State, call: nat)
    requires call in s.calls && s.calls[call].Inserting?
    ensures Stranded(ApplyInsert(s, call), s.calls[call].tx) <==> !Covered(s, s.calls[call].sessionId)
  {
  }

  lemma RoutingKeepsTables(s: State, call: nat, step: Step)
    ensures ApplyRoute(s, call, step).sh == s.sh && ApplyRoute(s, call, step).handlers == s.handlers
  {
  }

  /** Steps of calls leave sessions and handlers alone and add no entry but the inserted one. */
  lemma CallStepKeepsCover(s: State, step: Step)
    requires IsRouting(step) || IsOwning(step) || step.Dispatch?
    ensures var t := Apply(s, step);
            && t.sh.sessions == s.sh.sessions && t.handlers == s.handlers
            && forall tx | tx in t.sh.pending ::
                 || (tx in s.sh.pending && t.sh.pending[tx] == s.sh.pending[tx])
                 || (step.Insert? && step.call in s.calls && s.calls[step.call].Inserting?
                     && s.calls[step.call].tx == tx && s.calls[step.call].sessionId == t.sh.pending[tx])
  {
    if IsRouting(step) {
      RoutingKeepsTables(s, step.call, step);
      assert Apply(s, step) == ApplyRoute(s, step.call, step);
    } else if step.Insert? {
      assert Apply(s, step) == ApplyInsert(s, step.call);
    }
  }

  /** Results, flags and the sweeps only take entries away. */
  lemma SharedStepKeepsCover(s: State, step: Step)
    requires step.ToolResult? || step.SetActive? || step.StopFlag? || step.StopSweep?
    ensures var t := Apply(s, step);
            && t.sh.sessions == s.sh.sessions && t.handlers == s.handlers
            && forall tx | tx in t.sh.pending :: tx in s.sh.pending && t.sh.pending[tx] == s.sh.pending[tx]
  {
  }

  /** The entry was there before, and if its session was covered it still is. */
  predicate KeepsCover(s: State, t: State, tx: string)
    requires tx in t.sh.pending
  {
    && tx in s.sh.pending && t.sh.pending[tx] == s.sh.pending[tx]
    && (Covered(s, s.sh.pending[tx]) ==> Covered(t, s.sh.pending[tx]))
  }

  lemma HelloKeepsCover(s: State, session: EditorSession, tx: string)
    requires tx in ApplyHello(s, session).sh.pending
    ensures KeepsCover(s, ApplyHello(s, session), tx)
  {
  }

  lemma PublishJoinedKeepsCover(s: State, id: string, tx: string)
    requires tx in ApplyPublishJoined(s, id).sh.pending
    ensures KeepsCover(s, ApplyPublishJoined(s, id), tx)
  {
  }

  lemma CloseKeepsCover(s: State, id: string, tx: string)
    requires tx in ApplyClose(s, id).sh.pending
    ensures KeepsCover(s, ApplyClose(s, id), tx)
  {
  }

  lemma PublishLeftKeepsCover(s: State, id: string, tx: string)
    requires tx in ApplyPublishLeft(s, id).sh.pending
    ensures KeepsCover(s, ApplyPublishLeft(s, id), tx)
  {
  }

  /** A covered session with a pending entry loses its cover only by the sweep, which removes
      its entries. */
  lemma SweepKeepsCover(s: State, id: string, tx: string)
    requires tx in ApplySweep(s, id).sh.pending
    ensures KeepsCover(s, ApplySweep(s, id), tx)
  {
  }

  lemma HandlerStepKeepsCover(s: State, step: Step, tx: string)
    requires step.Hello? || step.PublishJoined? || step.Close? || step.PublishLeft? || step.Sweep?
    requires tx in Apply(s, step).sh.pending
    ensures KeepsCover(s, Apply(s, step), tx)
  {
    match step
    case Hello(session) => HelloKeepsCover(s, session, tx);
    case PublishJoined(id) => PublishJoinedKeepsCover(s, id, tx);
    case Close(id) => CloseKeepsCover(s, id, tx);
    case PublishLeft(id) => PublishLeftKeepsCover(s, id, tx);
    case Sweep(id) => SweepKeepsCover(s, id, tx);
  }

  /** No step but such an insertion strands an entry. */
  lemma OnlyInsertStrands(s: State, step: Step, tx: string)
    requires Stranded(Apply(s, step), tx) && !Stranded(s, tx)
    ensures InsertsTooLate(s, step) && s.calls[step.call].tx == tx
  {
    if IsRouting(step) || IsOwning(step) || step.Dispatch? {
      CallStepKeepsCover(s, step);
    } else if step.ToolResult? || step.SetActive? || step.StopFlag? || step.StopSweep? {
      SharedStepKeepsCover(s, step);
    } else {
      HandlerStepKeepsCover(s, step, tx);
    }
  }

  ghost predicate NoneStranded(s: State)
  {
    forall tx | tx in s.sh.pending :: Covered(s, s.sh.pending[tx])
  }

  ghost predicate NoneStrandedThroughout(callbackSet: bool, steps: seq<Step>)
  {
    forall n | 0 <= n <= |steps| :: NoneStranded(Exec(callbackSet, steps[..n]))
  }

  ghost predicate NeverTooLate(callbackSet: bool, steps: seq<Step>)
  {
    forall n | 0 <= n < |steps| :: !InsertsTooLate(Exec(callbackSet, steps[..n]), steps[n])
  }

  lemma ExecNext(callbackSet: bool, steps: seq<Step>, n: nat)
    requires n < |steps|
    ensures Exec(callbackSet, steps[..n + 1]) == Apply(Exec(callbackSet, steps[..n]), steps[n])
  {
    assert steps[..n + 1][..n] == steps[..n];
  }

  lemma TooLateStrands(s: State, step: Step)
    ensures InsertsTooLate(s, step) ==> !NoneStranded(Apply(s, step))
  {
    if InsertsTooLate(s, step) {
      InsertStrandsIff(s, step.call);
      assert Stranded(Apply(s, step), s.calls[step.call].tx);
    }
  }

  lemma {:induction false} NoneStrandedUpTo(callbackSet: bool, steps: seq<Step>, n: nat)
    requires NeverTooLate(callbackSet, steps) && n <= |steps|
    ensures NoneStranded(Exec(callbackSet, steps[..n]))
  {
    if n > 0 {
      NoneStrandedUpTo(callbackSet, steps, n - 1);
      ExecNext(callbackSet, steps, n - 1);
      var s, t := Exec(callbackSet, steps[..n - 1]), Exec(callbackSet, steps[..n]);
      forall tx | tx in t.sh.pending ensures Covered(t, t.sh.pending[tx]) {
        if Stranded(t, tx) {
          OnlyInsertStrands(s, steps[n - 1], tx);
        }
      }
    }
  }

  /** A run never holds a stranded entry if and only if it never inserts one for a session that is
      already closed and swept. */
  lemma NeverStrandedIff(callbackSet: bool, steps: seq<Step>)
    ensures NoneStrandedThroughout(callbackSet, steps) <==> NeverTooLate(callbackSet, steps)
  {
    if NeverTooLate(callbackSet, steps) {
      forall n | 0 <= n <= |steps| ensures NoneStranded(Exec(callbackSet, steps[..n])) {
        NoneStrandedUpTo(callbackSet, steps, n);
      }
    }
    forall n | NoneStrandedThroughout(callbackSet, steps) && 0 <= n < |steps|
      ensures !InsertsTooLate(Exec(callbackSet, steps[..n]), steps[n])
    {
      ExecNext(callbackSet, steps, n);
      TooLateStrands(Exec(callbackSet, steps[..n]), steps[n]);
      assert NoneStranded(Exec(callbackSet, steps[..n + 1]));
    }
  }

  // ---- What still ends it ----

  /** A result for the transaction, its own time-out, the sweep of a stop, or the session's id coming
      back into use: by a hello, or by another close, whose sweep will then fail the entry. */
  ghost predicate EndsStranding(s: State, step: Step, tx: string)
    requires tx in s.sh.pending
  {
    match step
    case ToolResult(answered, _) => answered == tx
    case EraseExpired(call) => call in s.calls && s.calls[call].Expired? && s.calls[call].tx == tx
    case StopSweep => s.stopping
    case Hello(session) => session.sessionId == s.sh.pending[tx] && session.sessionId !in s.handlers
    case Close(id) => id == s.sh.pending[tx] && id !in s.handlers
    case _ => false
  }

  /** A handler at work on another session, or greeting, covers no stranded entry's session. */
  lemma OtherHandlersEndNothing(s: State, step: Step, tx: string)
    requires Stranded(s, tx) && (step.PublishJoined? || step.PublishLeft? || step.Sweep?)
    ensures Stranded(Apply(s, step), tx)
  {
    match step
    case PublishJoined(id) => assert Apply(s, step) == ApplyPublishJoined(s, id);
    case PublishLeft(id) => assert Apply(s, step) == ApplyPublishLeft(s, id);
    case Sweep(id) => assert Apply(s, step) == ApplySweep(s, id);
  }

  lemma HelloOrCloseEnds(s: State, step: Step, tx: string)
    requires Stranded(s, tx) && (step.Hello? || step.Close?)
    ensures Stranded(Apply(s, step), tx) <==> !EndsStranding(s, step, tx)
  {
    match step
    case Hello(session) => assert Apply(s, step) == ApplyHello(s, session);
    case Close(id) => assert Apply(s, step) == ApplyClose(s, id);
  }

  lemma SharedStepEnds(s: State, step: Step, tx: string)
    requires Stranded(s, tx) && (step.ToolResult? || step.SetActive? || step.StopFlag? || step.StopSweep?)
    ensures Stranded(Apply(s, step), tx) <==> !EndsStranding(s, step, tx)
  {
  }

  /** An insertion re-binds no entry. */
  lemma InsertEndsNothing(s: State, call: nat, tx: string)
    requires CallInv(s) && Stranded(s, tx)
    ensures Stranded(ApplyInsert(s, call), tx)
  {
    if call in s.calls && s.calls[call].Inserting? {
      InsertKeepsCalls(s, call);
    }
  }

  lemma ExpiryEnds(s: State, call: nat, tx: string)
    requires Stranded(s, tx)
    ensures Stranded(ApplyEraseExpired(s, call), tx) <==>
              !(call in s.calls && s.calls[call].Expired? && s.calls[call].tx == tx)
  {
  }

  lemma OtherOwningStepEndsNothing(s: State, step: Step, tx: string)
    requires Stranded(s, tx) && (step.Draw? || step.Send? || step.Decide?)
    ensures Stranded(Apply(s, step), tx)
  {
  }

  lemma OwningStepEnds(s: State, step: Step, tx: string)
    requires CallInv(s) && Stranded(s, tx) && IsOwning(step)
    ensures Stranded(Apply(s, step), tx) <==> !EndsStranding(s, step, tx)
  {
    if step.Insert? {
      InsertEndsNothing(s, step.call, tx);
    } else if step.EraseExpired? {
      ExpiryEnds(s, step.call, tx);
    } else {
      OtherOwningStepEndsNothing(s, step, tx);
    }
  }

  /** In a reachable state, exactly these steps end the stranding of an entry. */
  lemma StrandingEndsIff(callbackSet: bool, steps: seq<Step>, step: Step, tx: string)
    requires Exec(callbackSet, steps).issued <= TWO_TO_64
    requires Stranded(Exec(callbackSet, steps), tx)
    ensures var s := Exec(callbackSet, steps);
            Stranded(Apply(s, step), tx) <==> !EndsStranding(s, step, tx)
  {
    InvAlways(callbackSet, steps);
    var s := Exec(callbackSet, steps);
    if IsOwning(step) {
      OwningStepEnds(s, step, tx);
    } else if IsRouting(step) || step.Dispatch? {
      CallStepEndsNothing(s, step, tx);
    } else if step.Hello? || step.Close? {
      HelloOrCloseEnds(s, step, tx);
    } else if step.PublishJoined? || step.PublishLeft? || step.Sweep? {
      OtherHandlersEndNothing(s, step, tx);
    } else {
      SharedStepEnds(s, step, tx);
    }
  }

  lemma CallStepEndsNothing(s: State, step: Step, tx: string)
    requires Stranded(s, tx) && (IsRouting(step) || step.Dispatch?)
    ensures Stranded(Apply(s, step), tx)
  {
    if IsRouting(step) {
      RoutingKeepsTables(s, step.call, step);
    }
  }

  // ---- Entries a stop leaves behind ----

  /** The bridge has stopped and swept. */
  predicate IsStopped(s: State)
  {
    !s.sh.running && !s.stopping
  }

  /** A pending entry that the stop did not resolve: its call waits for its time-out, a result or
      a close. */
  predicate IsLeftBehind(s: State, tx: string)
  {
    tx in s.sh.pending && IsStopped(s)
  }

  /** The step inserts an entry after the sweep of a stop. */
  predicate InsertsAfterStop(s: State, step: Step)
  {
    step.Insert? && step.call in s.calls && s.calls[step.call].Inserting? && IsStopped(s)
  }

  /** Steps of calls start and end no stop. */
  lemma CallStepKeepsFlags(s: State, step: Step)
    requires IsRouting(step) || IsOwning(step) || step.Dispatch?
    ensures IsStopped(Apply(s, step)) == IsStopped(s)
  {
    if IsRouting(step) {
      RoutingKeepsFlags(s, step.call, step);
    }
  }

  lemma RoutingKeepsFlags(s: State, call: nat, step: Step)
    ensures ApplyRoute(s, call, step).sh == s.sh && ApplyRoute(s, call, step).stopping == s.stopping
  {
  }

  /** A stop ends with its sweep, which leaves no entry. */
  lemma SharedStepStops(s: State, step: Step)
    requires step.ToolResult? || step.SetActive? || step.StopFlag? || step.StopSweep?
    ensures IsStopped(Apply(s, step)) && !IsStopped(s) ==> Apply(s, step).sh.pending.Keys == {}
  {
  }

  lemma HandlerStepKeepsFlags(s: State, step: Step)
    requires step.Hello? || step.PublishJoined? || step.Close? || step.PublishLeft? || step.Sweep?
    ensures IsStopped(Apply(s, step)) == IsStopped(s)
    ensures Apply(s, step).sh.pending.Keys <= s.sh.pending.Keys
  {
  }

  /** No step but such an insertion leaves an entry behind. */
  lemma OnlyInsertLeavesBehind(s: State, step: Step, tx: string)
    requires IsLeftBehind(Apply(s, step), tx) && !IsLeftBehind(s, tx)
    ensures InsertsAfterStop(s, step) && s.calls[step.call].tx == tx
  {
    if IsRouting(step) || IsOwning(step) || step.Dispatch? {
      CallStepKeepsCover(s, step);
      CallStepKeepsFlags(s, step);
    } else if step.ToolResult? || step.SetActive? || step.StopFlag? || step.StopSweep? {
      SharedStepKeepsCover(s, step);
      SharedStepStops(s, step);
    } else {
      HandlerStepKeepsFlags(s, step);
    }
  }

  ghost predicate NoneLeftBehind(s: State)
  {
    IsStopped(s) ==> s.sh.pending == map[]
  }

  lemma InsertLeavesBehind(s: State, step: Step)
    ensures InsertsAfterStop(s, step) ==> !NoneLeftBehind(Apply(s, step))
  {
    if InsertsAfterStop(s, step) {
      assert Apply(s, step) == ApplyInsert(s, step.call);
      assert s.calls[step.call].tx in Apply(s, step).sh.pending;
    }
  }

  lemma {:induction false} NoneLeftBehindUpTo(callbackSet: bool, steps: seq<Step>, n: nat)
    requires NeverAfterStop(callbackSet, steps) && n <= |steps|
    ensures NoneLeftBehind(Exec(callbackSet, steps[..n]))
  {
    if n > 0 {
      NoneLeftBehindUpTo(callbackSet, steps, n - 1);
      ExecNext(callbackSet, steps, n - 1);
      var s, t := Exec(callbackSet, steps[..n - 1]), Exec(callbackSet, steps[..n]);
      forall tx | tx in t.sh.pending ensures !IsStopped(t) {
        if IsLeftBehind(t, tx) {
          OnlyInsertLeavesBehind(s, steps[n - 1], tx);
        }
      }
    }
  }

  ghost predicate NeverAfterStop(callbackSet: bool, steps: seq<Step>)
  {
    forall n | 0 <= n < |steps| :: !InsertsAfterStop(Exec(callbackSet, steps[..n]), steps[n])
  }

  ghost predicate NoneLeftBehindThroughout(callbackSet: bool, steps: seq<Step>)
  {
    forall n | 0 <= n <= |steps| :: NoneLeftBehind(Exec(callbackSet, steps[..n]))
  }

  /** A stopped bridge never holds a pending entry, in the whole run, if and only if no call that was
      already past the running test inserts its entry after the stop's sweep. */
  lemma NeverLeftBehindIff(callbackSet: bool, steps: seq<Step>)
    ensures NoneLeftBehindThroughout(callbackSet, steps) <==> NeverAfterStop(callbackSet, steps)
  {
    if NeverAfterStop(callbackSet, steps) {
      forall n | 0 <= n <= |steps| ensures NoneLeftBehind(Exec(callbackSet, steps[..n])) {
        NoneLeftBehindUpTo(callbackSet, steps, n);
      }
    }
    forall n | NoneLeftBehindThroughout(callbackSet, steps) && 0 <= n < |steps|
      ensures !InsertsAfterStop(Exec(callbackSet, steps[..n]), steps[n])
    {
      ExecNext(callbackSet, steps, n);
      InsertLeavesBehind(Exec(callbackSet, steps[..n]), steps[n]);
      assert NoneLeftBehind(Exec(callbackSet, steps[..n + 1]));
    }
  }

  // ---- It does happen ----

  /** The three steps of a connection's close, with nothing between them. */
  function WholeClose(s: State, id: string): State
  {
    ApplySweep(ApplyPublishLeft(ApplyClose(s, id), id), id)
  }

  lemma WholeCloseOf(s: State, id: string)
    requires id !in s.handlers
    ensures var t := WholeClose(s, id);
            t.calls == s.calls && id !in t.sh.sessions && id !in t.handlers
  {
  }

  lemma DrawThenInsert(s: State, call: nat)
    requires call in s.calls && (s.calls[call].Drawing? || s.calls[call].Inserting?)
    ensures var t := ApplyInsert(ApplyDraw(s, call), call);
            var tx := if s.calls[call].Drawing? then TxId(s.sh.txCounter) else s.calls[call].tx;
            && t.sh.sessions == s.sh.sessions && t.handlers == s.handlers
            && tx in t.sh.pending && t.sh.pending[tx] == s.calls[call].sessionId
  {
  }

  /** Wherever a call stands between its socket lookup and its insertion, a whole close of its
      session can come between, and then the entry is stranded. */
  lemma EntryMayOutliveItsSession(s: State, call: nat)
    requires call in s.calls && (s.calls[call].Drawing? || s.calls[call].Inserting?)
    requires s.calls[call].sessionId !in s.handlers
    ensures var id := s.calls[call].sessionId;
            var t := ApplyInsert(ApplyDraw(WholeClose(s, id), call), call);
            exists tx :: Stranded(t, tx) && t.sh.pending[tx] == id
  {
    var id := s.calls[call].sessionId;
    WholeCloseOf(s, id);
    var closed := WholeClose(s, id);
    DrawThenInsert(closed, call);
    var tx := if s.calls[call].Drawing? then TxId(closed.sh.txCounter) else s.calls[call].tx;
    assert Stranded(ApplyInsert(ApplyDraw(closed, call), call), tx);
  }

  lemma ExecThree(s: State, a: Step, b: Step, c: Step)
    ensures ExecFrom(s, [a, b, c]) == Apply(Apply(Apply(s, a), b), c)
  {
    assert [a, b, c][..2] == [a, b] && [a, b][..1] == [a] && [a][..0] == [];
    assert ExecFrom(s, [a]) == Apply(s, a);
    assert ExecFrom(s, [a, b]) == Apply(Apply(s, a), b);
  }

  lemma ExecTwo(s: State, a: Step, b: Step)
    ensures ExecFrom(s, [a, b]) == Apply(Apply(s, a), b)
  {
    assert [a, b][..1] == [a] && [a][..0] == [];
    assert ExecFrom(s, [a]) == Apply(s, a);
  }

  /** One connected session, and one call that names it. */
  ghost predicate Met(s: State, session: EditorSession)
  {
    && 0 in s.calls && s.calls[0] == Begin(session.sessionId)
    && session.sessionId in s.sh.sessions && s.sh.sessions[session.sessionId] == session
    && s.sh.running && session.sessionId !in s.handlers
  }

  /** The steps by which a session says hello and a call that names it starts. */
  function Meeting(session: EditorSession): seq<Step>
  {
    [Hello(session), PublishJoined(session.sessionId), Dispatch(0, session.sessionId)]
  }

  lemma MeetingMeets(callbackSet: bool, session: EditorSession)
    ensures Met(Exec(callbackSet, Meeting(session)), session)
  {
    var start, id := Start(callbackSet), session.sessionId;
    ExecThree(start, Hello(session), PublishJoined(id), Dispatch(0, id));
    var s1 := Apply(start, Hello(session));
    assert s1 == ApplyHello(start, session);
    var s2 := Apply(s1, PublishJoined(id));
    assert s2 == ApplyPublishJoined(s1, id);
    assert Apply(s2, Dispatch(0, id)) == Goto(s2, 0, Begin(id));
  }

  lemma MetCallRoutes(s: State, session: EditorSession)
    requires Met(s, session) && session.sessionId != ""
    ensures var t := ExecFrom(s, [TestRunning(0), Resolve(0, Some(session)), LookUp(0)]);
            && 0 in t.calls && t.calls[0] == Drawing(session.sessionId, session.ws)
            && session.sessionId !in t.handlers && t.sh.running
  {
    var id := session.sessionId;
    ExecThree(s, TestRunning(0), Resolve(0, Some(session)), LookUp(0));
    var s1 := ApplyRoute(s, 0, TestRunning(0));
    assert s1 == Goto(s, 0, Resolving(id));
    var s2 := ApplyRoute(s1, 0, Resolve(0, Some(session)));
    assert s2 == Goto(s1, 0, LookingUp(session.sessionId));
    assert ApplyRoute(s2, 0, LookUp(0)) == Goto(s2, 0, Drawing(id, session.ws));
  }

  /** Such entries do occur: for every session this schedule strands one. */
  lemma StrandedEntryIsReachable(callbackSet: bool, session: EditorSession)
    requires session.sessionId != ""
    ensures var id := session.sessionId;
            var s := Exec(callbackSet,
              Meeting(session) + [TestRunning(0), Resolve(0, Some(session)), LookUp(0)]
              + [Close(id), PublishLeft(id), Sweep(id)] + [Draw(0), Insert(0)]);
            exists tx :: Stranded(s, tx) && s.sh.pending[tx] == id
  {
    var start, id := Start(callbackSet), session.sessionId;
    var routed := Meeting(session) + [TestRunning(0), Resolve(0, Some(session)), LookUp(0)];
    MeetingMeets(callbackSet, session);
    ExecFromAppend(start, Meeting(session), [TestRunning(0), Resolve(0, Some(session)), LookUp(0)]);
    MetCallRoutes(Exec(callbackSet, Meeting(session)), session);
    CloseThenInsert(Exec(callbackSet, routed), id);
    ExecFromAppend(start, routed, [Close(id), PublishLeft(id), Sweep(id)]);
    ExecFromAppend(start, routed + [Close(id), PublishLeft(id), Sweep(id)], [Draw(0), Insert(0)]);
    assert Exec(callbackSet, routed + [Close(id), PublishLeft(id), Sweep(id)] + [Draw(0), Insert(0)])
        == ExecFrom(ExecFrom(Exec(callbackSet, routed), [Close(id), PublishLeft(id), Sweep(id)]), [Draw(0), Insert(0)]);
  }

  lemma CloseSteps(s: State, id: string)
    ensures Apply(s, Close(id)) == ApplyClose(s, id)
    ensures Apply(s, PublishLeft(id)) == ApplyPublishLeft(s, id)
    ensures Apply(s, Sweep(id)) == ApplySweep(s, id)
  {
  }

  lemma ExecWholeClose(s: State, id: string)
    ensures ExecFrom(s, [Close(id), PublishLeft(id), Sweep(id)]) == WholeClose(s, id)
  {
    ExecThree(s, Close(id), PublishLeft(id), Sweep(id));
    CloseSteps(s, id);
    CloseSteps(ApplyClose(s, id), id);
    CloseSteps(ApplyPublishLeft(ApplyClose(s, id), id), id);
  }

  lemma ExecDrawInsert(s: State, call: nat)
    ensures ExecFrom(s, [Draw(call), Insert(call)]) == ApplyInsert(ApplyDraw(s, call), call)
  {
    ExecTwo(s, Draw(call), Insert(call));
  }

  lemma CloseThenInsert(s: State, id: string)
    requires 0 in s.calls && s.calls[0].Drawing? && s.calls[0].sessionId == id && id !in s.handlers
    ensures var t := ExecFrom(ExecFrom(s, [Close(id), PublishLeft(id), Sweep(id)]), [Draw(0), Insert(0)]);
            exists tx :: Stranded(t, tx) && t.sh.pending[tx] == id
  {
    EntryMayOutliveItsSession(s, 0);
    ExecWholeClose(s, id);
    ExecDrawInsert(WholeClose(s, id), 0);
  }

  lemma StopThenInsert(s: State)
    requires 0 in s.calls && s.calls[0].Drawing? && s.sh.running
    ensures var t := ExecFrom(ExecFrom(s, [StopFlag, StopSweep]), [Draw(0), Insert(0)]);
            IsStopped(t) && t.sh.pending != map[]
  {
    ExecTwo(s, StopFlag, StopSweep);
    var stopped := ExecFrom(s, [StopFlag, StopSweep]);
    StopSteps(s);
    ExecDrawInsert(stopped, 0);
    DrawThenInsert(stopped, 0);
    DrawInsertKeepsFlags(stopped, 0);
  }

  lemma StopSteps(s: State)
    requires s.sh.running
    ensures var t := Apply(Apply(s, StopFlag), StopSweep); IsStopped(t) && t.calls == s.calls
  {
  }

  lemma DrawInsertKeepsFlags(s: State, call: nat)
    ensures IsStopped(ApplyInsert(ApplyDraw(s, call), call)) == IsStopped(s)
  {
  }

  /** A stop does leave entries behind: in this schedule a call draws and inserts after it. */
  lemma LeftBehindIsReachable(callbackSet: bool, session: EditorSession)
    requires session.sessionId != ""
    ensures var s := Exec(callbackSet,
              Meeting(session) + [TestRunning(0), Resolve(0, Some(session)), LookUp(0)]
              + [StopFlag, StopSweep] + [Draw(0), Insert(0)]);
            IsStopped(s) && s.sh.pending != map[]
  {
    var start := Start(callbackSet);
    var routed := Meeting(session) + [TestRunning(0), Resolve(0, Some(session)), LookUp(0)];
    MeetingMeets(callbackSet, session);
    ExecFromAppend(start, Meeting(session), [TestRunning(0), Resolve(0, Some(session)), LookUp(0)]);
    MetCallRoutes(Exec(callbackSet, Meeting(session)), session);
    StopThenInsert(Exec(callbackSet, routed));
    ExecFromAppend(start, routed, [StopFlag, StopSweep]);
    ExecFromAppend(start, routed + [StopFlag, StopSweep], [Draw(0), Insert(0)]);
  }
}
