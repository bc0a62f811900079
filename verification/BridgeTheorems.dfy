/** What the bridge keeps over every schedule of its threads. */
module BridgeTheorems {
  import opened Bridge
  import opened BridgeInvariant
  import opened BridgeMachine
  import opened Encodings
  import opened Results

  // ---- One outcome per call ----

  lemma ReturnedCall(s: State, c: nat)
    requires Inv(s) && c in s.calls && s.calls[c].Returned?
    ensures s.calls[c].owned.Some? <==> ByPromise(s.calls[c].cause) || s.calls[c].cause == TimedOut
    ensures s.calls[c].owned.Some? ==>
              var tx := s.calls[c].owned.value;
              && tx !in s.sh.pending
              && tx in s.owner && s.owner[tx] == c
              && (ByPromise(s.calls[c].cause) ==>
                    SetTo(s.sh, tx, s.calls[c].cause) && TimesResolved(s.sh.trace, tx) == 1)
  {
    assert CallIsSound(s, c);
  }

  /** After every schedule: no promise was ever set twice, a pending entry's promise is unset, a
      call in flight is pending or already answered but not both, and a returned call returned
      the one value its promise was set to, or timed out, or never owned a transaction. */
  lemma OneOutcomePerCall(callbackSet: bool, steps: seq<Step>)
    requires Exec(callbackSet, steps).issued <= TWO_TO_64
    ensures var s := Exec(callbackSet, steps);
            && s.sh.promiseErrors == 0
            && (forall tx :: TimesResolved(s.sh.trace, tx) <= 1)
            && (forall tx | tx in s.sh.pending :: tx in s.sh.promises && s.sh.promises[tx] == Unset)
            && (forall c | c in s.calls && InFlight(s.calls[c]) ::
                  s.calls[c].tx in s.sh.pending <==> !IsSet(s.sh, s.calls[c].tx))
            && (forall c | c in s.calls && s.calls[c].Returned? && s.calls[c].owned.Some? ::
                  && s.calls[c].owned.value !in s.sh.pending
                  && (s.calls[c].cause == TimedOut || SetTo(s.sh, s.calls[c].owned.value, s.calls[c].cause)))
  {
    InvAlways(callbackSet, steps);
    var s := Exec(callbackSet, steps);
    forall c | c in s.calls && InFlight(s.calls[c])
      ensures s.calls[c].tx in s.sh.pending <==> !IsSet(s.sh, s.calls[c].tx)
    {
      assert CallIsSound(s, c);
    }
    forall c | c in s.calls && s.calls[c].Returned? && s.calls[c].owned.Some?
      ensures s.calls[c].owned.value !in s.sh.pending
      ensures s.calls[c].cause == TimedOut || SetTo(s.sh, s.calls[c].owned.value, s.calls[c].cause)
    {
      ReturnedCall(s, c);
    }
  }

  ghost function ResolvedTxs(s: State): set<string>
  {
    set tx | tx in s.sh.promises && s.sh.promises[tx].Satisfied?
  }

  /** Transactions whose call gave up waiting and that nobody ever answered. */
  ghost function TimedOutTxs(s: State): set<string>
  {
    set tx | tx in s.sh.promises && s.sh.promises[tx].Unset?
             && tx in s.owner && s.owner[tx] in s.calls
             && s.calls[s.owner[tx]] == Returned(TimedOut, Some(tx))
  }

  /** Transactions drawn by a call that has yet to insert its entry. */
  ghost function DrawnTxs(s: State): set<string>
  {
    set tx | tx in s.owner && s.owner[tx] in s.calls && s.calls[s.owner[tx]].Inserting?
  }

  /** The ids drawn split disjointly into not yet inserted, pending, resolved and timed out. */
  lemma TransactionsSplit(callbackSet: bool, steps: seq<Step>)
    requires Exec(callbackSet, steps).issued <= TWO_TO_64
    ensures var s := Exec(callbackSet, steps);
            && s.sh.promises.Keys == s.sh.pending.Keys + ResolvedTxs(s) + TimedOutTxs(s)
            && s.sh.pending.Keys !! ResolvedTxs(s) !! TimedOutTxs(s)
            && s.owner.Keys == s.sh.promises.Keys + DrawnTxs(s)
            && s.sh.promises.Keys !! DrawnTxs(s)
  {
    InvAlways(callbackSet, steps);
    var s := Exec(callbackSet, steps);
    forall tx | tx in s.sh.promises && s.sh.promises[tx].Unset? && tx !in s.sh.pending
      ensures tx in TimedOutTxs(s)
    {
      UnansweredTx(s, tx);
    }
    TimedOutIsNotPending(s);
    DrawnOrInserted(s);
  }

  lemma TimedOutIsNotPending(s: State)
    requires CallsAreSound(s)
    ensures forall tx | tx in TimedOutTxs(s) :: tx !in s.sh.pending
  {
    forall tx | tx in TimedOutTxs(s) ensures tx !in s.sh.pending {
      assert CallIsSound(s, s.owner[tx]);
    }
  }

  lemma DrawnOrInserted(s: State)
    requires CallInv(s)
    ensures s.owner.Keys == s.sh.promises.Keys + DrawnTxs(s)
    ensures s.sh.promises.Keys !! DrawnTxs(s)
  {
    forall tx | tx in s.owner ensures tx in s.sh.promises <==> tx !in DrawnTxs(s) {
      assert CallIsSound(s, s.owner[tx]);
    }
  }

  lemma UnansweredTx(s: State, tx: string)
    requires Inv(s)
    requires tx in s.sh.promises && s.sh.promises[tx].Unset? && tx !in s.sh.pending
    ensures tx in s.owner && s.owner[tx] in s.calls
    ensures s.calls[s.owner[tx]] == Returned(TimedOut, Some(tx))
  {
    var c := s.owner[tx];
    assert CallIsSound(s, c);
  }

  // ---- Returned is final, and nothing leaks ----

  lemma RoutingLeavesReturned(s: State, call: nat, step: Step, c: nat)
    requires c in s.calls && s.calls[c].Returned?
    ensures c in ApplyRoute(s, call, step).calls && ApplyRoute(s, call, step).calls[c] == s.calls[c]
  {
  }

  lemma OwningLeavesReturned(s: State, step: Step, c: nat)
    requires c in s.calls && s.calls[c].Returned? && IsOwning(step)
    ensures c in Apply(s, step).calls && Apply(s, step).calls[c] == s.calls[c]
  {
  }

  lemma ReturnedStaysOneStep(s: State, step: Step, c: nat)
    requires c in s.calls && s.calls[c].Returned?
    ensures c in Apply(s, step).calls && Apply(s, step).calls[c] == s.calls[c]
  {
    if IsRouting(step) {
      RoutingLeavesReturned(s, step.call, step, c);
    } else if IsOwning(step) {
      OwningLeavesReturned(s, step, c);
    }
  }

  lemma {:induction false} ReturnedStays(s: State, more: seq<Step>, c: nat)
    requires c in s.calls && s.calls[c].Returned?
    ensures c in ExecFrom(s, more).calls && ExecFrom(s, more).calls[c] == s.calls[c]
  {
    if more != [] {
      ReturnedStays(s, more[..|more| - 1], c);
      ReturnedStaysOneStep(ExecFrom(s, more[..|more| - 1]), more[|more| - 1], c);
    }
  }

  /** Once a call has returned, its outcome never changes and its transaction is in the pending
      table of no later state, however results, timeouts, closes and a stop race. */
  lemma NoLeakAfterReturn(callbackSet: bool, steps: seq<Step>, more: seq<Step>, c: nat)
    requires Exec(callbackSet, steps + more).issued <= TWO_TO_64
    requires c in Exec(callbackSet, steps).calls && Exec(callbackSet, steps).calls[c].Returned?
    ensures c in Exec(callbackSet, steps + more).calls
    ensures Exec(callbackSet, steps + more).calls[c] == Exec(callbackSet, steps).calls[c]
    ensures var owned := Exec(callbackSet, steps).calls[c].owned;
            owned.Some? ==> owned.value !in Exec(callbackSet, steps + more).sh.pending
  {
    ExecFromAppend(Start(callbackSet), steps, more);
    ReturnedStays(Exec(callbackSet, steps), more, c);
    InvAlways(callbackSet, steps + more);
    ReturnedCall(Exec(callbackSet, steps + more), c);
  }

  /** A call that ended with a routing error drew no transaction id. */
  lemma RoutingFailureOwnsNothing(callbackSet: bool, steps: seq<Step>, c: nat)
    requires Exec(callbackSet, steps).issued <= TWO_TO_64
    requires c in Exec(callbackSet, steps).calls && Exec(callbackSet, steps).calls[c].Returned?
    requires var cause := Exec(callbackSet, steps).calls[c].cause;
             cause.NotRunning? || cause.NoMatch? || cause.NoPlugin? || cause.Ambiguous? || cause.Gone?
    ensures c !in Exec(callbackSet, steps).owner.Values
  {
    InvAlways(callbackSet, steps);
    var s := Exec(callbackSet, steps);
    ReturnedCall(s, c);
    forall tx | tx in s.owner ensures s.owner[tx] != c {
      assert OwnsTx(s.calls[s.owner[tx]]);
    }
  }

  // ---- Event order ----

  /** With a callback set, every disconnect outcome delivered for a session comes after that
      session's "disconnected" event, in every schedule. */
  lemma DisconnectIsToldFirst(steps: seq<Step>, i: nat, tx: string)
    requires Exec(true, steps).issued <= TWO_TO_64
    requires i < |Exec(true, steps).sh.trace|
    requires var o := Exec(true, steps).sh.trace[i]; o.Resolved? && o.cause.Disconnected? && tx in o.txIds
    ensures var trace := Exec(true, steps).sh.trace;
            exists j :: 0 <= j < i && trace[j].Left? && trace[j].session.sessionId == trace[i].cause.sessionId
  {
    InvAlways(true, steps);
    CallbackStays(true, steps);
    var trace := Exec(true, steps).sh.trace;
    assert trace[i].txIds != {};
    assert LeftBefore(trace, i, trace[i].cause.sessionId);
  }

  lemma {:induction false} CallbackStays(callbackSet: bool, steps: seq<Step>)
    ensures Exec(callbackSet, steps).sh.callbackSet == callbackSet
  {
    if steps != [] {
      CallbackStays(callbackSet, steps[..|steps| - 1]);
      CallbackStaysOneStep(Exec(callbackSet, steps[..|steps| - 1]), steps[|steps| - 1]);
    }
  }

  lemma CallbackStaysOneStep(s: State, step: Step)
    ensures Apply(s, step).sh.callbackSet == s.sh.callbackSet
  {
  }

  lemma {:induction false} ResolvingObservation(trace: seq<Observation>, tx: string) returns (i: nat)
    requires TimesResolved(trace, tx) > 0
    ensures i < |trace| && trace[i].Resolved? && tx in trace[i].txIds
  {
    var o := trace[|trace| - 1];
    if o.Resolved? && tx in o.txIds {
      i := |trace| - 1;
    } else {
      i := ResolvingObservation(trace[..|trace| - 1], tx);
    }
  }

  // ---- Uninterrupted routing ----

  /** Steps of one call from its start to its socket lookup. */
  function RoutingSteps(call: nat, found: Option<EditorSession>): seq<Step>
  {
    [TestRunning(call), Resolve(call, found), ReadActive(call), ReadSole(call), LookUp(call)]
  }

  /** When nobody interferes, the steps of a dispatch on a running bridge choose what the
      routing rule says, and touch nothing but the call. */
  lemma UninterruptedRouting(s: State, call: nat, found: Option<EditorSession>)
    requires call in s.calls && s.calls[call].Begin? && s.sh.running
    requires Finds(s.sh.sessions, s.calls[call].target, found)
    ensures var t := ExecFrom(s, RoutingSteps(call, found));
            var target := s.calls[call].target;
            && t.sh == s.sh && call in t.calls
            && match t.calls[call]
               case Drawing(id, ws) => Routes(s.sh.sessions, s.sh.activeSessionId, target, Ok((id, ws)))
               case Returned(cause, None) => Routes(s.sh.sessions, s.sh.activeSessionId, target, Err(cause))
               case _ => false
  {
    var t4 := AfterChoosing(s, call, found);
    ExecRouting(s, call, found);
    if s.calls[call].target != "" {
      ExplicitTarget(s, call, found);
    } else {
      FallbackTarget(s, call, found);
    }
    LookUpIsTheRule(t4, call, s.calls[call].target);
  }

  lemma LookUpIsTheRule(s: State, call: nat, target: string)
    requires call in s.calls
    requires s.calls[call].LookingUp? || (s.calls[call].Returned? && s.calls[call].owned.None?)
    requires Chooses(s.sh.sessions, s.sh.activeSessionId, target, ChoiceOf(s.calls[call]))
    ensures var t := ApplyRoute(s, call, LookUp(call));
            && t.sh == s.sh && call in t.calls
            && match t.calls[call]
               case Drawing(id, ws) => Routes(s.sh.sessions, s.sh.activeSessionId, target, Ok((id, ws)))
               case Returned(cause, None) => Routes(s.sh.sessions, s.sh.activeSessionId, target, Err(cause))
               case _ => false
  {
  }

  /** The state after the choosing steps. */
  ghost function AfterChoosing(s: State, call: nat, found: Option<EditorSession>): State
  {
    ApplyRoute(ApplyRoute(ApplyRoute(ApplyRoute(
      s, call, TestRunning(call)), call, Resolve(call, found)), call, ReadActive(call)), call, ReadSole(call))
  }

  function ChoiceOf(pc: Pc): Result<string, Cause>
  {
    match pc
    case LookingUp(id) => Ok(id)
    case Returned(cause, _) => Err(cause)
    case _ => Err(NotRunning)
  }

  ghost predicate HasChosen(s: State, t: State, call: nat)
    requires call in s.calls && s.calls[call].Begin?
  {
    && t.sh == s.sh && call in t.calls
    && (t.calls[call].LookingUp? || (t.calls[call].Returned? && t.calls[call].owned.None?))
    && Chooses(s.sh.sessions, s.sh.activeSessionId, s.calls[call].target, ChoiceOf(t.calls[call]))
  }

  lemma ExplicitTarget(s: State, call: nat, found: Option<EditorSession>)
    requires call in s.calls && s.calls[call].Begin? && s.calls[call].target != "" && s.sh.running
    requires Finds(s.sh.sessions, s.calls[call].target, found)
    ensures HasChosen(s, AfterChoosing(s, call, found), call)
  {
    var target := s.calls[call].target;
    var s1 := ApplyRoute(s, call, TestRunning(call));
    assert s1 == Goto(s, call, Resolving(target));
    var s2 := ApplyRoute(s1, call, Resolve(call, found));
    var next := if found.Some? then LookingUp(found.value.sessionId) else Returned(NoMatch(target), None);
    assert s2 == Goto(s1, call, next);
    assert AfterChoosing(s, call, found) == s2;
  }

  lemma FallbackTarget(s: State, call: nat, found: Option<EditorSession>)
    requires call in s.calls && s.calls[call].Begin? && s.calls[call].target == "" && s.sh.running
    ensures HasChosen(s, AfterChoosing(s, call, found), call)
  {
    var s1 := ApplyRoute(s, call, TestRunning(call));
    assert s1 == Goto(s, call, ReadingActive);
    assert ApplyRoute(s1, call, Resolve(call, found)) == s1;
    var s3 := ApplyRoute(s1, call, ReadActive(call));
    if s.sh.activeSessionId != "" {
      assert s3 == Goto(s1, call, LookingUp(s.sh.activeSessionId));
    } else {
      assert s3 == Goto(s1, call, ReadingSole);
      ReadSoleIsTheRule(s3, call);
    }
  }

  lemma ReadSoleIsTheRule(s: State, call: nat)
    requires call in s.calls && s.calls[call].ReadingSole? && s.sh.activeSessionId == ""
    ensures var t := ApplyRoute(s, call, ReadSole(call));
            && t.sh == s.sh && call in t.calls
            && (t.calls[call].LookingUp? || (t.calls[call].Returned? && t.calls[call].owned.None?))
            && Chooses(s.sh.sessions, "", "", ChoiceOf(t.calls[call]))
  {
    SoleKey(s.sh.sessions);
  }

  lemma ExecRouting(s: State, call: nat, found: Option<EditorSession>)
    ensures ExecFrom(s, RoutingSteps(call, found)) == ApplyRoute(AfterChoosing(s, call, found), call, LookUp(call))
  {
    ExecFive(s, RoutingSteps(call, found));
  }

  lemma SoleKey(sessions: Sessions)
    ensures |sessions| == 0 <==> sessions == map[]
    ensures |sessions| == 1 <==> exists id :: sessions.Keys == {id}
    ensures |sessions| == 1 ==> forall id | id in sessions :: sessions.Keys == {id}
  {
    if |sessions| == 1 {
      forall id | id in sessions ensures sessions.Keys == {id} {
        var rest := sessions.Keys - {id};
        assert |rest| == 0;
        assert sessions.Keys == {id} + rest;
      }
      var id :| id in sessions;
    }
  }

  lemma ExecFive(s: State, steps: seq<Step>)
    requires |steps| == 5
    ensures ExecFrom(s, steps)
         == Apply(Apply(Apply(Apply(Apply(s, steps[0]), steps[1]), steps[2]), steps[3]), steps[4])
  {
    assert steps[..4][..3] == steps[..3];
    assert steps[..3][..2] == steps[..2];
    assert steps[..2][..1] == steps[..1];
    assert steps[..1][..0] == [];
    assert ExecFrom(s, steps[..1]) == Apply(s, steps[0]);
    assert ExecFrom(s, steps[..2]) == Apply(ExecFrom(s, steps[..1]), steps[1]);
    assert ExecFrom(s, steps[..3]) == Apply(ExecFrom(s, steps[..2]), steps[2]);
    assert ExecFrom(s, steps[..4]) == Apply(ExecFrom(s, steps[..3]), steps[3]);
  }
}
