/** Routing under interference: why a dispatched call is bound to the session it is bound to, told
    from the moments at which it looked, in every schedule. */
module RouteHistory {
  import opened Bridge
  import opened BridgeInvariant
  import opened BridgeMachine
  import opened Results
  import BridgeTheorems

  /** What a call sees at one of its own looks, and what it does with what it saw. */
  datatype Fact =
    | Started(call: nat, target: string)
    | Down(call: nat)
    | Found(call: nat, target: string, id: string)
    | NoneFound(call: nat, target: string)
    | ActiveIs(call: nat, id: string)
    | NoActive(call: nat)
    | SoleIs(call: nat, id: string)
    | NoSessions(call: nat)
    | ManySessions(call: nat)
    | Connected(call: nat, id: string, ws: nat)
    | Missing(call: nat, id: string)
    | Drew(call: nat, id: string, ws: nat, tx: string)
    | Entered(call: nat, id: string, ws: nat, tx: string)

  /** The call stands at the look in question and the tables show the fact. */
  ghost predicate Holds(s: State, f: Fact)
  {
    && f.call in s.calls
    && var pc, sessions := s.calls[f.call], s.sh.sessions;
       match f
       case Started(_, target) => pc == Begin(target)
       case Down(_) => pc.Begin? && !s.sh.running
       case Found(_, target, id) =>
         pc == Resolving(target) && exists e :: Finds(sessions, target, Some(e)) && e.sessionId == id
       case NoneFound(_, target) => pc == Resolving(target) && Finds(sessions, target, None)
       case ActiveIs(_, id) => pc.ReadingActive? && id != "" && s.sh.activeSessionId == id
       case NoActive(_) => pc.ReadingActive? && s.sh.activeSessionId == ""
       case SoleIs(_, id) => pc.ReadingSole? && exists k :: sessions.Keys == {k} && sessions[k].sessionId == id
       case NoSessions(_) => pc.ReadingSole? && sessions == map[]
       case ManySessions(_) => pc.ReadingSole? && |sessions| > 1
       case Connected(_, id, ws) => pc == LookingUp(id) && id in sessions && sessions[id].ws == ws
       case Missing(_, id) => pc == LookingUp(id) && id !in sessions
       case Drew(_, id, ws, tx) => pc == Inserting(id, ws, tx)
       case Entered(_, id, ws, tx) =>
         pc == Sending(id, ws, tx) && tx in s.sh.pending && s.sh.pending[tx] == id
  }

  // ---- Facts in the order of a schedule ----

  /** The states a schedule goes through, from its start on. */
  ghost function Run(callbackSet: bool, steps: seq<Step>): (run: seq<State>)
    ensures |run| == |steps| + 1
  {
    if steps == [] then [Start(callbackSet)]
    else
      var run := Run(callbackSet, steps[..|steps| - 1]);
      run + [Apply(run[|run| - 1], steps[|steps| - 1])]
  }

  function Last(run: seq<State>): State
    requires run != []
  {
    run[|run| - 1]
  }

  /** The facts held one after another: each at some state of the run, none before the one listed
      before it. */
  ghost predicate Chain(run: seq<State>, facts: seq<Fact>)
    decreases |facts|
  {
    facts == [] ||
    exists n: nat :: n < |run| && Holds(run[n], facts[|facts| - 1]) && Chain(run[..n + 1], facts[..|facts| - 1])
  }

  lemma ChainExtends(run: seq<State>, next: State, facts: seq<Fact>)
    requires Chain(run, facts)
    ensures Chain(run + [next], facts)
  {
    if facts != [] {
      var n: nat :| n < |run| && Holds(run[n], facts[|facts| - 1]) && Chain(run[..n + 1], facts[..|facts| - 1]);
      assert (run + [next])[n] == run[n] && (run + [next])[..n + 1] == run[..n + 1];
    }
  }

  lemma ChainNow(run: seq<State>, facts: seq<Fact>, f: Fact)
    requires run != [] && Chain(run, facts) && Holds(Last(run), f)
    ensures Chain(run, facts + [f])
  {
    var longer := facts + [f];
    assert longer[..|facts|] == facts && run[..|run|] == run;
    assert Holds(run[|run| - 1], longer[|longer| - 1]);
  }

  // ---- Why a session is chosen ----

  datatype Reason =
    | Explicit(target: string)
    | Active
    | Sole

  /** The explicit target names the session; or no target is given and the session is active; or
      neither, and later it is the only one connected. */
  function Reasons(c: nat, why: Reason, id: string): seq<Fact>
  {
    match why
    case Explicit(target) => [Started(c, target), Found(c, target, id)]
    case Active => [Started(c, ""), ActiveIs(c, id)]
    case Sole => [Started(c, ""), NoActive(c), SoleIs(c, id)]
  }

  /** Call c was led to session id, and then the further facts held. */
  ghost predicate Chosen(run: seq<State>, c: nat, id: string, more: seq<Fact>)
  {
    exists why :: Chain(run, Reasons(c, why, id) + more)
  }

  lemma ChosenExtends(run: seq<State>, next: State, c: nat, id: string, more: seq<Fact>)
    requires Chosen(run, c, id, more)
    ensures Chosen(run + [next], c, id, more)
  {
    var why :| Chain(run, Reasons(c, why, id) + more);
    ChainExtends(run, next, Reasons(c, why, id) + more);
  }

  lemma ChosenNow(run: seq<State>, c: nat, id: string, more: seq<Fact>, f: Fact)
    requires run != [] && Chosen(run, c, id, more) && Holds(Last(run), f)
    ensures Chosen(run, c, id, more + [f])
  {
    var why :| Chain(run, Reasons(c, why, id) + more);
    ChainNow(run, Reasons(c, why, id) + more, f);
    Regroup(Reasons(c, why, id), more, f);
  }

  lemma Regroup(first: seq<Fact>, more: seq<Fact>, f: Fact)
    ensures (first + more) + [f] == first + (more + [f])
  {
  }

  lemma ChosenBecause(run: seq<State>, c: nat, why: Reason, id: string)
    requires Chain(run, Reasons(c, why, id))
    ensures Chosen(run, c, id, [])
  {
    assert Reasons(c, why, id) + [] == Reasons(c, why, id);
  }

  /** What holds once a call has entered its transaction: the session was connected over this
      socket, then the call drew the id, then the entry was bound to the session. */
  function EntryFacts(c: nat, id: string, ws: nat, tx: string): seq<Fact>
  {
    [Connected(c, id, ws), Drew(c, id, ws, tx), Entered(c, id, ws, tx)]
  }

  ghost predicate IsEntered(run: seq<State>, c: nat, id: string, ws: nat, tx: string)
  {
    Chosen(run, c, id, EntryFacts(c, id, ws, tx))
  }

  /** The moments that explain a routing error. */
  ghost predicate IsUnrouted(run: seq<State>, c: nat, cause: Cause)
  {
    match cause
    case NotRunning => exists target :: Chain(run, [Started(c, target), Down(c)])
    case NoMatch(target) => Chain(run, [Started(c, target), NoneFound(c, target)])
    case NoPlugin => Chain(run, [Started(c, ""), NoActive(c), NoSessions(c)])
    case Ambiguous => Chain(run, [Started(c, ""), NoActive(c), ManySessions(c)])
    case Gone => exists id :: Chosen(run, c, id, [Missing(c, id)])
    case _ => false
  }

  /** The moments that explain where a call stands. */
  ghost predicate IsExplained(run: seq<State>, c: nat, pc: Pc)
  {
    match pc
    case Begin(target) => Chain(run, [Started(c, target)])
    case Resolving(target) => target != "" && Chain(run, [Started(c, target)])
    case ReadingActive => Chain(run, [Started(c, "")])
    case ReadingSole => Chain(run, [Started(c, ""), NoActive(c)])
    case LookingUp(id) => Chosen(run, c, id, [])
    case Drawing(id, ws) => Chosen(run, c, id, [Connected(c, id, ws)])
    case Inserting(id, ws, tx) => Chosen(run, c, id, [Connected(c, id, ws), Drew(c, id, ws, tx)])
    case Sending(id, ws, tx) => IsEntered(run, c, id, ws, tx)
    case Awaiting(id, tx) => exists ws :: IsEntered(run, c, id, ws, tx)
    case Expired(id, tx) => exists ws :: IsEntered(run, c, id, ws, tx)
    case Returned(cause, None) => IsUnrouted(run, c, cause)
    case Returned(_, Some(tx)) => exists id, ws :: IsEntered(run, c, id, ws, tx)
  }

  // ---- Explanations last ----

  lemma UnroutedExtends(run: seq<State>, next: State, c: nat, cause: Cause)
    requires IsUnrouted(run, c, cause)
    ensures IsUnrouted(run + [next], c, cause)
  {
    match cause
    case NotRunning =>
      var target :| Chain(run, [Started(c, target), Down(c)]);
      ChainExtends(run, next, [Started(c, target), Down(c)]);
    case NoMatch(target) => ChainExtends(run, next, [Started(c, target), NoneFound(c, target)]);
    case NoPlugin => ChainExtends(run, next, [Started(c, ""), NoActive(c), NoSessions(c)]);
    case Ambiguous => ChainExtends(run, next, [Started(c, ""), NoActive(c), ManySessions(c)]);
    case Gone =>
      var id :| Chosen(run, c, id, [Missing(c, id)]);
      ChosenExtends(run, next, c, id, [Missing(c, id)]);
  }

  lemma EnteredExtends(run: seq<State>, next: State, c: nat, id: string, ws: nat, tx: string)
    requires IsEntered(run, c, id, ws, tx)
    ensures IsEntered(run + [next], c, id, ws, tx)
  {
    ChosenExtends(run, next, c, id, EntryFacts(c, id, ws, tx));
  }

  lemma ExplainedExtends(run: seq<State>, next: State, c: nat, pc: Pc)
    requires IsExplained(run, c, pc)
    ensures IsExplained(run + [next], c, pc)
  {
    match pc
    case Begin(target) => ChainExtends(run, next, [Started(c, target)]);
    case Resolving(target) => ChainExtends(run, next, [Started(c, target)]);
    case ReadingActive => ChainExtends(run, next, [Started(c, "")]);
    case ReadingSole => ChainExtends(run, next, [Started(c, ""), NoActive(c)]);
    case LookingUp(id) => ChosenExtends(run, next, c, id, []);
    case Drawing(id, ws) => ChosenExtends(run, next, c, id, [Connected(c, id, ws)]);
    case Inserting(id, ws, tx) =>
      ChosenExtends(run, next, c, id, [Connected(c, id, ws), Drew(c, id, ws, tx)]);
    case Sending(id, ws, tx) => EnteredExtends(run, next, c, id, ws, tx);
    case Awaiting(id, tx) =>
      var ws :| IsEntered(run, c, id, ws, tx);
      EnteredExtends(run, next, c, id, ws, tx);
    case Expired(id, tx) =>
      var ws :| IsEntered(run, c, id, ws, tx);
      EnteredExtends(run, next, c, id, ws, tx);
    case Returned(cause, None) => UnroutedExtends(run, next, c, cause);
    case Returned(_, Some(tx)) =>
      var id, ws :| IsEntered(run, c, id, ws, tx);
      EnteredExtends(run, next, c, id, ws, tx);
  }

  // ---- A call's own steps ----

  lemma BeginStepIsExplained(run: seq<State>, c: nat)
    requires run != []
    requires var s := Last(run); c in s.calls && s.calls[c].Begin?
    requires IsExplained(run, c, Last(run).calls[c])
    ensures var s := Last(run);
            RouteStep(s, c, TestRunning(c)).Some?
            && IsExplained(run, c, RouteStep(s, c, TestRunning(c)).value)
  {
    var s := Last(run);
    var target := s.calls[c].target;
    if !s.sh.running {
      ChainNow(run, [Started(c, target)], Down(c));
      assert [Started(c, target)] + [Down(c)] == [Started(c, target), Down(c)];
    }
  }

  lemma FoundIsExplained(run: seq<State>, c: nat, target: string, id: string)
    requires run != [] && Chain(run, [Started(c, target)])
    requires Holds(Last(run), Found(c, target, id))
    ensures IsExplained(run, c, LookingUp(id))
  {
    ChainNow(run, [Started(c, target)], Found(c, target, id));
    assert [Started(c, target)] + [Found(c, target, id)] == Reasons(c, Explicit(target), id);
    ChosenBecause(run, c, Explicit(target), id);
  }

  lemma ResolveStepIsExplained(run: seq<State>, c: nat, found: Option<EditorSession>)
    requires run != []
    requires var s := Last(run); c in s.calls && s.calls[c].Resolving?
    requires IsExplained(run, c, Last(run).calls[c])
    requires Finds(Last(run).sh.sessions, Last(run).calls[c].target, found)
    ensures IsExplained(run, c, RouteStep(Last(run), c, Resolve(c, found)).value)
  {
    var target := Last(run).calls[c].target;
    match found
    case Some(e) => FoundIsExplained(run, c, target, e.sessionId);
    case None =>
      ChainNow(run, [Started(c, target)], NoneFound(c, target));
      assert [Started(c, target)] + [NoneFound(c, target)] == [Started(c, target), NoneFound(c, target)];
  }

  lemma ActiveIsExplained(run: seq<State>, c: nat, id: string)
    requires run != [] && Chain(run, [Started(c, "")])
    requires Holds(Last(run), ActiveIs(c, id))
    ensures IsExplained(run, c, LookingUp(id))
  {
    ChainNow(run, [Started(c, "")], ActiveIs(c, id));
    assert [Started(c, "")] + [ActiveIs(c, id)] == Reasons(c, Active, id);
    ChosenBecause(run, c, Active, id);
  }

  lemma ActiveStepIsExplained(run: seq<State>, c: nat)
    requires run != []
    requires var s := Last(run); c in s.calls && s.calls[c].ReadingActive?
    requires IsExplained(run, c, Last(run).calls[c])
    ensures IsExplained(run, c, RouteStep(Last(run), c, ReadActive(c)).value)
  {
    var id := Last(run).sh.activeSessionId;
    if id == "" {
      ChainNow(run, [Started(c, "")], NoActive(c));
      assert [Started(c, "")] + [NoActive(c)] == [Started(c, ""), NoActive(c)];
    } else {
      ActiveIsExplained(run, c, id);
    }
  }

  /** The facts behind reading the session table for its only session. */
  lemma SoleFacts(s: State, c: nat)
    requires c in s.calls && s.calls[c].ReadingSole?
    ensures match RouteStep(s, c, ReadSole(c))
            case Some(Returned(cause, None)) =>
              (cause == NoPlugin && Holds(s, NoSessions(c))) || (cause == Ambiguous && Holds(s, ManySessions(c)))
            case Some(LookingUp(id)) => Holds(s, SoleIs(c, id))
            case _ => false
  {
    BridgeTheorems.SoleKey(s.sh.sessions);
  }

  lemma SoleReasons(c: nat, id: string)
    ensures [Started(c, ""), NoActive(c)] + [SoleIs(c, id)] == Reasons(c, Sole, id)
  {
  }

  lemma SoleIsExplained(run: seq<State>, c: nat, id: string)
    requires run != [] && Chain(run, [Started(c, ""), NoActive(c)])
    requires Holds(Last(run), SoleIs(c, id))
    ensures IsExplained(run, c, LookingUp(id))
  {
    ChainNow(run, [Started(c, ""), NoActive(c)], SoleIs(c, id));
    SoleReasons(c, id);
    ChosenBecause(run, c, Sole, id);
  }

  lemma SoleStepIsExplained(run: seq<State>, c: nat)
    requires run != []
    requires var s := Last(run); c in s.calls && s.calls[c].ReadingSole?
    requires IsExplained(run, c, Last(run).calls[c])
    ensures IsExplained(run, c, RouteStep(Last(run), c, ReadSole(c)).value)
  {
    var s := Last(run);
    var before := [Started(c, ""), NoActive(c)];
    SoleFacts(s, c);
    match RouteStep(s, c, ReadSole(c)).value
    case Returned(cause, _) =>
      var f := if cause == NoPlugin then NoSessions(c) else ManySessions(c);
      ChainNow(run, before, f);
      assert before + [f] == [Started(c, ""), NoActive(c), f];
    case LookingUp(id) => SoleIsExplained(run, c, id);
  }

  lemma LookUpStepIsExplained(run: seq<State>, c: nat)
    requires run != []
    requires var s := Last(run); c in s.calls && s.calls[c].LookingUp?
    requires IsExplained(run, c, Last(run).calls[c])
    ensures IsExplained(run, c, RouteStep(Last(run), c, LookUp(c)).value)
  {
    var s := Last(run);
    var id := s.calls[c].sessionId;
    if id in s.sh.sessions {
      ChosenNow(run, c, id, [], Connected(c, id, s.sh.sessions[id].ws));
      assert [] + [Connected(c, id, s.sh.sessions[id].ws)] == [Connected(c, id, s.sh.sessions[id].ws)];
    } else {
      ChosenNow(run, c, id, [], Missing(c, id));
      assert [] + [Missing(c, id)] == [Missing(c, id)];
    }
  }

  lemma RouteStepIsExplained(run: seq<State>, c: nat, step: Step)
    requires run != [] && c in Last(run).calls && IsRouting(step) && step.call == c
    requires IsExplained(run, c, Last(run).calls[c])
    requires RouteStep(Last(run), c, step).Some?
    ensures IsExplained(run, c, RouteStep(Last(run), c, step).value)
  {
    match step
    case TestRunning(_) => BeginStepIsExplained(run, c);
    case Resolve(_, found) => ResolveStepIsExplained(run, c, found);
    case ReadActive(_) => ActiveStepIsExplained(run, c);
    case ReadSole(_) => SoleStepIsExplained(run, c);
    case LookUp(_) => LookUpStepIsExplained(run, c);
  }

  lemma DrawIsExplained(run: seq<State>, after: seq<State>, c: nat)
    requires run != [] && after != []
    requires var s := Last(run); c in s.calls && s.calls[c].Drawing?
    requires IsExplained(after, c, Last(run).calls[c])
    requires Last(after) == ApplyDraw(Last(run), c)
    ensures IsExplained(after, c, Last(after).calls[c])
  {
    var pc := Last(after).calls[c];
    var f := Drew(c, pc.sessionId, pc.ws, pc.tx);
    ChosenNow(after, c, pc.sessionId, [Connected(c, pc.sessionId, pc.ws)], f);
    assert [Connected(c, pc.sessionId, pc.ws)] + [f] == [Connected(c, pc.sessionId, pc.ws), f];
  }

  lemma InsertIsExplained(run: seq<State>, after: seq<State>, c: nat)
    requires run != [] && after != []
    requires var s := Last(run); c in s.calls && s.calls[c].Inserting?
    requires IsExplained(after, c, Last(run).calls[c])
    requires Last(after) == ApplyInsert(Last(run), c)
    ensures IsExplained(after, c, Last(after).calls[c])
  {
    var pc := Last(after).calls[c];
    var before := [Connected(c, pc.sessionId, pc.ws), Drew(c, pc.sessionId, pc.ws, pc.tx)];
    ChosenNow(after, c, pc.sessionId, before, Entered(c, pc.sessionId, pc.ws, pc.tx));
    assert before + [Entered(c, pc.sessionId, pc.ws, pc.tx)] == EntryFacts(c, pc.sessionId, pc.ws, pc.tx);
  }

  /** Sending, waiting and giving up keep the transaction and its explanation. */
  lemma LaterStepIsExplained(run: seq<State>, c: nat, pc: Pc, next: Pc)
    requires IsExplained(run, c, pc)
    requires pc.Sending? || pc.Awaiting? || pc.Expired?
    requires next == pc || next.Awaiting? || next.Expired? || (next.Returned? && next.owned.Some?)
    requires TxOf(next) == pc.tx && (next.Awaiting? || next.Expired? ==> next.sessionId == pc.sessionId)
    ensures IsExplained(run, c, next)
  {
    var ws: nat :| IsEntered(run, c, pc.sessionId, ws, pc.tx);
  }

  // ---- Every schedule ----

  lemma OtherStepsLeaveCalls(s: State, step: Step)
    requires !IsRouting(step) && !IsOwning(step) && !step.Dispatch?
    ensures Apply(s, step).calls == s.calls
  {
  }

  /** A call that has entered its transaction moves on with it. */
  ghost predicate MovesOn(pc: Pc, next: Pc)
  {
    || next == pc
    || ((pc.Sending? || pc.Awaiting? || pc.Expired?)
        && (next.Awaiting? || next.Expired? || (next.Returned? && next.owned.Some?))
        && TxOf(next) == pc.tx && (next.Awaiting? || next.Expired? ==> next.sessionId == pc.sessionId))
  }

  lemma LateStepsMoveOn(s: State, step: Step, c: nat)
    requires step.Send? || step.Decide? || step.EraseExpired?
    requires c in s.calls
    ensures c in Apply(s, step).calls && MovesOn(s.calls[c], Apply(s, step).calls[c])
  {
  }

  lemma OwningStepMovesOne(s: State, step: Step, c: nat)
    requires IsOwning(step) && c in Apply(s, step).calls
    ensures c in s.calls && (c != step.call ==> Apply(s, step).calls[c] == s.calls[c])
  {
  }

  lemma RoutingMovesOne(s: State, step: Step, c: nat)
    requires IsRouting(step) && c in Apply(s, step).calls
    ensures c in s.calls
    ensures Apply(s, step).calls[c] == s.calls[c]
         || (c == step.call && RouteStep(s, c, step) == Some(Apply(s, step).calls[c]))
  {
    assert Apply(s, step) == ApplyRoute(s, step.call, step);
  }

  lemma OwningStepIsExplained(run: seq<State>, step: Step, c: nat)
    requires run != [] && IsOwning(step) && step.call == c && c in Last(run).calls
    requires IsExplained(run, c, Last(run).calls[c])
    requires c in Apply(Last(run), step).calls
    ensures IsExplained(run + [Apply(Last(run), step)], c, Apply(Last(run), step).calls[c])
  {
    var s, t := Last(run), Apply(Last(run), step);
    var pc := s.calls[c];
    ExplainedExtends(run, t, c, pc);
    if step.Draw? {
      assert t == ApplyDraw(s, c);
      if pc.Drawing? {
        DrawIsExplained(run, run + [t], c);
      }
    } else if step.Insert? {
      assert t == ApplyInsert(s, c);
      if pc.Inserting? {
        InsertIsExplained(run, run + [t], c);
      }
    } else {
      LateStepsMoveOn(s, step, c);
      if t.calls[c] != pc {
        LaterStepIsExplained(run + [t], c, pc, t.calls[c]);
      }
    }
  }

  lemma DispatchIsExplained(run: seq<State>, call: nat, target: string)
    requires run != [] && call !in Last(run).calls
    ensures IsExplained(run + [Goto(Last(run), call, Begin(target))], call, Begin(target))
  {
    var t := Goto(Last(run), call, Begin(target));
    ChainNow(run + [t], [], Started(call, target));
    assert [] + [Started(call, target)] == [Started(call, target)];
  }

  lemma CallIsExplainedOneStep(run: seq<State>, step: Step, c: nat)
    requires run != [] && c in Apply(Last(run), step).calls
    requires c in Last(run).calls ==> IsExplained(run, c, Last(run).calls[c])
    ensures IsExplained(run + [Apply(Last(run), step)], c, Apply(Last(run), step).calls[c])
  {
    var s, t := Last(run), Apply(Last(run), step);
    if step.Dispatch? {
      if c == step.call && c !in s.calls {
        DispatchIsExplained(run, c, step.target);
      } else {
        ExplainedExtends(run, t, c, s.calls[c]);
      }
    } else if IsRouting(step) {
      RoutingMovesOne(s, step, c);
      if t.calls[c] != s.calls[c] {
        RouteStepIsExplained(run, c, step);
      }
      ExplainedExtends(run, t, c, t.calls[c]);
    } else if IsOwning(step) {
      OwningStepMovesOne(s, step, c);
      if c == step.call {
        OwningStepIsExplained(run, step, c);
      } else {
        ExplainedExtends(run, t, c, s.calls[c]);
      }
    } else {
      OtherStepsLeaveCalls(s, step);
      ExplainedExtends(run, t, c, s.calls[c]);
    }
  }

  lemma {:induction false} RunEndsInExec(callbackSet: bool, steps: seq<Step>)
    ensures Last(Run(callbackSet, steps)) == Exec(callbackSet, steps)
  {
    if steps != [] {
      RunEndsInExec(callbackSet, steps[..|steps| - 1]);
    }
  }

  ghost predicate AllExplained(run: seq<State>)
  {
    run != [] && forall c | c in Last(run).calls :: IsExplained(run, c, Last(run).calls[c])
  }

  lemma {:induction false} EveryCallIsExplained(callbackSet: bool, steps: seq<Step>)
    ensures AllExplained(Run(callbackSet, steps))
  {
    if steps != [] {
      var run, step := Run(callbackSet, steps[..|steps| - 1]), steps[|steps| - 1];
      EveryCallIsExplained(callbackSet, steps[..|steps| - 1]);
      var t := Apply(Last(run), step);
      forall c | c in t.calls ensures IsExplained(run + [t], c, t.calls[c]) {
        CallIsExplainedOneStep(run, step, c);
      }
    }
  }

  /** In every schedule, a call bound to a session was led to it by its explicit target, else by the
      active pointer, else because it was the only session when no session was active; later it
      found that session connected over the socket it sends to. */
  lemma BoundCallsAreRouted(callbackSet: bool, steps: seq<Step>, c: nat)
    requires c in Exec(callbackSet, steps).calls
    ensures var run := Run(callbackSet, steps);
            match Exec(callbackSet, steps).calls[c]
            case Drawing(id, ws) => Chosen(run, c, id, [Connected(c, id, ws)])
            case Inserting(id, ws, tx) => Chosen(run, c, id, [Connected(c, id, ws), Drew(c, id, ws, tx)])
            case Sending(id, ws, tx) => Chosen(run, c, id, EntryFacts(c, id, ws, tx))
            case _ => true
  {
    EveryCallIsExplained(callbackSet, steps);
    RunEndsInExec(callbackSet, steps);
    assert IsExplained(Run(callbackSet, steps), c, Exec(callbackSet, steps).calls[c]);
  }

  /** In every schedule, a call that ended with a routing error looked at a moment at which that
      error was right: nothing answered to its target, its chosen session was gone, or with no
      target and no active session there was not exactly one session. */
  lemma RoutingErrorsAreRight(callbackSet: bool, steps: seq<Step>, c: nat)
    requires c in Exec(callbackSet, steps).calls
    requires var pc := Exec(callbackSet, steps).calls[c]; pc.Returned? && pc.owned.None?
    ensures IsUnrouted(Run(callbackSet, steps), c, Exec(callbackSet, steps).calls[c].cause)
  {
    EveryCallIsExplained(callbackSet, steps);
    RunEndsInExec(callbackSet, steps);
    assert IsExplained(Run(callbackSet, steps), c, Exec(callbackSet, steps).calls[c]);
  }

  // ---- What is sent ----

  ghost predicate IsSentByRoute(run: seq<State>, o: Observation)
  {
    o.Sent? ==> exists c :: IsEntered(run, c, o.sessionId, o.ws, o.txId)
  }

  ghost predicate AllSentByRoute(run: seq<State>)
  {
    run != [] && forall o | o in Last(run).sh.trace :: IsSentByRoute(run, o)
  }

  lemma RoutingSendsNothing(s: State, step: Step)
    requires IsRouting(step)
    ensures Apply(s, step).sh == s.sh
  {
    assert Apply(s, step) == ApplyRoute(s, step.call, step);
  }

  /** Only a Send step adds such an observation. */
  lemma NewlySent(s: State, step: Step, o: Observation)
    requires o in Apply(s, step).sh.trace && o.Sent? && o !in s.sh.trace
    ensures step.Send? && step.call in s.calls && s.calls[step.call] == Sending(o.sessionId, o.ws, o.txId)
  {
    if IsRouting(step) {
      RoutingSendsNothing(s, step);
    }
  }

  lemma SentOneStep(run: seq<State>, step: Step, o: Observation)
    requires AllExplained(run) && o in Apply(Last(run), step).sh.trace
    requires o in Last(run).sh.trace ==> IsSentByRoute(run, o)
    ensures IsSentByRoute(run + [Apply(Last(run), step)], o)
  {
    if o.Sent? {
      var t := Apply(Last(run), step);
      if o in Last(run).sh.trace {
        var c :| IsEntered(run, c, o.sessionId, o.ws, o.txId);
        EnteredExtends(run, t, c, o.sessionId, o.ws, o.txId);
      } else {
        NewlySent(Last(run), step, o);
        EnteredExtends(run, t, step.call, o.sessionId, o.ws, o.txId);
      }
    }
  }

  lemma {:induction false} SentThroughout(callbackSet: bool, steps: seq<Step>)
    ensures AllSentByRoute(Run(callbackSet, steps))
  {
    if steps != [] {
      var run, step := Run(callbackSet, steps[..|steps| - 1]), steps[|steps| - 1];
      SentThroughout(callbackSet, steps[..|steps| - 1]);
      EveryCallIsExplained(callbackSet, steps[..|steps| - 1]);
      var t := Apply(Last(run), step);
      forall o | o in t.sh.trace ensures IsSentByRoute(run + [t], o) {
        assert o in Last(run).sh.trace ==> IsSentByRoute(run, o);
        SentOneStep(run, step, o);
      }
    }
  }

  /** In every schedule, each call sent to an editor goes to the session its routing led to, over the
      socket that session was connected by, and its pending entry was bound to that session. */
  lemma SentCallsAreRouted(callbackSet: bool, steps: seq<Step>, i: nat)
    requires i < |Exec(callbackSet, steps).sh.trace| && Exec(callbackSet, steps).sh.trace[i].Sent?
    ensures var o := Exec(callbackSet, steps).sh.trace[i];
            exists c, why ::
              Chain(Run(callbackSet, steps),
                    Reasons(c, why, o.sessionId) + EntryFacts(c, o.sessionId, o.ws, o.txId))
  {
    SentThroughout(callbackSet, steps);
    RunEndsInExec(callbackSet, steps);
    var run, o := Run(callbackSet, steps), Exec(callbackSet, steps).sh.trace[i];
    assert IsSentByRoute(run, o);
    var c :| IsEntered(run, c, o.sessionId, o.ws, o.txId);
    var why :| Chain(run, Reasons(c, why, o.sessionId) + EntryFacts(c, o.sessionId, o.ws, o.txId));
  }

  // ---- Where a chain starts ----

  lemma NewlyBegun(s: State, step: Step, c: nat, target: string)
    requires Holds(Apply(s, step), Started(c, target)) && !Holds(s, Started(c, target))
    ensures step == Dispatch(c, target)
  {
    if IsRouting(step) {
      RoutingMovesOne(s, step, c);
    } else if IsOwning(step) {
      OwningLeavesNoBegin(s, step, c);
    } else if !step.Dispatch? {
      OtherStepsLeaveCalls(s, step);
    }
  }

  lemma OwningLeavesNoBegin(s: State, step: Step, c: nat)
    requires IsOwning(step) && c in Apply(s, step).calls && Apply(s, step).calls[c].Begin?
    ensures c in s.calls && s.calls[c] == Apply(s, step).calls[c]
  {
  }

  /** A call that stands at its beginning was dispatched with that target. */
  lemma {:induction false} BeginComesFromDispatch(callbackSet: bool, steps: seq<Step>, n: nat, c: nat, target: string)
    requires n <= |steps| && Holds(Run(callbackSet, steps)[n], Started(c, target))
    ensures Dispatch(c, target) in steps
  {
    if steps != [] {
      var init, step := steps[..|steps| - 1], steps[|steps| - 1];
      var run := Run(callbackSet, init);
      if n < |steps| {
        BeginComesFromDispatch(callbackSet, init, n, c, target);
      } else if Holds(Last(run), Started(c, target)) {
        BeginComesFromDispatch(callbackSet, init, n - 1, c, target);
      } else {
        NewlyBegun(Last(run), step, c, target);
      }
    }
  }

  lemma {:induction false} ChainStarts(run: seq<State>, f: Fact, facts: seq<Fact>) returns (n: nat)
    requires Chain(run, [f] + facts)
    ensures n < |run| && Holds(run[n], f)
    decreases |facts|
  {
    var all := [f] + facts;
    n :| n < |run| && Holds(run[n], all[|all| - 1]) && Chain(run[..n + 1], all[..|all| - 1]);
    if facts != [] {
      assert all[..|all| - 1] == [f] + facts[..|facts| - 1];
      var m := ChainStarts(run[..n + 1], f, facts[..|facts| - 1]);
      n := m;
    }
  }

  /** Every explanation starts with the call's own dispatch and target. */
  lemma ExplanationsStartWithDispatch(callbackSet: bool, steps: seq<Step>, c: nat, target: string, facts: seq<Fact>)
    requires Chain(Run(callbackSet, steps), [Started(c, target)] + facts)
    ensures Dispatch(c, target) in steps
  {
    var n := ChainStarts(Run(callbackSet, steps), Started(c, target), facts);
    BeginComesFromDispatch(callbackSet, steps, n, c, target);
  }
}
