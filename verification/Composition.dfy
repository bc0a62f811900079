/** The job engine and the bridge together: the worker of a remote job waits for a bridge call,
    and settles its job with what the call returns. */
module Composition {
  import opened Bridge
  import opened Classification
  import opened Encodings
  import opened JobBoard
  import opened JobLog
  import opened JsonValues
  import opened Results
  import opened Rpc
  import B = BridgeMachine
  import BI = BridgeInvariant
  import BT = BridgeTheorems
  import J = JobMachine
  import JI = JobInvariant

  /** `link` names the bridge call each remote job's worker made. */
  datatype State = State(bridge: B.State, engine: J.State, link: map<string, nat>)

  /** Bridge steps and engine steps of other threads interleave with the two steps at which a
      worker starts its call and settles its job. */
  datatype Step =
    | BridgeStep(b: B.Step)
    | EngineStep(j: J.Step)
    | StartCall(id: string, call: nat)
    | SettleJob(id: string, now: int, logTime: int)

  function Start(callbackSet: bool): State
  {
    State(B.Start(callbackSet), J.START, map[])
  }

  predicate IsRemote(s: State, id: string)
  {
    id in s.engine.workers && s.engine.workers[id].remote
  }

  predicate CanStartCall(s: State, id: string, call: nat)
  {
    IsRemote(s, id) && s.engine.workers[id].pc == J.SetWaiting && id !in s.link && call !in s.bridge.calls
  }

  /** The call of the job's worker has returned. */
  predicate HasReturned(s: State, id: string)
  {
    id in s.link && s.link[id] in s.bridge.calls && s.bridge.calls[s.link[id]].Returned?
  }

  function CauseOf(s: State, id: string): Cause
    requires HasReturned(s, id)
  {
    s.bridge.calls[s.link[id]].cause
  }

  /** Engine steps other than the settling of a remote job, which needs its call's outcome. */
  predicate IsFree(s: State, j: J.Step)
  {
    j.Settle? ==> !IsRemote(s, j.id)
  }

  ghost function Apply(s: State, step: Step): State
  {
    match step
    case BridgeStep(b) => s.(bridge := B.Apply(s.bridge, b))
    case EngineStep(j) => if IsFree(s, j) then s.(engine := J.Apply(s.engine, j)) else s
    case StartCall(id, call) =>
      if CanStartCall(s, id, call) then
        s.(bridge := B.Apply(s.bridge, B.Dispatch(call, s.engine.workers[id].target)), link := s.link[id := call])
      else s
    case SettleJob(id, now, logTime) =>
      if HasReturned(s, id) then
        s.(engine := J.Apply(s.engine, J.Settle(id, Outcome(CauseOf(s, id)), now, logTime)))
      else s
  }

  ghost function Exec(callbackSet: bool, steps: seq<Step>): State
  {
    if steps == [] then Start(callbackSet)
    else Apply(Exec(callbackSet, steps[..|steps| - 1]), steps[|steps| - 1])
  }

  // ---- Both machines run inside the product ----

  /** The bridge steps taken in a product schedule. */
  ghost function BridgeSteps(callbackSet: bool, steps: seq<Step>): seq<B.Step>
  {
    if steps == [] then []
    else
      var s, step := Exec(callbackSet, steps[..|steps| - 1]), steps[|steps| - 1];
      BridgeSteps(callbackSet, steps[..|steps| - 1]) +
      match step
      case BridgeStep(b) => [b]
      case StartCall(id, call) =>
        if CanStartCall(s, id, call) then [B.Dispatch(call, s.engine.workers[id].target)] else []
      case _ => []
  }

  ghost function EngineSteps(callbackSet: bool, steps: seq<Step>): seq<J.Step>
  {
    if steps == [] then []
    else
      var s, step := Exec(callbackSet, steps[..|steps| - 1]), steps[|steps| - 1];
      EngineSteps(callbackSet, steps[..|steps| - 1]) +
      match step
      case EngineStep(j) => if IsFree(s, j) then [j] else []
      case SettleJob(id, now, logTime) =>
        if HasReturned(s, id) then [J.Settle(id, Outcome(CauseOf(s, id)), now, logTime)] else []
      case _ => []
  }

  lemma BridgeSnoc(callbackSet: bool, steps: seq<B.Step>, step: B.Step)
    ensures B.Exec(callbackSet, steps + [step]) == B.Apply(B.Exec(callbackSet, steps), step)
  {
    assert (steps + [step])[..|steps|] == steps;
  }

  lemma EngineSnoc(steps: seq<J.Step>, step: J.Step)
    ensures J.Exec(steps + [step]) == J.Apply(J.Exec(steps), step)
  {
    assert (steps + [step])[..|steps|] == steps;
  }

  /** A product schedule is a bridge schedule and a job-engine schedule. */
  lemma {:induction false} Projects(callbackSet: bool, steps: seq<Step>)
    ensures Exec(callbackSet, steps).bridge == B.Exec(callbackSet, BridgeSteps(callbackSet, steps))
    ensures Exec(callbackSet, steps).engine == J.Exec(EngineSteps(callbackSet, steps))
  {
    if steps != [] {
      var init, step := steps[..|steps| - 1], steps[|steps| - 1];
      var s := Exec(callbackSet, init);
      Projects(callbackSet, init);
      var bs, js := BridgeSteps(callbackSet, init), EngineSteps(callbackSet, init);
      assert bs + [] == bs && js + [] == js;
      match step
      case BridgeStep(b) => BridgeSnoc(callbackSet, bs, b);
      case EngineStep(j) => EngineSnoc(js, j);
      case StartCall(id, call) =>
        if CanStartCall(s, id, call) {
          BridgeSnoc(callbackSet, bs, B.Dispatch(call, s.engine.workers[id].target));
        }
      case SettleJob(id, now, logTime) =>
        if HasReturned(s, id) {
          EngineSnoc(js, J.Settle(id, Outcome(CauseOf(s, id)), now, logTime));
        }
    }
  }

  /** Few enough ids were drawn for them all to be distinct. */
  ghost predicate Bounded(s: State)
  {
    s.bridge.issued <= TWO_TO_64 && s.engine.issued <= TWO_TO_64
  }

  lemma InvAlways(callbackSet: bool, steps: seq<Step>)
    requires Bounded(Exec(callbackSet, steps))
    ensures B.Inv(Exec(callbackSet, steps).bridge)
    ensures J.Inv(Exec(callbackSet, steps).engine)
  {
    Projects(callbackSet, steps);
    BI.InvAlways(callbackSet, BridgeSteps(callbackSet, steps));
    JI.InvAlways(EngineSteps(callbackSet, steps));
  }

  // ---- Jobs settle with their calls' outcomes ----

  /** A remote worker that is done settled with what its call returned. */
  ghost predicate Settled(s: State)
  {
    forall id | IsRemote(s, id) && s.engine.workers[id].pc == J.Done ::
      HasReturned(s, id) && s.engine.workers[id].outcome == Some(Outcome(CauseOf(s, id)))
  }

  lemma BridgeStepKeepsSettled(s: State, b: B.Step)
    requires Settled(s)
    ensures Settled(s.(bridge := B.Apply(s.bridge, b)))
  {
    var t := s.(bridge := B.Apply(s.bridge, b));
    forall id | IsRemote(t, id) && t.engine.workers[id].pc == J.Done
      ensures HasReturned(t, id) && CauseOf(t, id) == CauseOf(s, id)
    {
      BT.ReturnedStaysOneStep(s.bridge, b, s.link[id]);
    }
  }

  /** An engine step finishes no remote worker but the one it settles, and leaves the outcome of
      finished workers alone. */
  lemma EngineStepKeepsWorkers(e: J.State, j: J.Step, id: string)
    requires e.workers.Keys !! e.reserved
    requires id in J.Apply(e, j).workers && J.Apply(e, j).workers[id].remote && J.Apply(e, j).workers[id].pc == J.Done
    requires !(j.Settle? && j.id == id && id in e.workers && e.workers[id].pc != J.Done)
    ensures id in e.workers && e.workers[id] == J.Apply(e, j).workers[id]
  {
    match j
    case Settle(_, outcome, now, logTime) => SettleMovesOne(e, j.id, outcome, now, logTime);
    case Report(_, now, logTime) => ReportMovesOne(e, j.id, now, logTime);
    case _ =>
  }

  lemma SettleMovesOne(e: J.State, id: string, outcome: ToolResult, now: int, logTime: int)
    ensures J.ApplySettle(e, id, outcome, now, logTime).workers.Keys == e.workers.Keys
    ensures forall other | other in e.workers && (other != id || e.workers[id].pc == J.Done) ::
              J.ApplySettle(e, id, outcome, now, logTime).workers[other] == e.workers[other]
  {
  }

  lemma ReportMovesOne(e: J.State, id: string, now: int, logTime: int)
    ensures J.ApplyReport(e, id, now, logTime).workers.Keys == e.workers.Keys
    ensures forall other | other in e.workers && other != id ::
              J.ApplyReport(e, id, now, logTime).workers[other] == e.workers[other]
    ensures id in e.workers && J.ApplyReport(e, id, now, logTime).workers[id].pc == J.Done ==>
              J.ApplyReport(e, id, now, logTime).workers[id] == e.workers[id]
  {
  }

  lemma EngineStepKeepsSettled(s: State, j: J.Step)
    requires Settled(s) && J.Inv(s.engine) && IsFree(s, j)
    ensures Settled(s.(engine := J.Apply(s.engine, j)))
  {
    var t := s.(engine := J.Apply(s.engine, j));
    forall id | IsRemote(t, id) && t.engine.workers[id].pc == J.Done
      ensures HasReturned(t, id) && t.engine.workers[id].outcome == Some(Outcome(CauseOf(t, id)))
    {
      FreeSettleIsElsewhere(s, j, id);
      EngineStepKeepsWorkers(s.engine, j, id);
    }
  }

  lemma FreeSettleIsElsewhere(s: State, j: J.Step, id: string)
    requires J.Inv(s.engine) && IsFree(s, j)
    requires id in J.Apply(s.engine, j).workers && J.Apply(s.engine, j).workers[id].remote
    ensures !(j.Settle? && j.id == id && id in s.engine.workers)
  {
  }

  lemma StartKeepsSettled(s: State, id: string, call: nat)
    requires Settled(s) && CanStartCall(s, id, call)
    ensures Settled(Apply(s, StartCall(id, call)))
  {
    var b := B.Dispatch(call, s.engine.workers[id].target);
    BridgeStepKeepsSettled(s, b);
  }

  lemma SettleKeepsSettled(s: State, id: string, now: int, logTime: int)
    requires Settled(s) && J.Inv(s.engine) && HasReturned(s, id)
    ensures Settled(Apply(s, SettleJob(id, now, logTime)))
  {
    var j := J.Settle(id, Outcome(CauseOf(s, id)), now, logTime);
    var t := s.(engine := J.Apply(s.engine, j));
    forall other | IsRemote(t, other) && t.engine.workers[other].pc == J.Done
      ensures HasReturned(t, other) && t.engine.workers[other].outcome == Some(Outcome(CauseOf(t, other)))
    {
      if other != id || s.engine.workers[id].pc == J.Done {
        EngineStepKeepsWorkers(s.engine, j, other);
      }
    }
  }

  lemma {:induction false} SettledAlways(callbackSet: bool, steps: seq<Step>)
    requires Bounded(Exec(callbackSet, steps))
    ensures Settled(Exec(callbackSet, steps))
  {
    if steps != [] {
      var init, step := steps[..|steps| - 1], steps[|steps| - 1];
      var s := Exec(callbackSet, init);
      BoundedBefore(s, step);
      SettledAlways(callbackSet, init);
      InvAlways(callbackSet, init);
      match step
      case BridgeStep(b) => BridgeStepKeepsSettled(s, b);
      case EngineStep(j) => if IsFree(s, j) { EngineStepKeepsSettled(s, j); }
      case StartCall(id, call) => if CanStartCall(s, id, call) { StartKeepsSettled(s, id, call); }
      case SettleJob(id, now, logTime) => if HasReturned(s, id) { SettleKeepsSettled(s, id, now, logTime); }
    }
  }

  lemma BoundedBefore(s: State, step: Step)
    requires Bounded(Apply(s, step))
    ensures Bounded(s)
  {
    match step
    case BridgeStep(b) => BI.IssuedStep(s.bridge, b);
    case EngineStep(j) => JI.IssuedStep(s.engine, j);
    case StartCall(id, call) =>
      if CanStartCall(s, id, call) {
        BI.IssuedStep(s.bridge, B.Dispatch(call, s.engine.workers[id].target));
      }
    case SettleJob(id, now, logTime) =>
      if HasReturned(s, id) {
        JI.IssuedStep(s.engine, J.Settle(id, Outcome(CauseOf(s, id)), now, logTime));
      }
  }

  // ---- Crash classification ----

  /** How a remote job ends for each end of its call: completed with the result of a successful
      reply, otherwise crashed or failed with the error that belongs to the cause. */
  ghost predicate EndsBy(job: JobRecord, cause: Cause)
  {
    match cause
    case Replied(Ok(value)) => job.state == Completed && job.result == value && job.error == Null
    case _ =>
      && job.state == (if CountsAsCrash(cause) then EditorCrashed else Failed)
      && job.result == Null
      && exists e :: Yields(cause, Err(e)) && IsErrorObject(job.error, e)
  }

  lemma OutcomeEndsJob(job: JobRecord, cause: Cause)
    requires J.HoldsOutcome(job, true, Outcome(cause))
    ensures EndsBy(job, cause)
  {
    OutcomeByCause(cause);
    CrashIff(cause, Outcome(cause));
    if Outcome(cause).Err? {
      ErrorMembers(Outcome(cause).error);
    }
  }

  /** In every run of both machines, a remote job in the table that has finished ends according to
      why its bridge call ended. It is completed exactly when the plugin replied with a success. */
  lemma JobEndsByItsCause(callbackSet: bool, steps: seq<Step>, id: string)
    requires Bounded(Exec(callbackSet, steps))
    requires id in Exec(callbackSet, steps).engine.board.jobs && IsRemote(Exec(callbackSet, steps), id)
    requires IsTerminal(Exec(callbackSet, steps).engine.board.jobs[id].state)
    ensures var s := Exec(callbackSet, steps);
            var job := s.engine.board.jobs[id];
            && HasReturned(s, id)
            && EndsBy(job, CauseOf(s, id))
            && (job.state == Completed <==> CauseOf(s, id).Replied? && CauseOf(s, id).result.Ok?)
  {
    InvAlways(callbackSet, steps);
    SettledAlways(callbackSet, steps);
    var s := Exec(callbackSet, steps);
    assert J.JobIsSound(s.engine, id);
    OutcomeEndsJob(s.engine.board.jobs[id], CauseOf(s, id));
  }

  /** A job whose call the close sweep failed ends editor_crashed, and with a callback set the
      session's "disconnected" event came before its call was failed. */
  lemma SweptJobIsCrashedAndExplained(steps: seq<Step>, id: string, sessionId: string)
    requires Bounded(Exec(true, steps))
    requires id in Exec(true, steps).engine.board.jobs && IsRemote(Exec(true, steps), id)
    requires IsTerminal(Exec(true, steps).engine.board.jobs[id].state)
    requires HasReturned(Exec(true, steps), id) && CauseOf(Exec(true, steps), id) == Disconnected(sessionId)
    ensures Exec(true, steps).engine.board.jobs[id].state == EditorCrashed
    ensures var trace := Exec(true, steps).bridge.sh.trace;
            var owned := Exec(true, steps).bridge.calls[Exec(true, steps).link[id]].owned;
            && owned.Some?
            && exists i, j ::
                 && 0 <= j < i < |trace|
                 && trace[j].Left? && trace[j].session.sessionId == sessionId
                 && trace[i].Resolved? && trace[i].cause == Disconnected(sessionId)
                 && owned.value in trace[i].txIds
  {
    JobEndsByItsCause(true, steps, id);
    InvAlways(true, steps);
    Projects(true, steps);
    var s := Exec(true, steps);
    var bs := BridgeSteps(true, steps);
    var trace := s.bridge.sh.trace;
    BT.ReturnedCall(s.bridge, s.link[id]);
    var tx := s.bridge.calls[s.link[id]].owned.value;
    var i := BT.ResolvingObservation(trace, tx);
    assert B.SetTo(s.bridge.sh, tx, trace[i].cause);
    BT.DisconnectIsToldFirst(bs, i, tx);
  }
}
