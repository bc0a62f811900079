/** What the job engine keeps over every schedule. */
module JobTheorems {
  import opened Encodings
  import opened JobBoard
  import opened JobInvariant
  import opened JobLog
  import opened JobMachine
  import opened Jobs
  import opened JsonValues
  import opened Results
  import opened Rpc

  /** In every reachable state the queue has no duplicates, its elements are exactly the ids in
      the table, every worker that is not done finds its record, and no worker ever took an early
      return. */
  lemma NoJobEverLost(steps: seq<Step>)
    requires Exec(steps).issued <= TWO_TO_64
    ensures var s := Exec(steps);
            && NoDuplicates(s.board.order)
            && (forall id :: id in s.board.order <==> id in s.board.jobs)
            && |s.board.order| == |s.board.jobs|
            && (forall id | id in s.workers && s.workers[id].pc != Done :: id in s.board.jobs)
            && (forall id | id in s.workers :: s.workers[id].pc != Lost)
  {
    InvAlways(steps);
    var s := Exec(steps);
    SizesAgree(s.board.order);
    forall id ensures id in s.board.order <==> id in s.board.jobs {
      assert id in Elements(s.board.order) <==> id in s.board.order;
    }
  }

  /** A record is terminal exactly when its worker is done. A completed job carries its result and no
      error, a failed or crashed one its error and no result, and any other job neither. A job counts
      as crashed exactly when it is remote and its error has the code and the word that tell it. */
  lemma RecordsTellOutcomes(steps: seq<Step>, id: string)
    requires Exec(steps).issued <= TWO_TO_64 && id in Exec(steps).board.jobs
    ensures id in Exec(steps).workers
    ensures var job, w := Exec(steps).board.jobs[id], Exec(steps).workers[id];
            match job.state
            case Completed => w.pc == Done && w.outcome == Some(Ok(job.result)) && job.error == Null
            case Failed => w.pc == Done && HoldsFailure(job, w.outcome) && !TellsCrash(w)
            case EditorCrashed => w.pc == Done && HoldsFailure(job, w.outcome) && TellsCrash(w)
            case _ => w.pc != Done && job.result == Null && job.error == Null && job.completedAtMs == 0
  {
    InvAlways(steps);
    assert JobIsSound(Exec(steps), id);
    var w := Exec(steps).workers[id];
    if w.pc == Done && w.outcome.value.Err? {
      ErrorMembers(w.outcome.value.error);
      ContainsIffHas(w.outcome.value.error.message, "disconnected");
    }
  }

  ghost predicate HoldsFailure(job: JobRecord, outcome: Option<ToolResult>)
  {
    && outcome.Some? && outcome.value.Err? && IsErrorObject(job.error, outcome.value.error)
    && job.result == Null && job.completedAtMs > 0
  }

  ghost predicate TellsCrash(w: Worker)
    requires w.outcome.Some? && w.outcome.value.Err?
  {
    w.remote && w.outcome.value.error.code == -32001 && Has(w.outcome.value.error.message, "disconnected")
  }

  /** Cutting a job's log to its buffer loses only the oldest entries: at every moment the log is
      the view of everything ever appended to it. */
  lemma LogsAreHistories(steps: seq<Step>, id: string)
    requires Exec(steps).issued <= TWO_TO_64 && id in Exec(steps).board.jobs
    ensures id in Exec(steps).history
    ensures Exec(steps).board.jobs[id].logs == LogView(Exec(steps).history[id])
  {
    InvAlways(steps);
    assert JobIsSound(Exec(steps), id);
  }

  // ---- Terminal is absorbing ----

  /** The fields that must not change once a job is terminal. */
  predicate SameOutcome(a: JobRecord, b: JobRecord)
  {
    a.state == b.state && a.result == b.result && a.error == b.error && a.completedAtMs == b.completedAtMs
  }

  lemma CreateIsElsewhere(s: State, step: Step, id: string)
    requires Inv(s) && step.Create? && id in s.workers
    ensures var t := ApplyCreate(s, step);
            && id in t.workers && t.workers[id] == s.workers[id]
            && (id in t.board.jobs ==> id in s.board.jobs && t.board.jobs[id] == s.board.jobs[id])
  {
    if step.id in s.reserved && step.now > 0 {
      var job := NewRecord(step.id, step.tool, step.args, step.target, step.timeoutMs, step.now, step.logTime);
      JobsHaveWorkers(s);
      InsertKeepsBoard(s.board, job);
    }
  }

  lemma TerminalStaysOtherStep(s: State, step: Step, id: string)
    requires !step.Create? && id in s.workers && s.workers[id].pc == Done
    requires id in s.board.jobs ==> IsTerminal(s.board.jobs[id].state)
    ensures var t := Apply(s, step);
            && id in t.workers && t.workers[id].pc == Done
            && (id in t.board.jobs ==> id in s.board.jobs && SameOutcome(t.board.jobs[id], s.board.jobs[id]))
  {
    match step
    case Report(_, now, logTime) => ReportIsElsewhere(s, step.id, now, logTime, id);
    case Settle(_, outcome, now, logTime) => SettleIsElsewhere(s, step.id, outcome, now, logTime, id);
    case _ =>
  }

  lemma ReportIsElsewhere(s: State, other: string, now: int, logTime: int, id: string)
    requires id in s.workers && s.workers[id].pc == Done
    ensures var t := ApplyReport(s, other, now, logTime);
            && id in t.workers && t.workers[id].pc == Done
            && (id in t.board.jobs <==> id in s.board.jobs)
            && (id in s.board.jobs ==> t.board.jobs[id] == s.board.jobs[id])
  {
  }

  lemma SettleIsElsewhere(s: State, other: string, outcome: ToolResult, now: int, logTime: int, id: string)
    requires id in s.workers && s.workers[id].pc == Done
    ensures var t := ApplySettle(s, other, outcome, now, logTime);
            && id in t.workers && t.workers[id].pc == Done
            && (id in t.board.jobs <==> id in s.board.jobs)
            && (id in s.board.jobs ==> t.board.jobs[id] == s.board.jobs[id])
  {
  }

  lemma TerminalStaysOneStep(s: State, step: Step, id: string)
    requires Inv(s) && id in s.workers && s.workers[id].pc == Done
    ensures var t := Apply(s, step);
            && id in t.workers && t.workers[id].pc == Done
            && (id in t.board.jobs ==> id in s.board.jobs && SameOutcome(t.board.jobs[id], s.board.jobs[id]))
  {
    if step.Create? {
      CreateIsElsewhere(s, step, id);
    } else {
      assert id in s.board.jobs ==> JobIsSound(s, id);
      TerminalStaysOtherStep(s, step, id);
    }
  }

  lemma {:induction false} TerminalStays(s: State, more: seq<Step>, id: string)
    requires Inv(s) && ExecFrom(s, more).issued <= TWO_TO_64
    requires id in s.workers && s.workers[id].pc == Done
    ensures var t := ExecFrom(s, more);
            && id in t.workers && t.workers[id].pc == Done
            && (id in t.board.jobs ==> id in s.board.jobs && SameOutcome(t.board.jobs[id], s.board.jobs[id]))
  {
    if more != [] {
      var init, last := more[..|more| - 1], more[|more| - 1];
      IssuedStep(ExecFrom(s, init), last);
      TerminalStays(s, init, id);
      InvFrom(s, init);
      TerminalStaysOneStep(ExecFrom(s, init), last, id);
    }
  }

  /** Once a job is terminal, its state, result, error and completion time never change under any
      later schedule, cancels included, for as long as the job is in the table. */
  lemma TerminalIsAbsorbing(steps: seq<Step>, more: seq<Step>, id: string)
    requires Exec(steps + more).issued <= TWO_TO_64
    requires id in Exec(steps).board.jobs && IsTerminal(Exec(steps).board.jobs[id].state)
    requires id in Exec(steps + more).board.jobs
    ensures SameOutcome(Exec(steps + more).board.jobs[id], Exec(steps).board.jobs[id])
  {
    ExecFromAppend(START, steps, more);
    IssuedGrows(Exec(steps), more);
    InvAlways(steps);
    assert JobIsSound(Exec(steps), id);
    TerminalStays(Exec(steps), more, id);
  }

  /** A job that has left the table never comes back. */
  lemma EvictedStaysEvicted(steps: seq<Step>, more: seq<Step>, id: string)
    requires Exec(steps + more).issued <= TWO_TO_64
    requires id in Exec(steps).workers && id !in Exec(steps).board.jobs
    ensures id !in Exec(steps + more).board.jobs
  {
    ExecFromAppend(START, steps, more);
    IssuedGrows(Exec(steps), more);
    InvAlways(steps);
    TerminalStays(Exec(steps), more, id);
  }

  /** A live job is never evicted: after any further schedule it is still in the table unless its
      worker has finished in the meantime. */
  lemma LiveJobsStay(steps: seq<Step>, more: seq<Step>, id: string)
    requires Exec(steps + more).issued <= TWO_TO_64
    requires id in Exec(steps).board.jobs
    ensures id in Exec(steps + more).workers
    ensures id in Exec(steps + more).board.jobs || Exec(steps + more).workers[id].pc == Done
  {
    ExecFromAppend(START, steps, more);
    IssuedGrows(Exec(steps), more);
    InvAlways(steps);
    assert JobIsSound(Exec(steps), id);
    WorkersStay(Exec(steps), more, id);
    InvAlways(steps + more);
  }

  lemma {:induction false} WorkersStay(s: State, more: seq<Step>, id: string)
    requires id in s.workers
    ensures id in ExecFrom(s, more).workers
  {
    if more != [] {
      WorkersStay(s, more[..|more| - 1], id);
      WorkersStayOneStep(ExecFrom(s, more[..|more| - 1]), more[|more| - 1], id);
    }
  }

  lemma WorkersStayOneStep(s: State, step: Step, id: string)
    requires id in s.workers
    ensures id in Apply(s, step).workers
  {
  }

  // ---- Cancelling ----

  lemma CancelFlagStaysOtherStep(s: State, step: Step, id: string)
    requires !step.Create? && id in s.board.jobs && s.board.jobs[id].cancelRequested
    ensures id in Apply(s, step).board.jobs ==> Apply(s, step).board.jobs[id].cancelRequested
  {
    match step
    case Report(_, now, logTime) => ReportKeepsFlag(s, step.id, now, logTime, id);
    case Settle(_, outcome, now, logTime) => SettleKeepsFlag(s, step.id, outcome, now, logTime, id);
    case _ =>
  }

  lemma ReportKeepsFlag(s: State, other: string, now: int, logTime: int, id: string)
    requires id in s.board.jobs && s.board.jobs[id].cancelRequested
    ensures var t := ApplyReport(s, other, now, logTime);
            id in t.board.jobs && t.board.jobs[id].cancelRequested
  {
  }

  lemma SettleKeepsFlag(s: State, other: string, outcome: ToolResult, now: int, logTime: int, id: string)
    requires id in s.board.jobs && s.board.jobs[id].cancelRequested
    ensures var t := ApplySettle(s, other, outcome, now, logTime);
            id in t.board.jobs && t.board.jobs[id].cancelRequested
  {
  }

  lemma CancelFlagStaysOneStep(s: State, step: Step, id: string)
    requires Inv(s) && id in s.board.jobs && s.board.jobs[id].cancelRequested
    ensures id in Apply(s, step).board.jobs ==> Apply(s, step).board.jobs[id].cancelRequested
  {
    if step.Create? {
      assert JobIsSound(s, id);
      CreateIsElsewhere(s, step, id);
    } else {
      CancelFlagStaysOtherStep(s, step, id);
    }
  }

  lemma {:induction false} CancelFlagStaysFrom(s: State, more: seq<Step>, id: string)
    requires Inv(s) && ExecFrom(s, more).issued <= TWO_TO_64
    requires id in s.board.jobs && s.board.jobs[id].cancelRequested
    ensures id in ExecFrom(s, more).board.jobs ==> ExecFrom(s, more).board.jobs[id].cancelRequested
  {
    if more != [] {
      var init, last := more[..|more| - 1], more[|more| - 1];
      IssuedStep(ExecFrom(s, init), last);
      CancelFlagStaysFrom(s, init, id);
      InvFrom(s, init);
      assert JobIsSound(s, id);
      WorkersStay(s, init, id);
      if id in ExecFrom(s, init).board.jobs {
        CancelFlagStaysOneStep(ExecFrom(s, init), last, id);
      } else {
        GoneStaysOneStep(ExecFrom(s, init), last, id);
      }
    }
  }

  /** A cancel is never forgotten: the flag stays up as long as the job is in the table, although
      the worker's next state change overwrites the state the cancel set. */
  lemma CancelFlagStays(steps: seq<Step>, more: seq<Step>, id: string)
    requires Exec(steps + more).issued <= TWO_TO_64
    requires id in Exec(steps).board.jobs && Exec(steps).board.jobs[id].cancelRequested
    ensures id in Exec(steps + more).board.jobs ==> Exec(steps + more).board.jobs[id].cancelRequested
  {
    ExecFromAppend(START, steps, more);
    IssuedGrows(Exec(steps), more);
    InvAlways(steps);
    CancelFlagStaysFrom(Exec(steps), more, id);
  }

  lemma GoneStaysOneStep(s: State, step: Step, id: string)
    requires Inv(s) && id in s.workers && id !in s.board.jobs
    ensures id !in Apply(s, step).board.jobs
  {
    if step.Create? {
      CreateIsElsewhere(s, step, id);
    }
  }

  lemma CancelSets(s: State, id: string, now: int, logTime: int)
    requires id in s.board.jobs && !IsTerminal(s.board.jobs[id].state) && now > 0
    ensures var t := ApplyCancel(s, id, now, logTime);
            && t.workers == s.workers && id in t.board.jobs
            && t.board.jobs[id].state == CancelRequested && t.board.jobs[id].cancelRequested
  {
  }

  lemma ReportSets(s: State, id: string, now: int, logTime: int)
    requires id in s.board.jobs && id in s.workers && NextReport(s.workers[id]).Some? && now > 0
    ensures var t := ApplyReport(s, id, now, logTime);
            && t.issued == s.issued
            && id in t.workers && t.workers[id].pc == NextReport(s.workers[id]).value.3
            && id in t.board.jobs && t.board.jobs[id].state == NextReport(s.workers[id]).value.0
  {
  }

  /** Only a remote worker waits for an editor. */
  ghost predicate KindsFit(s: State)
  {
    forall id | id in s.workers :: s.workers[id].pc == SetWaiting ==> s.workers[id].remote
  }

  lemma KindsFitOneStep(s: State, step: Step)
    requires KindsFit(s)
    ensures KindsFit(Apply(s, step))
  {
    match step
    case Report(id, now, logTime) => ReportKeepsKinds(s, id, now, logTime);
    case _ =>
  }

  lemma ReportKeepsKinds(s: State, id: string, now: int, logTime: int)
    requires KindsFit(s)
    ensures KindsFit(ApplyReport(s, id, now, logTime))
  {
  }

  lemma {:induction false} KindsFitAlways(steps: seq<Step>)
    ensures KindsFit(Exec(steps))
  {
    if steps != [] {
      KindsFitAlways(steps[..|steps| - 1]);
      KindsFitOneStep(Exec(steps[..|steps| - 1]), steps[|steps| - 1]);
    }
  }

  /** A job that was cancelled and whose worker has no report left, or that has settled. */
  ghost predicate RestsCancelled(s: State, id: string)
  {
    && id in s.workers
    && (s.workers[id].pc == Done
        || (ReadyToSettle(s.workers[id]) && id in s.board.jobs && s.board.jobs[id].state == CancelRequested))
  }

  lemma RestsOneStep(s: State, step: Step, id: string)
    requires Inv(s) && RestsCancelled(s, id)
    ensures RestsCancelled(Apply(s, step), id)
  {
    if s.workers[id].pc == Done {
      TerminalStaysOneStep(s, step, id);
    } else if step.Create? {
      CreateIsElsewhere(s, step, id);
      CreateKeepsLive(s, step, id);
    } else {
      RestsOtherStep(s, step, id);
    }
  }

  lemma CreateKeepsLive(s: State, step: Step, id: string)
    requires Inv(s) && step.Create? && id in s.board.jobs && !IsTerminal(s.board.jobs[id].state)
    ensures id in ApplyCreate(s, step).board.jobs
  {
    if step.id in s.reserved && step.now > 0 {
      var job := NewRecord(step.id, step.tool, step.args, step.target, step.timeoutMs, step.now, step.logTime);
      JobsHaveWorkers(s);
      InsertKeepsBoard(s.board, job);
    }
  }

  lemma RestsOtherStep(s: State, step: Step, id: string)
    requires RestsCancelled(s, id) && s.workers[id].pc != Done && !step.Create?
    ensures RestsCancelled(Apply(s, step), id)
  {
    match step
    case Report(_, now, logTime) => RestsReport(s, step.id, now, logTime, id);
    case Settle(_, outcome, now, logTime) => RestsSettle(s, step.id, outcome, now, logTime, id);
    case _ =>
  }

  lemma RestsReport(s: State, other: string, now: int, logTime: int, id: string)
    requires RestsCancelled(s, id) && s.workers[id].pc != Done
    ensures RestsCancelled(ApplyReport(s, other, now, logTime), id)
  {
  }

  lemma RestsSettle(s: State, other: string, outcome: ToolResult, now: int, logTime: int, id: string)
    requires RestsCancelled(s, id) && s.workers[id].pc != Done
    ensures RestsCancelled(ApplySettle(s, other, outcome, now, logTime), id)
  {
  }

  lemma {:induction false} RestsOn(s: State, more: seq<Step>, id: string)
    requires Inv(s) && RestsCancelled(s, id) && ExecFrom(s, more).issued <= TWO_TO_64
    ensures RestsCancelled(ExecFrom(s, more), id)
  {
    if more != [] {
      var init, last := more[..|more| - 1], more[|more| - 1];
      IssuedStep(ExecFrom(s, init), last);
      RestsOn(s, init, id);
      InvFrom(s, init);
      RestsOneStep(ExecFrom(s, init), last, id);
    }
  }

  /** In every later state up to its settling, the job's state is still the one a cancel sets. */
  ghost predicate StaysCancelled(s: State, id: string)
  {
    forall more :: ExecFrom(s, more).issued <= TWO_TO_64 ==>
      var t := ExecFrom(s, more);
      id in t.workers
      && (t.workers[id].pc != Done ==> id in t.board.jobs && t.board.jobs[id].state == CancelRequested)
  }

  /** The reports a worker that is not ready makes next. */
  function NextSteps(w: Worker, id: string): seq<Step>
  {
    if w.pc == Spawned then [Load(id), Report(id, 1, 1)] else [Report(id, 1, 1)]
  }

  lemma LoadsThenReports(s: State, id: string)
    requires id in s.board.jobs && id in s.workers && s.workers[id].pc == Spawned
    ensures var t := ExecFrom(s, [Load(id), Report(id, 1, 1)]);
            && t.issued == s.issued && id in t.workers && t.workers[id].pc != Done
            && id in t.board.jobs && t.board.jobs[id].state != CancelRequested
  {
    var loaded := ApplyLoad(s, id);
    assert loaded == Goto(s, id, Loaded);
    ReportSets(loaded, id, 1, 1);
    assert [Load(id), Report(id, 1, 1)][..1] == [Load(id)] && [Load(id)][..0] == [];
    assert ExecFrom(s, [Load(id)]) == Apply(s, Load(id));
  }

  lemma Reports(s: State, id: string)
    requires id in s.board.jobs && id in s.workers && NextReport(s.workers[id]).Some?
    ensures var t := ExecFrom(s, [Report(id, 1, 1)]);
            && t.issued == s.issued && id in t.workers && t.workers[id].pc != Done
            && id in t.board.jobs && t.board.jobs[id].state != CancelRequested
  {
    ReportSets(s, id, 1, 1);
    assert [Report(id, 1, 1)][..0] == [];
    assert ExecFrom(s, [Report(id, 1, 1)]) == Apply(s, Report(id, 1, 1));
  }

  lemma NotReadyOverwrites(s: State, id: string)
    requires Inv(s) && KindsFit(s) && s.issued <= TWO_TO_64
    requires id in s.board.jobs && !IsTerminal(s.board.jobs[id].state)
    requires id in s.workers && !ReadyToSettle(s.workers[id])
    ensures !StaysCancelled(s, id)
  {
    assert JobIsSound(s, id);
    if s.workers[id].pc == Spawned {
      LoadsThenReports(s, id);
    } else {
      Reports(s, id);
    }
    var t := ExecFrom(s, NextSteps(s.workers[id], id));
    assert t.issued <= TWO_TO_64;
  }

  /** What a cancel makes of a live job's state lasts until the job settles if and only if its
      worker has already made its last report; otherwise the next report overwrites it. */
  lemma CancelStateLastsIff(steps: seq<Step>, id: string, now: int, logTime: int)
    requires Exec(steps).issued <= TWO_TO_64
    requires id in Exec(steps).board.jobs && !IsTerminal(Exec(steps).board.jobs[id].state) && now > 0
    ensures id in Exec(steps).workers
    ensures StaysCancelled(ApplyCancel(Exec(steps), id, now, logTime), id)
       <==> ReadyToSettle(Exec(steps).workers[id])
  {
    InvAlways(steps);
    KindsFitAlways(steps);
    var s := Exec(steps);
    var c := ApplyCancel(s, id, now, logTime);
    assert JobIsSound(s, id);
    CancelSets(s, id, now, logTime);
    CancelKeeps(s, id, now, logTime);
    assert c.issued == s.issued;
    if ReadyToSettle(s.workers[id]) {
      forall more | ExecFrom(c, more).issued <= TWO_TO_64 ensures RestsCancelled(ExecFrom(c, more), id) {
        RestsOn(c, more, id);
      }
    } else {
      NotReadyOverwrites(c, id);
    }
  }

  // ---- Waiting ----

  /** A wait throws only for a job that finished and was evicted while it waited: on a job whose
      worker is still at work it reports, and it reports a time-out exactly in that case. */
  lemma WaitNeverLosesALiveJob(steps: seq<Step>, more: seq<Step>, id: string)
    requires Exec(steps + more).issued <= TWO_TO_64
    requires id in Exec(steps).board.jobs
    ensures var t := Exec(steps + more);
            var r := WaitResult(Exec(steps).board, t.board, id);
            && id in t.workers && r != NotFound
            && (t.workers[id].pc != Done ==> r.Reported?)
            && (r.Reported? ==> (r.timedOut <==> t.workers[id].pc != Done))
  {
    LiveJobsStay(steps, more, id);
    InvAlways(steps + more);
    assert id in Exec(steps + more).board.jobs ==> JobIsSound(Exec(steps + more), id);
  }
}
