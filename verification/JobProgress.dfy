/** What a job's history tells: its worker's stages in their order, each once, and its end. */
module JobProgress {
  import opened Encodings
  import opened JobBoard
  import opened JobInvariant
  import opened JobLog
  import opened JobMachine
  import opened Results
  import opened Rpc
  import JobTheorems

  /** The states and messages of the entries that are no warnings. */
  function Told(history: seq<LogBody>): seq<(JobState, string)>
  {
    if history == [] then []
    else
      var last := history[|history| - 1];
      Told(history[..|history| - 1]) + if last.level == "warn" then [] else [(last.state, last.message)]
  }

  /** What a worker announces before it settles, in this order. */
  function Stages(remote: bool): seq<(JobState, string)>
  {
    if remote then
      [(Queued, "queued"), (Dispatched, "dispatching remote tool to editor"),
       (Running, "remote tool call is running"), (WaitingEditor, "waiting for editor tool result")]
    else [(Queued, "queued"), (Running, "local tool job is running")]
  }

  /** How many of its stages a worker has announced. */
  function Reached(w: Worker): (n: nat)
    ensures n <= |Stages(w.remote)|
  {
    match w.pc
    case SetDispatched => 2
    case SetRunning => if w.remote then 3 else 2
    case SetWaiting => |Stages(w.remote)|
    case Done => |Stages(w.remote)|
    case _ => 1
  }

  /** The last entry tells how the job ended. */
  ghost predicate TellsEnd(entry: (JobState, string), w: Worker)
  {
    match w.outcome
    case Some(Ok(_)) => entry == (Completed, "completed")
    case Some(Err(e)) =>
      && entry.0 == (if JobTheorems.TellsCrash(w) then EditorCrashed else Failed)
      && entry.1 == if e.message == "" then "failed" else e.message
    case None => false
  }

  /** A worker's announced stages, and when it is done the end. */
  ghost predicate TellsProgress(told: seq<(JobState, string)>, w: Worker)
  {
    var n := Reached(w);
    if w.pc == Done then |told| == n + 1 && told[..n] == Stages(w.remote) && TellsEnd(told[n], w)
    else told == Stages(w.remote)[..n]
  }

  /** Only a remote worker dispatches and waits for an editor. */
  predicate KindFits(w: Worker)
  {
    w.pc == SetDispatched || w.pc == SetWaiting ==> w.remote
  }

  ghost predicate WorkerTells(s: State, id: string)
    requires id in s.workers
  {
    && KindFits(s.workers[id])
    && id in s.history && TellsProgress(Told(s.history[id]), s.workers[id])
  }

  ghost predicate HistoriesTell(s: State)
  {
    forall id | id in s.workers && s.workers[id].pc != Lost :: WorkerTells(s, id)
  }

  lemma ToldSnoc(history: seq<LogBody>, body: LogBody)
    ensures Told(history + [body])
         == Told(history) + if body.level == "warn" then [] else [(body.state, body.message)]
  {
    assert (history + [body])[..|history|] == history;
  }

  // ---- One stage after the other ----

  lemma NextStage(w: Worker)
    requires KindFits(w) && NextReport(w).Some?
    ensures var (state, message, _, pc) := NextReport(w).value;
            && Reached(w) < |Stages(w.remote)| && Stages(w.remote)[Reached(w)] == (state, message)
            && KindFits(w.(pc := pc)) && Reached(w.(pc := pc)) == Reached(w) + 1
            && pc != Done && w.pc != Done
  {
  }

  lemma ReadyReachedAll(w: Worker)
    requires KindFits(w) && ReadyToSettle(w)
    ensures Reached(w) == |Stages(w.remote)| && w.pc != Done
  {
  }

  lemma InfoIsNoWarning()
    ensures "info" != "warn" && "error" != "warn"
  {
    assert "info"[0] != "warn"[0] && "error"[0] != "warn"[0];
  }

  lemma FirstEntryTells(body: LogBody, w: Worker)
    requires body.level == "info" && body.state == Queued && body.message == "queued" && w.pc == Spawned
    ensures TellsProgress(Told([body]), w) && KindFits(w)
  {
    ToldSnoc([], body);
    InfoIsNoWarning();
    assert [] + [body] == [body];
    assert Told([body]) == [(Queued, "queued")] == Stages(w.remote)[..1];
  }

  lemma FirstEntry(step: Step)
    requires step.Create?
    ensures var job := NewRecord(step.id, step.tool, step.args, step.target, step.timeoutMs, step.now, step.logTime);
            |job.logs| == 1 && job.logs[0].body == LogBody(step.logTime, "info", Queued, "queued", EMPTY_DATA)
  {
  }

  lemma CreateTells(s: State, step: Step)
    requires HistoriesTell(s) && step.Create?
    ensures HistoriesTell(ApplyCreate(s, step))
  {
    var t := ApplyCreate(s, step);
    FirstEntry(step);
    forall id | id in t.workers && t.workers[id].pc != Lost ensures WorkerTells(t, id) {
      if id == step.id && step.id in s.reserved && step.now > 0 {
        FirstEntryTells(t.history[id][0], t.workers[id]);
        assert t.history[id] == [t.history[id][0]];
      } else {
        assert WorkerTells(s, id);
      }
    }
  }

  lemma LoadTells(s: State, id: string)
    requires HistoriesTell(s)
    ensures HistoriesTell(ApplyLoad(s, id))
  {
    var t := ApplyLoad(s, id);
    forall other | other in t.workers && t.workers[other].pc != Lost ensures WorkerTells(t, other) {
      assert WorkerTells(s, other);
    }
  }

  lemma StageTells(history: seq<LogBody>, w: Worker, logTime: int)
    requires TellsProgress(Told(history), w) && KindFits(w) && NextReport(w).Some?
    ensures var (state, message, data, pc) := NextReport(w).value;
            TellsProgress(Told(history + [LogBody(logTime, "info", state, message, data)]), w.(pc := pc))
  {
    var (state, message, data, pc) := NextReport(w).value;
    NextStage(w);
    InfoIsNoWarning();
    ToldSnoc(history, LogBody(logTime, "info", state, message, data));
    StageAppended(Stages(w.remote), Reached(w));
  }

  lemma StageAppended<T>(stages: seq<T>, n: nat)
    requires n < |stages|
    ensures stages[..n] + [stages[n]] == stages[..n + 1]
  {
  }

  lemma ReportTells(s: State, id: string, now: int, logTime: int)
    requires HistoriesTell(s) && NoJobIsLost(s)
    ensures HistoriesTell(ApplyReport(s, id, now, logTime))
  {
    var t := ApplyReport(s, id, now, logTime);
    forall other | other in t.workers && t.workers[other].pc != Lost ensures WorkerTells(t, other) {
      assert WorkerTells(s, other);
      if other == id && now > 0 && NextReport(s.workers[id]).Some? {
        NextStage(s.workers[id]);
        StageTells(s.history[id], s.workers[id], logTime);
      }
    }
  }

  lemma SettleTells(s: State, id: string, outcome: ToolResult, now: int, logTime: int)
    requires HistoriesTell(s) && NoJobIsLost(s)
    ensures HistoriesTell(ApplySettle(s, id, outcome, now, logTime))
  {
    var t := ApplySettle(s, id, outcome, now, logTime);
    forall other | other in t.workers && t.workers[other].pc != Lost ensures WorkerTells(t, other) {
      assert WorkerTells(s, other);
      if other == id && ReadyToSettle(s.workers[id]) && now > 0 {
        ReadyReachedAll(s.workers[id]);
        SettleBodyTells(s.history[id], s.workers[id], outcome, logTime);
      }
    }
  }

  lemma SettleBodyTells(history: seq<LogBody>, w: Worker, outcome: ToolResult, logTime: int)
    requires TellsProgress(Told(history), w) && w.pc != Done && Reached(w) == |Stages(w.remote)|
    ensures var done := w.(pc := Done, outcome := Some(outcome));
            TellsProgress(Told(history + [SettleBody(w.remote, outcome, logTime)]), done)
  {
    InfoIsNoWarning();
    ToldSnoc(history, SettleBody(w.remote, outcome, logTime));
    if outcome.Err? {
      ContainsIffHas(outcome.error.message, "disconnected");
    }
  }

  lemma CancelAppendsWarning(s: State, id: string, now: int, logTime: int)
    requires id in s.board.jobs && id in s.history && now > 0
    ensures var t := ApplyCancel(s, id, now, logTime);
            && t.workers == s.workers && id in t.history && Told(t.history[id]) == Told(s.history[id])
            && forall other | other in s.history && other != id ::
                 other in t.history && t.history[other] == s.history[other]
  {
    var job := Cancelled(s.board.jobs[id], now, logTime);
    ToldSnoc(s.history[id], LogBody(logTime, "warn", job.state, CANCEL_MESSAGE, EMPTY_DATA));
  }

  lemma CancelTells(s: State, id: string, now: int, logTime: int)
    requires HistoriesTell(s) && JobsAreSound(s)
    ensures HistoriesTell(ApplyCancel(s, id, now, logTime))
  {
    if id in s.board.jobs && now > 0 {
      var t := ApplyCancel(s, id, now, logTime);
      assert JobIsSound(s, id);
      CancelAppendsWarning(s, id, now, logTime);
      forall other | other in t.workers && t.workers[other].pc != Lost ensures WorkerTells(t, other) {
        assert WorkerTells(s, other);
      }
    }
  }

  lemma StepTells(s: State, step: Step)
    requires HistoriesTell(s) && Inv(s)
    ensures HistoriesTell(Apply(s, step))
  {
    match step
    case Reserve => assert forall id | id in s.workers && s.workers[id].pc != Lost :: WorkerTells(s, id);
    case Create(_, _, _, _, _, _, _, _) => CreateTells(s, step);
    case Load(id) => LoadTells(s, id);
    case Report(id, now, logTime) => ReportTells(s, id, now, logTime);
    case Settle(id, outcome, now, logTime) => SettleTells(s, id, outcome, now, logTime);
    case Cancel(id, now, logTime) => CancelTells(s, id, now, logTime);
  }

  lemma {:induction false} HistoriesTellAlways(steps: seq<Step>)
    requires Exec(steps).issued <= TWO_TO_64
    ensures HistoriesTell(Exec(steps))
  {
    if steps != [] {
      var init, step := steps[..|steps| - 1], steps[|steps| - 1];
      IssuedStep(Exec(init), step);
      HistoriesTellAlways(init);
      InvAlways(init);
      StepTells(Exec(init), step);
    }
  }

  /** In every schedule the history of a job tells, warnings of cancels apart, exactly the stages its
      worker has reached: queued, then for a remote job dispatched, running and waiting for the editor,
      for a local one running, and once the worker is done how the job ended. */
  lemma HistoryTellsProgress(steps: seq<Step>, id: string)
    requires Exec(steps).issued <= TWO_TO_64 && id in Exec(steps).workers
    ensures id in Exec(steps).history
    ensures TellsProgress(Told(Exec(steps).history[id]), Exec(steps).workers[id])
  {
    HistoriesTellAlways(steps);
    InvAlways(steps);
    assert WorkerTells(Exec(steps), id);
  }
}
