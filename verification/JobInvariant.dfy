/** Every step of the job engine keeps its invariant. */
module JobInvariant {
  import opened Encodings
  import opened JobBoard
  import opened JobLog
  import opened JobMachine
  import opened Jobs
  import opened Results
  import opened Rpc

  lemma InvAtStart()
    ensures Inv(START)
  {
  }

  // ---- Drawing ids ----

  lemma NextIdIsFresh(n: nat)
    requires n < TWO_TO_64
    ensures JobId((n + 1) % TWO_TO_64) !in IdsUpTo(n)
    ensures IdsUpTo(n + 1) == IdsUpTo(n) + {JobId((n + 1) % TWO_TO_64)}
  {
    forall k | 1 <= k <= n ensures JobId(k % TWO_TO_64) != JobId((n + 1) % TWO_TO_64) {
      JobIdRoundTrip(k % TWO_TO_64);
      JobIdRoundTrip((n + 1) % TWO_TO_64);
      RemaindersDiffer(k, n + 1);
    }
  }

  lemma RemaindersDiffer(k: nat, n: nat)
    requires 1 <= k < n <= TWO_TO_64
    ensures k % TWO_TO_64 != n % TWO_TO_64
  {
    assert k % TWO_TO_64 == k;
    assert n % TWO_TO_64 == if n == TWO_TO_64 then 0 else n;
  }

  lemma CounterFollows(n: nat)
    ensures (n % TWO_TO_64 + 1) % TWO_TO_64 == (n + 1) % TWO_TO_64
  {
    var q, r := n / TWO_TO_64, n % TWO_TO_64;
    assert n == q * TWO_TO_64 + r;
    if r + 1 == TWO_TO_64 {
      assert n + 1 == (q + 1) * TWO_TO_64;
    }
  }

  lemma ReserveKeeps(s: State)
    requires Inv(s) && s.issued < TWO_TO_64
    ensures Inv(ApplyReserve(s))
  {
    CounterFollows(s.issued);
    NextIdIsFresh(s.issued);
    var t := ApplyReserve(s);
    forall id | id in t.board.jobs ensures JobIsSound(t, id) {
      assert JobIsSound(s, id);
    }
  }

  // ---- Creating ----

  lemma NewRecordLog(job: JobRecord)
    requires |job.logs| > 0 && job.logs == Appended([], job.logs[0].body)
    ensures job.logs == LogView([job.logs[0].body])
  {
    assert [job.logs[0].body][0..] == [job.logs[0].body];
  }

  lemma JobsHaveWorkers(s: State)
    requires JobsAreSound(s)
    ensures s.board.jobs.Keys <= s.workers.Keys
  {
    forall id | id in s.board.jobs ensures id in s.workers {
      assert JobIsSound(s, id);
    }
  }

  lemma CreateKeeps(s: State, step: Step)
    requires Inv(s) && step.Create?
    ensures Inv(ApplyCreate(s, step))
  {
    if step.id in s.reserved && step.now > 0 {
      var job := NewRecord(step.id, step.tool, step.args, step.target, step.timeoutMs, step.now, step.logTime);
      NewRecordLog(job);
      JobsHaveWorkers(s);
      InsertKeepsBoard(s.board, job);
      CreateKeepsJobs(s, step, job);
    }
  }

  lemma CreateKeepsJobs(s: State, step: Step, job: JobRecord)
    requires Inv(s) && step.Create? && step.id in s.reserved && step.now > 0
    requires job == NewRecord(step.id, step.tool, step.args, step.target, step.timeoutMs, step.now, step.logTime)
    requires job.logs == LogView([job.logs[0].body])
    requires var b := Inserted(s.board, job);
             && job.id in b.jobs && b.jobs[job.id] == job
             && b.jobs.Keys <= s.board.jobs.Keys + {job.id}
             && (forall id | id in b.jobs && id != job.id :: b.jobs[id] == s.board.jobs[id])
             && (forall id | id in s.board.jobs && id !in b.jobs :: IsTerminal(s.board.jobs[id].state))
    ensures var t := ApplyCreate(s, step); JobsAreSound(t) && NoJobIsLost(t)
  {
    var t := ApplyCreate(s, step);
    forall id | id in t.board.jobs ensures JobIsSound(t, id) {
      if id != job.id {
        assert JobIsSound(s, id);
      }
    }
    forall id | id in t.workers && t.workers[id].pc != Done ensures id in t.board.jobs {
      if id != job.id {
        assert JobIsSound(s, id);
      }
    }
  }

  // ---- Steps on one record ----

  /** A record that fits its worker's place and outcome. */
  ghost predicate Fits(job: JobRecord, w: Worker)
  {
    && (IsTerminal(job.state) <==> w.pc == Done)
    && (IsTerminal(job.state) ==> w.outcome.Some? && HoldsOutcome(job, w.remote, w.outcome.value))
    && (!IsTerminal(job.state) ==> HoldsNothing(job))
  }

  /** One worker moves and its record is replaced by a sound one. */
  lemma RecordKeepsJobs(s: State, id: string, w: Worker, job: JobRecord, body: LogBody)
    requires JobsAreSound(s) && id in s.board.jobs
    requires job.id == id && Fits(job, w)
    requires job.logs == Appended(s.board.jobs[id].logs, body)
    ensures JobsAreSound(Record(s.(workers := s.workers[id := w]), id, job, body))
  {
    var t := Record(s.(workers := s.workers[id := w]), id, job, body);
    assert JobIsSound(s, id);
    AppendRefinesHistory(s.history[id], body);
    forall other | other in t.board.jobs ensures JobIsSound(t, other) {
      assert JobIsSound(s, other);
    }
  }

  lemma RecordKeeps(s: State, id: string, w: Worker, job: JobRecord, body: LogBody)
    requires Inv(s) && id in s.board.jobs && id in s.workers
    requires w.pc != Lost
    requires job.id == id && Fits(job, w)
    requires job.logs == Appended(s.board.jobs[id].logs, body)
    ensures Inv(Record(s.(workers := s.workers[id := w]), id, job, body))
  {
    var t := Record(s.(workers := s.workers[id := w]), id, job, body);
    RecordKeepsJobs(s, id, w, job, body);
    assert t.board.jobs.Keys == s.board.jobs.Keys;
    assert t.workers.Keys == s.workers.Keys;
  }

  lemma LoadKeeps(s: State, id: string)
    requires Inv(s)
    ensures Inv(ApplyLoad(s, id))
  {
    if id in s.workers && s.workers[id].pc == Spawned {
      var t := ApplyLoad(s, id);
      assert t.workers.Keys == s.workers.Keys;
      forall other | other in t.board.jobs ensures JobIsSound(t, other) {
        assert JobIsSound(s, other);
      }
    }
  }

  lemma ReportedFits(job: JobRecord, w: Worker, now: int, logTime: int)
    requires Fits(job, w) && NextReport(w).Some?
    ensures var (state, message, data, pc) := NextReport(w).value;
            var after := WithState(job, state, message, data, now, logTime);
            && Fits(after, w.(pc := pc)) && pc != Lost && after.id == job.id
            && after.logs == Appended(job.logs, LogBody(logTime, "info", state, message, data))
  {
  }

  lemma ReportIsRecord(s: State, id: string, now: int, logTime: int)
    requires id in s.workers && id in s.board.jobs && now > 0 && NextReport(s.workers[id]).Some?
    ensures var (state, message, data, pc) := NextReport(s.workers[id]).value;
            ApplyReport(s, id, now, logTime)
              == Record(s.(workers := s.workers[id := s.workers[id].(pc := pc)]), id,
                        WithState(s.board.jobs[id], state, message, data, now, logTime),
                        LogBody(logTime, "info", state, message, data))
  {
  }

  lemma ReportKeeps(s: State, id: string, now: int, logTime: int)
    requires Inv(s)
    ensures Inv(ApplyReport(s, id, now, logTime))
  {
    if id in s.workers && now > 0 && NextReport(s.workers[id]).Some? {
      var (state, message, data, pc) := NextReport(s.workers[id]).value;
      assert JobIsSound(s, id);
      ReportIsRecord(s, id, now, logTime);
      ReportedFits(s.board.jobs[id], s.workers[id], now, logTime);
      RecordKeeps(s, id, s.workers[id].(pc := pc),
                  WithState(s.board.jobs[id], state, message, data, now, logTime),
                  LogBody(logTime, "info", state, message, data));
    }
  }

  lemma SettledFits(job: JobRecord, w: Worker, outcome: ToolResult, now: int, logTime: int)
    requires HoldsNothing(job) && now > 0
    ensures Fits(JobBoard.Settled(job, w.remote, outcome, now, logTime), w.(pc := Done, outcome := Some(outcome)))
    ensures JobBoard.Settled(job, w.remote, outcome, now, logTime).logs
         == Appended(job.logs, SettleBody(w.remote, outcome, logTime))
  {
  }

  lemma SettleKeeps(s: State, id: string, outcome: ToolResult, now: int, logTime: int)
    requires Inv(s)
    ensures Inv(ApplySettle(s, id, outcome, now, logTime))
  {
    if id in s.workers && ReadyToSettle(s.workers[id]) && now > 0 {
      var w := s.workers[id];
      assert JobIsSound(s, id);
      SettledFits(s.board.jobs[id], w, outcome, now, logTime);
      RecordKeeps(s, id, w.(pc := Done, outcome := Some(outcome)),
                  JobBoard.Settled(s.board.jobs[id], w.remote, outcome, now, logTime),
                  SettleBody(w.remote, outcome, logTime));
    }
  }

  lemma CancelledFits(job: JobRecord, w: Worker, now: int, logTime: int)
    requires Fits(job, w)
    ensures var after := Cancelled(job, now, logTime);
            && Fits(after, w)
            && after.logs == Appended(job.logs, LogBody(logTime, "warn", after.state, CANCEL_MESSAGE, EMPTY_DATA))
  {
  }

  lemma SameWorker(s: State, id: string)
    requires id in s.workers
    ensures s.(workers := s.workers[id := s.workers[id]]) == s
  {
    assert s.workers[id := s.workers[id]] == s.workers;
  }

  lemma CancelKeeps(s: State, id: string, now: int, logTime: int)
    requires Inv(s)
    ensures Inv(ApplyCancel(s, id, now, logTime))
  {
    if id in s.board.jobs && now > 0 {
      assert JobIsSound(s, id);
      var w, job := s.workers[id], Cancelled(s.board.jobs[id], now, logTime);
      CancelledFits(s.board.jobs[id], w, now, logTime);
      SameWorker(s, id);
      RecordKeeps(s, id, w, job, LogBody(logTime, "warn", job.state, CANCEL_MESSAGE, EMPTY_DATA));
    }
  }

  lemma InvStep(s: State, step: Step)
    requires Inv(s)
    requires Apply(s, step).issued <= TWO_TO_64
    ensures Inv(Apply(s, step))
  {
    match step
    case Reserve => ReserveKeeps(s);
    case Create(_, _, _, _, _, _, _, _) => CreateKeeps(s, step);
    case Load(id) => LoadKeeps(s, id);
    case Report(id, now, logTime) => ReportKeeps(s, id, now, logTime);
    case Settle(id, outcome, now, logTime) => SettleKeeps(s, id, outcome, now, logTime);
    case Cancel(id, now, logTime) => CancelKeeps(s, id, now, logTime);
  }

  lemma IssuedStep(s: State, step: Step)
    ensures s.issued <= Apply(s, step).issued
  {
  }

  lemma {:induction false} IssuedGrows(s: State, steps: seq<Step>)
    ensures s.issued <= ExecFrom(s, steps).issued
  {
    if steps != [] {
      IssuedGrows(s, steps[..|steps| - 1]);
      IssuedStep(ExecFrom(s, steps[..|steps| - 1]), steps[|steps| - 1]);
    }
  }

  lemma {:induction false} InvFrom(s: State, steps: seq<Step>)
    requires Inv(s) && ExecFrom(s, steps).issued <= TWO_TO_64
    ensures Inv(ExecFrom(s, steps))
  {
    if steps != [] {
      var init, last := steps[..|steps| - 1], steps[|steps| - 1];
      IssuedStep(ExecFrom(s, init), last);
      InvFrom(s, init);
      InvStep(ExecFrom(s, init), last);
    }
  }

  /** The invariant holds after every schedule that draws at most 2^64 job ids. */
  lemma InvAlways(steps: seq<Step>)
    requires Exec(steps).issued <= TWO_TO_64
    ensures Inv(Exec(steps))
  {
    InvAtStart();
    InvFrom(START, steps);
  }
}
