/** The job manager object. */
module Jobs {
  import opened Encodings
  import opened JobBoard
  import opened JobLog
  import opened JsonValues
  import opened Results
  import opened Rpc

  function JobId(n: nat): string
  {
    "job-" + Decimal(n)
  }

  function JobNumber(id: string): nat
  {
    if |id| < 4 then 0 else Value(id[4..], 10)
  }

  lemma JobIdRoundTrip(n: nat)
    ensures JobNumber(JobId(n)) == n
  {
    DecimalRoundTrip(n);
    assert JobId(n)[4..] == Decimal(n);
  }

  /** "job-" and the decimal digits of the number, without leading zeros. */
  lemma JobIdShape(n: nat)
    ensures |JobId(n)| > 4 && JobId(n)[..4] == "job-"
    ensures forall c | c in JobId(n)[4..] :: '0' <= c <= '9'
    ensures JobId(n)[4] == '0' ==> JobId(n) == "job-0"
  {
    DecimalIsDigits(n);
    assert JobId(n)[4..] == Decimal(n);
    assert JobId(n)[4] == Decimal(n)[0];
  }

  ghost predicate ShowsId(b: Board, view: JobView, id: string, includeDetails: bool)
  {
    id in b.jobs && Shows(view, b.jobs[id], includeDetails)
  }

  /** These views show the queue from its back. */
  ghost predicate ShowsBack(b: Board, views: seq<JobView>, includeDetails: bool)
  {
    && |views| <= |b.order|
    && forall i | 0 <= i < |views| :: ShowsId(b, views[i], b.order[|b.order| - 1 - i], includeDetails)
  }

  lemma OneMoreShows(b: Board, views: seq<JobView>, id: string, includeDetails: bool)
    requires ShowsBack(b, views, includeDetails) && |views| < |b.order|
    requires id == b.order[|b.order| - 1 - |views|] && id in b.jobs
    ensures ShowsBack(b, views + [ViewOf(b.jobs[id], includeDetails)], includeDetails)
  {
    ViewShows(b.jobs[id], includeDetails);
  }

  /** The jobs of the queue from its back: exactly min(limit, total) of them. */
  ghost predicate IsListing(b: Board, views: seq<JobView>, limit: int, includeDetails: bool)
  {
    |views| == Min(if limit <= 0 then 50 else limit, |b.order|) && ShowsBack(b, views, includeDetails)
  }

  class JobManager {
    var jobs: JobBoard.Jobs
    var order: seq<string>
    var counter: nat

    function View(): Board
      reads this
    {
      Board(jobs, order)
    }

    constructor ()
      ensures View() == Board(map[], []) && counter == 0
    {
      jobs, order, counter := map[], [], 0;
    }

    /** Pre-increments the 64-bit counter. */
    method NextJobId() returns (id: string)
      modifies this`counter
      ensures counter == (old(counter) + 1) % TWO_TO_64
      ensures id == JobId(counter)
    {
      counter := (counter + 1) % TWO_TO_64;
      id := JobId(counter);
    }

    /** Records a queued job and evicts. */
    method CreateQueuedRecord(id: string, tool: string, args: Json, target: string, timeoutMs: int,
                              now: int, logTime: int)
      requires Consistent(View()) && id !in jobs
      modifies this`jobs, this`order
      ensures View() == Inserted(old(View()), NewRecord(id, tool, args, target, timeoutMs, now, logTime))
      ensures Consistent(View()) && id in jobs
      ensures jobs[id] == JobRecord(id, tool, target, Queued, args, Null, Null,
                                    [LogEntry(0, LogBody(logTime, "info", Queued, "queued", Obj([])))],
                                    now, now, 0, timeoutMs, false)
    {
      var job := JobRecord(id, tool, target, Queued, args, Null, Null, [], now, now, 0, timeoutMs, false);
      job := WithLog(job, "info", "queued", EMPTY_DATA, logTime);
      InsertKeepsBoard(View(), job);
      ghost var larger := Board(jobs[id := job], order + [id]);
      assert NoDuplicates(larger.order) by { NewIdIsNoDuplicate(order, id, jobs.Keys); }
      jobs := jobs[id := job];
      order := order + [id];
      Trim();
    }

    /** Eviction: pops terminal jobs off the front while more than 200 are queued; a live one is
        put back at the end and stops the loop. */
    method Trim()
      requires NoDuplicates(order)
      modifies this`jobs, this`order
      ensures View() == Trimmed(old(View()))
    {
      ghost var b, popped := View(), 0;
      ghost var k := TerminalPrefix(order, jobs);
      while |order| > MAX_JOBS
        invariant 0 <= popped <= k && popped + |order| == |b.order|
        invariant |b.order| > MAX_JOBS ==> |order| >= MAX_JOBS
        invariant |b.order| <= MAX_JOBS ==> popped == 0
        invariant order == b.order[popped..] && jobs == Evict(b.jobs, b.order[..popped])
        decreases |order|
      {
        var oldest := order[0];
        PopStep(b, popped);
        order := order[1..];
        if oldest in jobs && IsTerminal(jobs[oldest].state) {
          jobs := jobs - {oldest};
          popped := popped + 1;
        } else {
          order := order + [oldest];
          break;
        }
      }
    }

    method WithLog(job: JobRecord, level: string, message: string, data: Json, time: int)
      returns (r: JobRecord)
      ensures r == AddLog(job, level, message, data, time)
    {
      var logs := Append(job.logs, LogBody(time, level, job.state, message, data));
      r := job.(logs := logs);
    }

    /** The worker's state change: silent when the job is gone, and unguarded otherwise. */
    method SetState(id: string, state: JobState, message: string, data: Json, now: int, logTime: int)
      modifies this`jobs
      ensures jobs == if id in old(jobs)
                      then old(jobs)[id := WithState(old(jobs)[id], state, message, data, now, logTime)]
                      else old(jobs)
      ensures id in old(jobs) ==>
                jobs[id] == old(jobs)[id].(state := state, updatedAtMs := now, logs :=
                              Appended(old(jobs)[id].logs, LogBody(logTime, "info", state, message, data)))
    {
      if id !in jobs {
        return;
      }
      var job := jobs[id].(state := state, updatedAtMs := now);
      job := WithLog(job, "info", message, data, logTime);
      jobs := jobs[id := job];
    }

    /** The worker's last section, for a remote or a local job. */
    method Finish(id: string, remote: bool, outcome: ToolResult, now: int, logTime: int)
      modifies this`jobs
      ensures jobs == if id in old(jobs)
                      then old(jobs)[id := Settled(old(jobs)[id], remote, outcome, now, logTime)]
                      else old(jobs)
      ensures id in old(jobs) ==> EndsWith(old(jobs)[id], jobs[id], remote, outcome, now, logTime)
    {
      if id !in jobs {
        return;
      }
      var job := jobs[id].(updatedAtMs := now, completedAtMs := now);
      match outcome {
        case Ok(value) =>
          job := job.(state := Completed, result := value);
          job := WithLog(job, "info", "completed", EMPTY_DATA, logTime);
        case Err(e) =>
          job := job.(error := ErrorToJson(e));
          if remote && e.code == EDITOR_NOT_CONNECTED && Contains(e.message, "disconnected") {
            job := job.(state := EditorCrashed);
          } else {
            job := job.(state := Failed);
          }
          job := WithLog(job, "error", if e.message == "" then "failed" else e.message, job.error, logTime);
      }
      SettledEnds(jobs[id], remote, outcome, now, logTime);
      jobs := jobs[id := job];
    }

    method Cancel(id: string, now: int, logTime: int) returns (r: Option<JobView>)
      modifies this`jobs
      ensures id !in old(jobs) ==> r == None && jobs == old(jobs)
      ensures id in old(jobs) ==>
                && jobs == old(jobs)[id := Cancelled(old(jobs)[id], now, logTime)]
                && r.Some? && Shows(r.value, jobs[id], true)
      ensures id in old(jobs) ==>
                var was := old(jobs)[id];
                var state := if IsTerminal(was.state) then was.state else CancelRequested;
                jobs[id] == was.(cancelRequested := true, updatedAtMs := now, state := state, logs :=
                              Appended(was.logs, LogBody(logTime, "warn", state, CANCEL_MESSAGE, Obj([]))))
    {
      if id !in jobs {
        return None;
      }
      var job := jobs[id].(cancelRequested := true);
      if !IsTerminal(job.state) {
        job := job.(state := CancelRequested);
      }
      job := job.(updatedAtMs := now);
      job := WithLog(job, "warn", CANCEL_MESSAGE, EMPTY_DATA, logTime);
      jobs := jobs[id := job];
      r := Some(ViewOf(job, true));
    }

    /** The view of a known job: its result and error are shown only when asked for and written. */
    method Snapshot(id: string, includeResult: bool) returns (r: Option<JobView>)
      ensures r.Some? <==> id in jobs
      ensures r.Some? ==> Shows(r.value, jobs[id], includeResult)
    {
      r := if id in jobs then Some(ViewOf(jobs[id], includeResult)) else None;
    }

    /** The latest entries of the queue, last first: exactly min(limit, total) jobs. */
    method List(limit: int, includeDetails: bool) returns (views: seq<JobView>, total: nat)
      requires Consistent(View())
      ensures total == |jobs| == |order|
      ensures IsListing(View(), views, limit, includeDetails)
    {
      SizesAgree(order);
      var most := if limit <= 0 then 50 else limit;
      views := [];
      var i := |order|;
      while i > 0 && |views| < most
        invariant 0 <= i <= |order| && |views| == |order| - i && |views| <= most
        invariant ShowsBack(View(), views, includeDetails)
      {
        i := i - 1;
        assert order[i] in Elements(order);
        if order[i] in jobs {
          OneMoreShows(View(), views, order[i], includeDetails);
          views := views + [ViewOf(jobs[order[i]], includeDetails)];
        }
      }
      total := |jobs|;
    }

    method Logs(id: string, cursor: int, limit: int) returns (r: Option<Page>)
      ensures r.Some? <==> id in jobs
      ensures r.Some? ==> r.value == RequestedPage(jobs[id].logs, cursor, limit)
      ensures r.Some? ==> IsPageFor(r.value, jobs[id].logs, cursor, limit)
    {
      if id !in jobs {
        return None;
      }
      var page := ReadPage(jobs[id].logs, if cursor < 0 then 0 else cursor, if limit < 1 then 1 else limit);
      RequestedPageIsFor(jobs[id].logs, cursor, limit);
      r := Some(page);
    }
  }

  // ---- Waiting ----

  /** How a wait ends: the job was unknown, it was gone when the waiter read it for the last time,
      which throws, or it is reported. */
  datatype Waited =
    | NotFound
    | Threw
    | Reported(view: JobView, timedOut: bool)

  /** The table as the waiter enters, and as it leaves its loop. */
  function WaitResult(entry: Board, exit: Board, id: string): Waited
  {
    if id !in entry.jobs then NotFound
    else if id !in exit.jobs then Threw
    else Reported(ViewOf(exit.jobs[id], true), !IsTerminal(exit.jobs[id].state))
  }

  /** The table as a waking waiter finds it, and whether its deadline is what woke it. */
  datatype Wake = Wake(board: Board, deadline: bool)

  predicate IsLive(b: Board, id: string)
  {
    id in b.jobs && !IsTerminal(b.jobs[id].state)
  }

  /** The wait loop: it ends at the first wake-up that finds the job no longer live or the
      deadline passed, which comes sooner or later, and reports a time-out only at the latter. */
  method Wait(entry: Board, wakes: seq<Wake>, id: string) returns (r: Waited, woken: nat)
    requires wakes != [] && wakes[|wakes| - 1].deadline
    ensures woken <= |wakes|
    ensures r == WaitResult(entry, if woken == 0 then entry else wakes[woken - 1].board, id)
    ensures woken == 0 <==> !IsLive(entry, id)
    ensures forall i | 0 <= i < woken :: (!wakes[i].deadline && IsLive(wakes[i].board, id)) <==> i < woken - 1
    ensures r.Reported? && r.timedOut ==> woken > 0 && wakes[woken - 1].deadline
    ensures var exit := if woken == 0 then entry else wakes[woken - 1].board;
            && (r == NotFound <==> id !in entry.jobs)
            && (r.Reported? ==> id in exit.jobs && Shows(r.view, exit.jobs[id], true))
            && (r.Reported? ==> (r.timedOut <==> IsLive(exit, id)))
  {
    woken := 0;
    if id !in entry.jobs {
      return NotFound, woken;
    }
    var board := entry;
    while id in board.jobs && !IsTerminal(board.jobs[id].state)
      invariant woken < |wakes|
      invariant board == if woken == 0 then entry else wakes[woken - 1].board
      invariant forall i | 0 <= i < woken - 1 :: !wakes[i].deadline && IsLive(wakes[i].board, id)
      invariant woken > 0 ==> IsLive(entry, id) && !wakes[woken - 1].deadline
      decreases |wakes| - woken
    {
      board := wakes[woken].board;
      woken := woken + 1;
      if wakes[woken - 1].deadline {
        break;
      }
    }
    if id !in board.jobs {
      return Threw, woken;
    }
    return Reported(ViewOf(board.jobs[id], true), !IsTerminal(board.jobs[id].state)), woken;
  }

  lemma NewIdIsNoDuplicate(order: seq<string>, id: string, known: set<string>)
    requires NoDuplicates(order) && Elements(order) == known && id !in known
    ensures NoDuplicates(order + [id])
  {
    assert forall i | 0 <= i < |order| :: order[i] in Elements(order);
  }

  /** The front of the queue after some pops is terminal in what is left of the table exactly
      when it was in the whole table. */
  lemma PopStep(b: Board, popped: nat)
    requires NoDuplicates(b.order) && popped < |b.order|
    requires popped <= TerminalPrefix(b.order, b.jobs)
    ensures var jobs := Evict(b.jobs, b.order[..popped]);
            && (TerminalIn(jobs, b.order[popped]) <==> TerminalIn(b.jobs, b.order[popped]))
            && (TerminalIn(jobs, b.order[popped]) <==> popped < TerminalPrefix(b.order, b.jobs))
            && jobs - {b.order[popped]} == Evict(b.jobs, b.order[..popped + 1])
            && b.order[popped..][0] == b.order[popped] && b.order[popped..][1..] == b.order[popped + 1..]
  {
    assert b.order[popped] !in Elements(b.order[..popped]);
    assert Elements(b.order[..popped + 1]) == Elements(b.order[..popped]) + {b.order[popped]};
  }
}
