/** The job engine as a transition system: starters, one worker per job and cancellers
    interleave at the locked sections. */
module JobMachine {
  import opened Encodings
  import opened JobBoard
  import opened JobLog
  import opened Jobs
  import opened JsonValues
  import opened Results
  import opened Rpc

  /** Where a job's worker stands. Lost is the early return of a worker that does not find its
      job. */
  datatype Pc =
    | Spawned
    | Loaded
    | SetDispatched
    | SetRunning
    | SetWaiting
    | Done
    | Lost

  datatype Worker = Worker(remote: bool, tool: string, target: string, pc: Pc, outcome: Option<ToolResult>)

  /** `issued` counts the ids drawn, `reserved` are drawn but not yet in the table, `created` lists
      all jobs in the order in which they entered the table, and `history` keeps every log entry a
      job ever got. */
  datatype State = State(
    board: Board,
    counter: nat,
    issued: nat,
    reserved: set<string>,
    created: seq<string>,
    workers: map<string, Worker>,
    history: map<string, seq<LogBody>>)

  /** Times are arbitrary positive numbers: the clock need not be monotone. */
  datatype Step =
    | Reserve
    | Create(id: string, remote: bool, tool: string, args: Json, target: string, timeoutMs: int, now: int, logTime: int)
    | Load(id: string)
    | Report(id: string, now: int, logTime: int)
    | Settle(id: string, outcome: ToolResult, now: int, logTime: int)
    | Cancel(id: string, now: int, logTime: int)

  const START := State(Board(map[], []), 0, 0, {}, [], map[], map[])

  function ApplyReserve(s: State): State
  {
    var n := (s.counter + 1) % TWO_TO_64;
    s.(counter := n, issued := s.issued + 1, reserved := s.reserved + {JobId(n)})
  }

  ghost function ApplyCreate(s: State, step: Step): State
    requires step.Create?
  {
    if step.id in s.reserved && step.now > 0 then
      var job := NewRecord(step.id, step.tool, step.args, step.target, step.timeoutMs, step.now, step.logTime);
      s.(board := Inserted(s.board, job),
         reserved := s.reserved - {step.id},
         created := s.created + [step.id],
         workers := s.workers[step.id := Worker(step.remote, step.tool, step.target, Spawned, None)],
         history := s.history[step.id := [job.logs[0].body]])
    else s
  }

  function Goto(s: State, id: string, pc: Pc): State
    requires id in s.workers
  {
    s.(workers := s.workers[id := s.workers[id].(pc := pc)])
  }

  function ApplyLoad(s: State, id: string): State
  {
    if id in s.workers && s.workers[id].pc == Spawned then
      Goto(s, id, if id in s.board.jobs then Loaded else Lost)
    else s
  }

  /** A job's record is replaced by one with one more log entry. */
  function Record(s: State, id: string, job: JobRecord, body: LogBody): State
  {
    s.(board := s.board.(jobs := s.board.jobs[id := job]),
       history := s.history[id := (if id in s.history then s.history[id] else []) + [body]])
  }

  function DispatchData(w: Worker): Json
  {
    Obj([Field("target_editor", Str(if w.target == "" then "<active>" else w.target)), Field("tool", Str(w.tool))])
  }

  /** The next state a worker announces, its log line, and where the worker goes. */
  function NextReport(w: Worker): Option<(JobState, string, Json, Pc)>
  {
    match w.pc
    case Loaded =>
      if w.remote then
        Some((Dispatched, "dispatching remote tool to editor", DispatchData(w), SetDispatched))
      else Some((Running, "local tool job is running", EMPTY_DATA, SetRunning))
    case SetDispatched => Some((Running, "remote tool call is running", EMPTY_DATA, SetRunning))
    case SetRunning =>
      if w.remote then Some((WaitingEditor, "waiting for editor tool result", EMPTY_DATA, SetWaiting)) else None
    case _ => None
  }

  /** setState: when the job is missing nothing is recorded and the worker goes on. */
  function ApplyReport(s: State, id: string, now: int, logTime: int): State
  {
    if id !in s.workers || now <= 0 then s
    else
      match NextReport(s.workers[id])
      case None => s
      case Some((state, message, data, pc)) =>
        var moved := Goto(s, id, pc);
        if id !in s.board.jobs then moved
        else Record(moved, id, WithState(s.board.jobs[id], state, message, data, now, logTime),
                    LogBody(logTime, "info", state, message, data))
  }

  predicate ReadyToSettle(w: Worker)
  {
    if w.remote then w.pc == SetWaiting else w.pc == SetRunning
  }

  function SettleBody(remote: bool, outcome: ToolResult, logTime: int): LogBody
  {
    match outcome
    case Ok(_) => LogBody(logTime, "info", Completed, "completed", EMPTY_DATA)
    case Err(e) =>
      LogBody(logTime, "error", FailureState(remote, e),
              if e.message == "" then "failed" else e.message, ErrorToJson(e))
  }

  function ApplySettle(s: State, id: string, outcome: ToolResult, now: int, logTime: int): State
  {
    if id in s.workers && ReadyToSettle(s.workers[id]) && now > 0 then
      if id !in s.board.jobs then Goto(s, id, Lost)
      else
        var w := s.workers[id];
        Record(s.(workers := s.workers[id := w.(pc := Done, outcome := Some(outcome))]), id,
               Settled(s.board.jobs[id], w.remote, outcome, now, logTime),
               SettleBody(w.remote, outcome, logTime))
    else s
  }

  function ApplyCancel(s: State, id: string, now: int, logTime: int): State
  {
    if id in s.board.jobs && now > 0 then
      var job := Cancelled(s.board.jobs[id], now, logTime);
      Record(s, id, job, LogBody(logTime, "warn", job.state, CANCEL_MESSAGE, EMPTY_DATA))
    else s
  }

  /** The state after a step; a step that is not enabled changes nothing. */
  ghost function Apply(s: State, step: Step): State
  {
    match step
    case Reserve => ApplyReserve(s)
    case Create(_, _, _, _, _, _, _, _) => ApplyCreate(s, step)
    case Load(id) => ApplyLoad(s, id)
    case Report(id, now, logTime) => ApplyReport(s, id, now, logTime)
    case Settle(id, outcome, now, logTime) => ApplySettle(s, id, outcome, now, logTime)
    case Cancel(id, now, logTime) => ApplyCancel(s, id, now, logTime)
  }

  ghost function ExecFrom(s: State, steps: seq<Step>): State
  {
    if steps == [] then s
    else Apply(ExecFrom(s, steps[..|steps| - 1]), steps[|steps| - 1])
  }

  ghost function Exec(steps: seq<Step>): State
  {
    ExecFrom(START, steps)
  }

  lemma {:induction false} ExecFromAppend(s: State, first: seq<Step>, second: seq<Step>)
    ensures ExecFrom(s, first + second) == ExecFrom(ExecFrom(s, first), second)
  {
    if second == [] {
      assert first + second == first;
    } else {
      var init, last := second[..|second| - 1], second[|second| - 1];
      ExecFromAppend(s, first, init);
      assert (first + second)[..|first + second| - 1] == first + init;
    }
  }

  // ---- Invariant ----

  ghost function IdsUpTo(n: nat): set<string>
  {
    set k | 1 <= k <= n :: JobId(k % TWO_TO_64)
  }

  /** Ids in use are among those drawn, and an id is reserved or has a worker, not both. */
  ghost predicate IdsAreCounted(s: State)
  {
    && s.counter == s.issued % TWO_TO_64
    && s.workers.Keys + s.reserved <= IdsUpTo(s.issued)
    && s.workers.Keys !! s.reserved
  }

  /** What the record of a settled job holds: the outcome it settled with, and nothing else. */
  ghost predicate HoldsOutcome(job: JobRecord, remote: bool, outcome: ToolResult)
  {
    && job.completedAtMs > 0
    && match outcome
       case Ok(value) => job.state == Completed && job.result == value && job.error == Null
       case Err(e) => job.state == FailureState(remote, e) && job.error == ErrorToJson(e) && job.result == Null
  }

  ghost predicate HoldsNothing(job: JobRecord)
  {
    job.result == Null && job.error == Null && job.completedAtMs == 0
  }

  /** A record belongs to a worker; it is terminal exactly when that worker is done, and then it
      holds the outcome. Its log is the end of its history. */
  ghost predicate JobIsSound(s: State, id: string)
    requires id in s.board.jobs
  {
    var job := s.board.jobs[id];
    && job.id == id && id in s.workers && id in s.history
    && (IsTerminal(job.state) <==> s.workers[id].pc == Done)
    && (IsTerminal(job.state) ==>
          s.workers[id].outcome.Some? && HoldsOutcome(job, s.workers[id].remote, s.workers[id].outcome.value))
    && (!IsTerminal(job.state) ==> HoldsNothing(job))
    && job.logs == LogView(s.history[id])
  }

  ghost predicate JobsAreSound(s: State)
  {
    forall id | id in s.board.jobs :: JobIsSound(s, id)
  }

  /** Every worker that is not done still has its record, and none is lost. */
  ghost predicate NoJobIsLost(s: State)
  {
    forall id | id in s.workers :: s.workers[id].pc != Lost && (s.workers[id].pc != Done ==> id in s.board.jobs)
  }

  ghost predicate Inv(s: State)
  {
    IdsAreCounted(s) && Consistent(s.board) && JobsAreSound(s) && NoJobIsLost(s)
  }
}
