/** The job table and its creation-ordered queue: the locked sections of the job manager as
    functions, and eviction in closed form. */
module JobBoard {
  import opened JobLog
  import opened JsonValues
  import opened Results
  import opened Rpc

  datatype JobRecord = JobRecord(
    id: string,
    tool: string,
    targetEditor: string,
    state: JobState,
    args: Json,
    result: Json,
    error: Json,
    logs: seq<LogEntry>,
    createdAtMs: int,
    updatedAtMs: int,
    completedAtMs: int,
    timeoutMs: int,
    cancelRequested: bool)

  type Jobs = map<string, JobRecord>

  datatype Board = Board(jobs: Jobs, order: seq<string>)

  const MAX_JOBS := 200

  const EMPTY_DATA := Obj([])

  predicate IsTerminal(state: JobState)
  {
    state.Completed? || state.Failed? || state.EditorCrashed?
  }

  // ---- The invariant of the board ----

  ghost predicate NoDuplicates(order: seq<string>)
  {
    forall i, j :: 0 <= i < j < |order| ==> order[i] != order[j]
  }

  ghost function Elements(order: seq<string>): set<string>
  {
    set id | id in order
  }

  /** The queue has no duplicates and its elements are exactly the ids in the table. */
  ghost predicate Consistent(b: Board)
  {
    NoDuplicates(b.order) && Elements(b.order) == b.jobs.Keys
  }

  // ---- Records ----

  function AddLog(job: JobRecord, level: string, message: string, data: Json, time: int): JobRecord
  {
    job.(logs := Appended(job.logs, LogBody(time, level, job.state, message, data)))
  }

  function NewRecord(id: string, tool: string, args: Json, target: string, timeoutMs: int,
                     now: int, logTime: int): JobRecord
  {
    AddLog(JobRecord(id, tool, target, Queued, args, Null, Null, [], now, now, 0, timeoutMs, false),
           "info", "queued", EMPTY_DATA, logTime)
  }

  function WithState(job: JobRecord, state: JobState, message: string, data: Json, now: int, logTime: int): JobRecord
  {
    AddLog(job.(state := state, updatedAtMs := now), "info", message, data, logTime)
  }

  const CANCEL_MESSAGE :=
    "cancel requested; Unreal operations are best-effort and may continue until the editor tool returns"

  function Cancelled(job: JobRecord, now: int, logTime: int): JobRecord
  {
    AddLog(job.(cancelRequested := true, updatedAtMs := now,
                state := if IsTerminal(job.state) then job.state else CancelRequested),
           "warn", CANCEL_MESSAGE, EMPTY_DATA, logTime)
  }

  predicate OccursAt(text: string, part: string, i: nat)
  {
    i + |part| <= |text| && text[i..i + |part|] == part
  }

  predicate Contains(text: string, part: string)
  {
    exists i: nat | 0 <= i <= |text| :: OccursAt(text, part, i)
  }

  /** The text has the other one in it somewhere. */
  ghost predicate Has(text: string, part: string)
  {
    exists before, after :: text == before + part + after
  }

  lemma ContainsMiddle(before: string, part: string, after: string)
    ensures Contains(before + part + after, part)
  {
    var text := before + part + after;
    assert text[|before|..|before| + |part|] == part;
    assert OccursAt(text, part, |before|);
  }

  lemma ContainsIffHas(text: string, part: string)
    ensures Contains(text, part) <==> Has(text, part)
  {
    if Contains(text, part) {
      var i: nat :| 0 <= i <= |text| && OccursAt(text, part, i);
      assert text == text[..i] + part + text[i + |part|..];
    }
    if Has(text, part) {
      var before, after :| text == before + part + after;
      ContainsMiddle(before, part, after);
    }
  }

  /** The state in which an error leaves a job: a remote job whose editor went away counts as
      crashed, told apart by the error's code and text. */
  function FailureState(remote: bool, e: ErrorObject): JobState
  {
    if remote && e.code == EDITOR_NOT_CONNECTED && Contains(e.message, "disconnected") then EditorCrashed
    else Failed
  }

  function Settled(job: JobRecord, remote: bool, outcome: ToolResult, now: int, logTime: int): JobRecord
  {
    var timed := job.(updatedAtMs := now, completedAtMs := now);
    match outcome
    case Ok(value) =>
      AddLog(timed.(state := Completed, result := value), "info", "completed", EMPTY_DATA, logTime)
    case Err(e) =>
      AddLog(timed.(state := FailureState(remote, e), error := ErrorToJson(e)),
             "error", if e.message == "" then "failed" else e.message, ErrorToJson(e), logTime)
  }

  /** The record after the worker's last section: a success leaves its result, a failure its error
      object, and a crash is told from other failures by the error's code and text. The new log entry
      tells the new state. */
  ghost predicate EndsWith(before: JobRecord, after: JobRecord, remote: bool, outcome: ToolResult,
                           now: int, logTime: int)
  {
    match outcome
    case Ok(value) =>
      after == before.(state := Completed, result := value, updatedAtMs := now, completedAtMs := now,
                       logs := Appended(before.logs, LogBody(logTime, "info", Completed, "completed", Obj([]))))
    case Err(e) =>
      && IsErrorObject(after.error, e)
      && after.state ==
           (if remote && e.code == -32001 && Has(e.message, "disconnected") then EditorCrashed else Failed)
      && var text := if e.message == "" then "failed" else e.message;
         after == before.(state := after.state, error := after.error, updatedAtMs := now, completedAtMs := now,
                          logs := Appended(before.logs, LogBody(logTime, "error", after.state, text, after.error)))
  }

  lemma SettledEnds(job: JobRecord, remote: bool, outcome: ToolResult, now: int, logTime: int)
    ensures EndsWith(job, Settled(job, remote, outcome, now, logTime), remote, outcome, now, logTime)
  {
    if outcome.Err? {
      ErrorMembers(outcome.error);
      ContainsIffHas(outcome.error.message, "disconnected");
    }
  }

  // ---- Eviction ----

  predicate TerminalIn(jobs: Jobs, id: string)
  {
    id in jobs && IsTerminal(jobs[id].state)
  }

  /** The length of the longest prefix of the queue whose jobs are all terminal. */
  function TerminalPrefix(order: seq<string>, jobs: Jobs): (k: nat)
    ensures k <= |order|
    ensures forall i | 0 <= i < k :: TerminalIn(jobs, order[i])
    ensures k < |order| ==> !TerminalIn(jobs, order[k])
  {
    if order == [] || !TerminalIn(jobs, order[0]) then 0
    else 1 + TerminalPrefix(order[1..], jobs)
  }

  ghost function Evict(jobs: Jobs, ids: seq<string>): Jobs
  {
    jobs - Elements(ids)
  }

  /** The board without the first `cut` jobs of the queue. */
  ghost function DropFront(b: Board, cut: nat): Board
    requires cut <= |b.order|
  {
    Board(Evict(b.jobs, b.order[..cut]), b.order[cut..])
  }

  ghost function FrontToBack(b: Board): Board
    requires b.order != []
  {
    Board(b.jobs, b.order[1..] + [b.order[0]])
  }

  /** Eviction in closed form: terminal jobs go from the front until 200 are left; a live job in
      the way moves to the back and ends it. */
  ghost function Trimmed(b: Board): Board
  {
    var n, k := |b.order|, TerminalPrefix(b.order, b.jobs);
    if n <= MAX_JOBS then b
    else if k >= n - MAX_JOBS then DropFront(b, n - MAX_JOBS)
    else FrontToBack(DropFront(b, k))
  }

  ghost function Inserted(b: Board, job: JobRecord): Board
  {
    Trimmed(Board(b.jobs[job.id := job], b.order + [job.id]))
  }

  lemma MemberAt(order: seq<string>, id: string) returns (i: nat)
    requires id in Elements(order)
    ensures i < |order| && order[i] == id
  {
    i :| 0 <= i < |order| && order[i] == id;
  }

  /** Board `t` is consistent and holds part of `b`'s jobs, as they were; those missing are
      terminal. */
  ghost predicate IsPruned(b: Board, t: Board)
  {
    && Consistent(t)
    && t.jobs.Keys <= b.jobs.Keys
    && (forall id | id in t.jobs :: t.jobs[id] == b.jobs[id])
    && (forall id | id in b.jobs && id !in t.jobs :: IsTerminal(b.jobs[id].state))
  }

  lemma DropKeepsBoard(b: Board, cut: nat)
    requires Consistent(b) && cut <= TerminalPrefix(b.order, b.jobs)
    ensures IsPruned(b, DropFront(b, cut))
  {
    EvictPrefix(b, cut);
    EvictedAreTerminal(b, cut);
  }

  lemma RotationKeepsBoard(b: Board, t: Board)
    requires IsPruned(b, t) && t.order != []
    ensures IsPruned(b, FrontToBack(t))
  {
    Rotated(t.order);
  }

  /** How eviction comes about: not at all, by dropping terminal jobs, or by a rotation after it. */
  lemma TrimmedCases(b: Board, k: nat)
    requires k == TerminalPrefix(b.order, b.jobs)
    ensures |b.order| <= MAX_JOBS ==> Trimmed(b) == b
    ensures |b.order| > MAX_JOBS && k >= |b.order| - MAX_JOBS ==> Trimmed(b) == DropFront(b, |b.order| - MAX_JOBS)
    ensures |b.order| > MAX_JOBS && k < |b.order| - MAX_JOBS ==> Trimmed(b) == FrontToBack(DropFront(b, k))
  {
  }

  /** Eviction keeps the board consistent, removes only terminal jobs, and leaves every job it
      keeps as it was. */
  lemma TrimKeepsBoard(b: Board)
    requires Consistent(b)
    ensures IsPruned(b, Trimmed(b))
  {
    var k := TerminalPrefix(b.order, b.jobs);
    TrimmedCases(b, k);
    var cut := if |b.order| <= MAX_JOBS then 0 else if k >= |b.order| - MAX_JOBS then |b.order| - MAX_JOBS else k;
    var dropped := DropFront(b, cut);
    DropKeepsBoard(b, cut);
    TrimmedIsPruned(b, dropped, Trimmed(b));
  }

  lemma TrimmedIsPruned(b: Board, dropped: Board, t: Board)
    requires Consistent(b) && IsPruned(b, dropped)
    requires t == b || t == dropped || (dropped.order != [] && t == FrontToBack(dropped))
    ensures IsPruned(b, t)
  {
    if dropped.order != [] {
      RotationKeepsBoard(b, dropped);
    }
  }

  lemma EvictPrefix(b: Board, cut: nat)
    requires Consistent(b) && cut <= |b.order|
    ensures Consistent(DropFront(b, cut))
  {
    assert b.order == b.order[..cut] + b.order[cut..];
    assert forall id | id in b.order[cut..] :: id !in b.order[..cut];
    assert Elements(b.order) == Elements(b.order[..cut]) + Elements(b.order[cut..]);
  }

  lemma EvictedAreTerminal(b: Board, cut: nat)
    requires cut <= TerminalPrefix(b.order, b.jobs)
    ensures forall id | id in b.jobs && id !in Evict(b.jobs, b.order[..cut]) :: IsTerminal(b.jobs[id].state)
  {
    forall id | id in b.jobs && id !in Evict(b.jobs, b.order[..cut]) ensures IsTerminal(b.jobs[id].state) {
      var i := MemberAt(b.order[..cut], id);
      assert TerminalIn(b.jobs, b.order[i]);
    }
  }

  lemma Rotated(order: seq<string>)
    requires order != [] && NoDuplicates(order)
    ensures NoDuplicates(order[1..] + [order[0]])
    ensures Elements(order[1..] + [order[0]]) == Elements(order)
  {
    assert order == [order[0]] + order[1..];
  }

  /** The new job always survives its own insertion. */
  lemma InsertKeepsBoard(b: Board, job: JobRecord)
    requires Consistent(b) && job.id !in b.jobs && !IsTerminal(job.state)
    ensures var t := Inserted(b, job);
            && Consistent(t)
            && job.id in t.jobs && t.jobs[job.id] == job
            && t.jobs.Keys <= b.jobs.Keys + {job.id}
            && (forall id | id in t.jobs && id != job.id :: t.jobs[id] == b.jobs[id])
            && (forall id | id in b.jobs && id !in t.jobs :: IsTerminal(b.jobs[id].state))
  {
    var larger := Board(b.jobs[job.id := job], b.order + [job.id]);
    assert Elements(larger.order) == Elements(b.order) + {job.id};
    assert job.id !in Elements(b.order);
    assert job.id !in b.order;
    TrimKeepsBoard(larger);
  }

  /** The first `k` jobs of the queue are all the terminal ones at its front. */
  predicate IsTerminalFront(b: Board, k: nat)
  {
    && k <= |b.order|
    && (forall i | 0 <= i < k :: TerminalIn(b.jobs, b.order[i]))
    && (k < |b.order| ==> !TerminalIn(b.jobs, b.order[k]))
  }

  lemma FrontIsPrefix(b: Board, k: nat)
    requires IsTerminalFront(b, k)
    ensures k == TerminalPrefix(b.order, b.jobs)
  {
    PrefixIsLongest(b.order, b.jobs, k);
  }

  lemma {:induction false} PrefixIsLongest(order: seq<string>, jobs: Jobs, k: nat)
    requires k <= |order| && forall i | 0 <= i < k :: TerminalIn(jobs, order[i])
    ensures k <= TerminalPrefix(order, jobs)
  {
    if k > 0 {
      forall i | 0 <= i < k - 1 ensures TerminalIn(jobs, order[1..][i]) {
        assert order[1..][i] == order[i + 1];
      }
      PrefixIsLongest(order[1..], jobs, k - 1);
    }
  }

  /** What eviction leaves: up to 200 jobs all of them; of more, terminal ones go from the front until
      200 are left, unless a live one is met on the way, which moves to the back and ends it. The
      jobs left are as they were. */
  lemma EvictionIsExact(b: Board, k: nat)
    requires Consistent(b) && IsTerminalFront(b, k)
    ensures Trimmed(b).order ==
              if |b.order| <= 200 then b.order
              else if k >= |b.order| - 200 then b.order[|b.order| - 200..]
              else b.order[k + 1..] + [b.order[k]]
    ensures Trimmed(b).jobs.Keys == Elements(Trimmed(b).order)
    ensures forall id | id in Trimmed(b).jobs :: id in b.jobs && Trimmed(b).jobs[id] == b.jobs[id]
  {
    FrontIsPrefix(b, k);
    TrimmedCases(b, k);
    TrimKeepsBoard(b);
  }

  lemma {:induction false} SizesAgree(order: seq<string>)
    requires NoDuplicates(order)
    ensures |Elements(order)| == |order|
  {
    if order == [] {
      assert Elements(order) == {};
    } else {
      SizesAgree(order[1..]);
      assert Elements(order) == {order[0]} + Elements(order[1..]);
      assert order[0] !in Elements(order[1..]);
    }
  }

  // ---- Views ----

  /** What the tools report of a job. */
  datatype JobView = JobView(
    job: JobRecord,
    terminal: bool,
    completedAtMs: Option<int>,
    targetEditor: Option<string>,
    logCount: nat,
    lastLog: Option<LogEntry>,
    result: Option<Json>,
    error: Option<Json>)

  /** A view tells a job's record, whether it is terminal, its latest log entry, and, when details are
      asked for, the result or error that was written. */
  ghost predicate Shows(v: JobView, job: JobRecord, includeResult: bool)
  {
    && v.job == job
    && (v.terminal <==> job.state == Completed || job.state == Failed || job.state == EditorCrashed)
    && IsUnless(v.completedAtMs, job.completedAtMs, 0) && IsUnless(v.targetEditor, job.targetEditor, "")
    && v.logCount == |job.logs|
    && (if job.logs == [] then v.lastLog.None? else v.lastLog == Some(job.logs[|job.logs| - 1]))
    && IsUnless(v.result, if includeResult then job.result else Null, Null)
    && IsUnless(v.error, if includeResult then job.error else Null, Null)
  }

  /** The value, or nothing when it is the one that stands for none. */
  predicate IsUnless<T(==)>(shown: Option<T>, value: T, none: T)
  {
    (shown.None? <==> value == none) && (shown.Some? ==> shown.value == value)
  }

  function ViewOf(job: JobRecord, includeResult: bool): JobView
  {
    JobView(job, IsTerminal(job.state),
            if job.completedAtMs == 0 then None else Some(job.completedAtMs),
            if job.targetEditor == "" then None else Some(job.targetEditor),
            |job.logs|,
            if job.logs == [] then None else Some(job.logs[|job.logs| - 1]),
            if includeResult && job.result != Null then Some(job.result) else None,
            if includeResult && job.error != Null then Some(job.error) else None)
  }
  lemma ViewShows(job: JobRecord, includeResult: bool)
    ensures Shows(ViewOf(job, includeResult), job, includeResult)
  {
  }
}
