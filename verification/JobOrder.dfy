/** Creation order: when the queue, and with it the listing, is in it, and when a job is evicted. */
module JobOrder {
  import opened Encodings
  import opened JobBoard
  import opened JobInvariant
  import opened JobMachine
  import opened Jobs
  import opened JsonValues
  import opened Results

  // ---- Order of creation ----

  ghost predicate Before(created: seq<string>, a: string, b: string)
  {
    exists p, q :: 0 <= p < q < |created| && created[p] == a && created[q] == b
  }

  ghost predicate InCreationOrder(order: seq<string>, created: seq<string>)
  {
    forall i, j | 0 <= i < j < |order| :: Before(created, order[i], order[j])
  }

  lemma BeforeIsAsymmetric(created: seq<string>, a: string, b: string)
    requires NoDuplicates(created) && Before(created, a, b)
    ensures !Before(created, b, a)
  {
  }

  lemma BeforeStays(created: seq<string>, id: string, a: string, b: string)
    requires Before(created, a, b)
    ensures Before(created + [id], a, b)
  {
    var p, q :| 0 <= p < q < |created| && created[p] == a && created[q] == b;
    var longer := created + [id];
    assert longer[p] == a && longer[q] == b;
  }

  lemma NewIsLast(created: seq<string>, id: string, a: string)
    requires a in created
    ensures Before(created + [id], a, id)
  {
    var p :| 0 <= p < |created| && created[p] == a;
    var longer := created + [id];
    assert longer[p] == a && longer[|created|] == id;
  }

  lemma AppendKeepsOrder(order: seq<string>, created: seq<string>, id: string)
    requires InCreationOrder(order, created)
    requires forall a | a in order :: a in created
    ensures InCreationOrder(order + [id], created + [id])
  {
    var longer := order + [id];
    forall i, j | 0 <= i < j < |longer| ensures Before(created + [id], longer[i], longer[j]) {
      if j < |order| {
        BeforeStays(created, id, order[i], order[j]);
      } else {
        NewIsLast(created, id, order[i]);
      }
    }
  }

  lemma SuffixKeepsOrder(order: seq<string>, created: seq<string>, cut: nat)
    requires cut <= |order| && InCreationOrder(order, created)
    ensures InCreationOrder(order[cut..], created)
  {
  }

  lemma RotationBreaksOrder(order: seq<string>, created: seq<string>)
    requires |order| > 1 && InCreationOrder(order, created) && NoDuplicates(created)
    ensures !InCreationOrder(order[1..] + [order[0]], created)
  {
    var rotated := order[1..] + [order[0]];
    assert rotated[0] == order[1] && rotated[|rotated| - 1] == order[0];
    BeforeIsAsymmetric(created, order[0], order[1]);
  }

  // ---- One insertion ----

  /** Eviction of this board meets a live job before 200 jobs are left. */
  predicate MeetsLiveJob(b: Board)
  {
    |b.order| > MAX_JOBS && TerminalPrefix(b.order, b.jobs) < |b.order| - MAX_JOBS
  }

  lemma TrimKeepsOrderIff(b: Board, created: seq<string>)
    requires InCreationOrder(b.order, created) && NoDuplicates(created)
    ensures InCreationOrder(Trimmed(b).order, created) <==> !MeetsLiveJob(b)
  {
    var n, k := |b.order|, TerminalPrefix(b.order, b.jobs);
    TrimmedCases(b, k);
    if n > MAX_JOBS {
      var cut := if k >= n - MAX_JOBS then n - MAX_JOBS else k;
      SuffixKeepsOrder(b.order, created, cut);
      if MeetsLiveJob(b) {
        RotationBreaksOrder(DropFront(b, k).order, created);
      }
    }
  }

  // ---- Runs ----

  ghost predicate IsOrdered(s: State)
  {
    InCreationOrder(s.board.order, s.created)
  }

  /** The step creates a job and its eviction meets a live one. */
  ghost predicate RotatesLiveJob(s: State, step: Step)
  {
    && step.Create? && step.id in s.reserved && step.now > 0
    && var job := NewRecord(step.id, step.tool, step.args, step.target, step.timeoutMs, step.now, step.logTime);
       MeetsLiveJob(Board(s.board.jobs[step.id := job], s.board.order + [step.id]))
  }

  /** Every job with a worker was created once. */
  ghost predicate CreatedIsSound(s: State)
  {
    NoDuplicates(s.created) && Elements(s.created) == s.workers.Keys
  }

  lemma NoReorder(s: State, step: Step)
    requires !step.Create?
    ensures Apply(s, step).board.order == s.board.order && Apply(s, step).created == s.created
    ensures Apply(s, step).workers.Keys == s.workers.Keys
    ensures Apply(s, step).board.jobs.Keys == s.board.jobs.Keys
  {
    match step
    case Report(id, now, logTime) => ReportKeepsKeys(s, id, now, logTime);
    case Settle(id, outcome, now, logTime) => SettleKeepsKeys(s, id, outcome, now, logTime);
    case _ =>
  }

  lemma ReportKeepsKeys(s: State, id: string, now: int, logTime: int)
    ensures var t := ApplyReport(s, id, now, logTime);
            && t.board.order == s.board.order && t.created == s.created
            && t.workers.Keys == s.workers.Keys && t.board.jobs.Keys == s.board.jobs.Keys
  {
  }

  lemma SettleKeepsKeys(s: State, id: string, outcome: Rpc.ToolResult, now: int, logTime: int)
    ensures var t := ApplySettle(s, id, outcome, now, logTime);
            && t.board.order == s.board.order && t.created == s.created
            && t.workers.Keys == s.workers.Keys && t.board.jobs.Keys == s.board.jobs.Keys
  {
  }

  lemma NewCreated(created: seq<string>, known: set<string>, id: string)
    requires NoDuplicates(created) && Elements(created) == known && id !in known
    ensures NoDuplicates(created + [id]) && Elements(created + [id]) == known + {id}
  {
    NewIdIsNoDuplicate(created, id, known);
  }

  lemma CreatedOneStep(s: State, step: Step)
    requires CreatedIsSound(s) && s.workers.Keys !! s.reserved
    ensures CreatedIsSound(Apply(s, step))
  {
    if !step.Create? {
      NoReorder(s, step);
    } else if step.id in s.reserved && step.now > 0 {
      NewCreated(s.created, s.workers.Keys, step.id);
    }
  }

  lemma {:induction false} CreatedAlways(steps: seq<Step>)
    requires Exec(steps).issued <= TWO_TO_64
    ensures CreatedIsSound(Exec(steps))
  {
    if steps != [] {
      var init, last := steps[..|steps| - 1], steps[|steps| - 1];
      IssuedStep(Exec(init), last);
      CreatedAlways(init);
      InvAlways(init);
      CreatedOneStep(Exec(init), last);
    }
  }

  /** From a state in order, a step leaves the queue in order if and only if it does not rotate a
      live job. */
  lemma StepKeepsOrderIff(s: State, step: Step)
    requires Inv(s) && CreatedIsSound(s) && IsOrdered(s)
    ensures IsOrdered(Apply(s, step)) <==> !RotatesLiveJob(s, step)
  {
    if !step.Create? {
      NoReorder(s, step);
    } else if step.id in s.reserved && step.now > 0 {
      var job := NewRecord(step.id, step.tool, step.args, step.target, step.timeoutMs, step.now, step.logTime);
      var larger := Board(s.board.jobs[step.id := job], s.board.order + [step.id]);
      QueueWasCreated(s);
      AppendKeepsOrder(s.board.order, s.created, step.id);
      NewCreated(s.created, s.workers.Keys, step.id);
      TrimKeepsOrderIff(larger, s.created + [step.id]);
    }
  }

  lemma QueueWasCreated(s: State)
    requires Inv(s) && CreatedIsSound(s)
    ensures forall id | id in s.board.order :: id in s.created
  {
    JobsHaveWorkers(s);
    forall id | id in s.board.order ensures id in s.created {
      assert id in Elements(s.board.order);
      assert id in Elements(s.created);
    }
  }

  lemma ExecNext(steps: seq<Step>, n: nat)
    requires n < |steps|
    ensures Exec(steps[..n + 1]) == Apply(Exec(steps[..n]), steps[n])
  {
    assert steps[..n + 1][..n] == steps[..n];
  }

  lemma SoundBefore(steps: seq<Step>, n: nat)
    requires n <= |steps| && Exec(steps).issued <= TWO_TO_64
    ensures Inv(Exec(steps[..n])) && CreatedIsSound(Exec(steps[..n]))
  {
    assert steps[..n] + steps[n..] == steps;
    ExecFromAppend(START, steps[..n], steps[n..]);
    IssuedGrows(Exec(steps[..n]), steps[n..]);
    InvAlways(steps[..n]);
    CreatedAlways(steps[..n]);
  }

  ghost predicate IsOrderedThroughout(steps: seq<Step>)
  {
    forall n | 0 <= n <= |steps| :: IsOrdered(Exec(steps[..n]))
  }

  ghost predicate NeverRotates(steps: seq<Step>)
  {
    forall n | 0 <= n < |steps| :: !RotatesLiveJob(Exec(steps[..n]), steps[n])
  }

  lemma {:induction false} IsOrderedUpTo(steps: seq<Step>, n: nat)
    requires Exec(steps).issued <= TWO_TO_64
    requires NeverRotates(steps) && n <= |steps|
    ensures IsOrdered(Exec(steps[..n]))
  {
    if n > 0 {
      IsOrderedUpTo(steps, n - 1);
      SoundBefore(steps, n - 1);
      ExecNext(steps, n - 1);
      StepKeepsOrderIff(Exec(steps[..n - 1]), steps[n - 1]);
    }
  }

  /** The queue is in creation order throughout a run if and only if no eviction of the run meets
      a live job. */
  lemma OrderedIffNeverRotates(steps: seq<Step>)
    requires Exec(steps).issued <= TWO_TO_64
    ensures IsOrderedThroughout(steps) <==> NeverRotates(steps)
  {
    if NeverRotates(steps) {
      forall n | 0 <= n <= |steps| ensures IsOrdered(Exec(steps[..n])) {
        IsOrderedUpTo(steps, n);
      }
    }
    forall n | IsOrderedThroughout(steps) && 0 <= n < |steps|
      ensures !RotatesLiveJob(Exec(steps[..n]), steps[n])
    {
      SoundBefore(steps, n);
      ExecNext(steps, n);
      assert IsOrdered(Exec(steps[..n])) && IsOrdered(Exec(steps[..n + 1]));
      StepKeepsOrderIff(Exec(steps[..n]), steps[n]);
    }
  }

  // ---- The listing ----

  function Names(views: seq<JobView>): (names: seq<string>)
    ensures |names| == |views|
    ensures forall i | 0 <= i < |views| :: names[i] == views[i].job.id
  {
    seq(|views|, i requires 0 <= i < |views| => views[i].job.id)
  }

  /** The listed jobs, latest created first. */
  ghost predicate NewestFirst(views: seq<JobView>, created: seq<string>)
  {
    forall i, j | 0 <= i < j < |views| :: Before(created, Names(views)[j], Names(views)[i])
  }

  lemma ReversedOrderIff(order: seq<string>, reversed: seq<string>, created: seq<string>)
    requires |reversed| == |order|
    requires forall i | 0 <= i < |order| :: reversed[i] == order[|order| - 1 - i]
    ensures InCreationOrder(order, created) <==>
              forall i, j | 0 <= i < j < |reversed| :: Before(created, reversed[j], reversed[i])
  {
    var n := |order|;
    if forall i, j | 0 <= i < j < n :: Before(created, reversed[j], reversed[i]) {
      forall i, j | 0 <= i < j < n ensures Before(created, order[i], order[j]) {
        assert reversed[n - 1 - i] == order[i] && reversed[n - 1 - j] == order[j];
      }
    }
  }

  lemma NameOfView(s: State, views: seq<JobView>, includeDetails: bool, i: nat)
    requires JobsAreSound(s) && ShowsBack(s.board, views, includeDetails) && i < |views|
    ensures Names(views)[i] == s.board.order[|s.board.order| - 1 - i]
  {
    var id := s.board.order[|s.board.order| - 1 - i];
    assert views[i].job == s.board.jobs[id];
    assert JobIsSound(s, id);
  }

  lemma ListingNamesTheBack(s: State, views: seq<JobView>, includeDetails: bool)
    requires JobsAreSound(s) && ShowsBack(s.board, views, includeDetails)
    ensures forall i | 0 <= i < |views| :: Names(views)[i] == s.board.order[|s.board.order| - 1 - i]
  {
    forall i | 0 <= i < |views| ensures Names(views)[i] == s.board.order[|s.board.order| - 1 - i] {
      NameOfView(s, views, includeDetails, i);
    }
  }

  /** A listing is newest-first exactly when the stretch of the queue it shows is in creation
      order. */
  lemma ListingIsNewestFirstIff(s: State, views: seq<JobView>, limit: int, includeDetails: bool)
    requires JobsAreSound(s) && IsListing(s.board, views, limit, includeDetails)
    ensures NewestFirst(views, s.created) <==>
              InCreationOrder(s.board.order[|s.board.order| - |views|..], s.created)
  {
    ListingNamesTheBack(s, views, includeDetails);
    ReversedOrderIff(s.board.order[|s.board.order| - |views|..], Names(views), s.created);
  }

  /** As long as no eviction met a live job, every listing is newest-first. */
  lemma ListIsNewestFirst(steps: seq<Step>, views: seq<JobView>, limit: int, includeDetails: bool)
    requires Exec(steps).issued <= TWO_TO_64 && NeverRotates(steps)
    requires IsListing(Exec(steps).board, views, limit, includeDetails)
    ensures NewestFirst(views, Exec(steps).created)
  {
    var s := Exec(steps);
    assert steps[..|steps|] == steps;
    IsOrderedUpTo(steps, |steps|);
    InvAlways(steps);
    SuffixKeepsOrder(s.board.order, s.created, |s.board.order| - |views|);
    ListingIsNewestFirstIff(s, views, limit, includeDetails);
  }

  // ---- Filling the table ----

  function StartOne(n: nat): seq<Step>
  {
    [Reserve, Create(JobId(n), false, "t", EMPTY_DATA, "", 0, 1, 1)]
  }

  /** One job after another is started. */
  function Starts(n: nat): seq<Step>
  {
    if n == 0 then [] else Starts(n - 1) + StartOne(n)
  }

  /** The worker of job `id` has come to `pc`, and the job is live. */
  ghost predicate IsAt(s: State, id: string, pc: Pc)
  {
    && id in s.workers && s.workers[id] == Worker(false, "t", "", pc, None)
    && id in s.board.jobs && !IsTerminal(s.board.jobs[id].state)
  }

  /** n jobs were created, all are in the queue, and the very first has done nothing yet. */
  ghost predicate IsFilled(s: State, n: nat, first: string)
  {
    && s.issued == n && s.counter == n && s.reserved == {}
    && |s.created| == n && s.board.order == s.created
    && (n > 0 ==> s.created[0] == first && IsAt(s, first, Spawned))
  }

  function FirstRecord(id: string): JobRecord
  {
    NewRecord(id, "t", EMPTY_DATA, "", 0, 1, 1)
  }

  /** The board with one more such job, before eviction looks at it. */
  function Grown(b: Board, id: string): Board
  {
    Board(b.jobs[id := FirstRecord(id)], b.order + [id])
  }

  lemma CreatesOne(s: State, id: string)
    requires s.reserved == {id}
    ensures var t := Apply(s, Create(id, false, "t", EMPTY_DATA, "", 0, 1, 1));
            && t.issued == s.issued && t.counter == s.counter && t.reserved == {}
            && t.board == Trimmed(Grown(s.board, id))
            && t.created == s.created + [id]
            && t.workers == s.workers[id := Worker(false, "t", "", Spawned, None)]
  {
  }

  lemma ReservesOne(s: State, n: nat)
    requires s.counter == n && s.reserved == {} && n + 1 < TWO_TO_64
    ensures Apply(s, Reserve) == s.(counter := n + 1, issued := s.issued + 1, reserved := {JobId(n + 1)})
  {
    assert (n + 1) % TWO_TO_64 == n + 1;
    assert Apply(s, Reserve) == ApplyReserve(s);
    assert {} + {JobId(n + 1)} == {JobId(n + 1)};
  }

  lemma ExecTwo(s: State, a: Step, b: Step)
    ensures ExecFrom(s, [a, b]) == Apply(Apply(s, a), b)
  {
    assert [a, b][..1] == [a] && [a][..0] == [];
    assert ExecFrom(s, [a]) == Apply(s, a);
  }

  lemma ExecThree(s: State, a: Step, b: Step, c: Step)
    ensures ExecFrom(s, [a, b, c]) == Apply(Apply(Apply(s, a), b), c)
  {
    ExecTwo(s, a, b);
    assert [a, b, c][..2] == [a, b];
  }

  /** State `t` is `s` with one more job started. */
  ghost predicate HasStarted(s: State, t: State, id: string)
  {
    && t.issued == s.issued + 1 && t.counter == s.counter + 1 && t.reserved == {}
    && t.board == Trimmed(Grown(s.board, id))
    && t.created == s.created + [id]
    && t.workers == s.workers[id := Worker(false, "t", "", Spawned, None)]
  }

  lemma StartsOne(s: State, n: nat)
    requires s.counter == n && s.reserved == {} && n + 1 < TWO_TO_64
    ensures HasStarted(s, ExecFrom(s, StartOne(n + 1)), JobId(n + 1))
  {
    var id := JobId(n + 1);
    ExecTwo(s, Reserve, Create(id, false, "t", EMPTY_DATA, "", 0, 1, 1));
    ReservesOne(s, n);
    CreatesOne(Apply(s, Reserve), id);
  }

  lemma FillsOne(s: State, t: State, n: nat, id: string, first: string)
    requires n < MAX_JOBS && IsFilled(s, n, first) && HasStarted(s, t, id)
    requires if n == 0 then id == first else id != first
    ensures IsFilled(t, n + 1, first)
  {
    GrownStays(s.board, id);
  }

  lemma GrownStays(b: Board, id: string)
    requires |b.order| < MAX_JOBS
    ensures Trimmed(Grown(b, id)) == Grown(b, id)
  {
  }

  lemma JobIdsDiffer(m: nat, n: nat)
    requires m != n
    ensures JobId(m) != JobId(n)
  {
    JobIdRoundTrip(m);
    JobIdRoundTrip(n);
  }

  lemma FillsNext(s: State, n: nat, first: string)
    requires n < MAX_JOBS && IsFilled(s, n, first) && first == JobId(1)
    ensures IsFilled(ExecFrom(s, StartOne(n + 1)), n + 1, first)
  {
    StartsOne(s, n);
    if n > 0 {
      JobIdsDiffer(1, n + 1);
    }
    FillsOne(s, ExecFrom(s, StartOne(n + 1)), n, JobId(n + 1), first);
  }

  lemma StartsNext(n: nat)
    ensures Exec(Starts(n + 1)) == ExecFrom(Exec(Starts(n)), StartOne(n + 1))
  {
    ExecFromAppend(START, Starts(n), StartOne(n + 1));
  }

  lemma StartsFillOneMore(n: nat, first: string)
    requires n < MAX_JOBS && IsFilled(Exec(Starts(n)), n, first) && first == JobId(1)
    ensures IsFilled(Exec(Starts(n + 1)), n + 1, first)
  {
    StartsNext(n);
    FillsNext(Exec(Starts(n)), n, first);
  }

  lemma {:induction false} StartsFill(n: nat, first: string)
    requires n <= MAX_JOBS && first == JobId(1)
    ensures IsFilled(Exec(Starts(n)), n, first)
  {
    if n > 0 {
      StartsFill(n - 1, first);
      StartsFillOneMore(n - 1, first);
    }
  }

  /** In a full table the state of the front job alone decides what one more job does. */
  lemma FrontDecides(b: Board, id: string)
    requires |b.order| == MAX_JOBS && b.order[0] in b.jobs && id != b.order[0]
    ensures |Grown(b, id).order| == MAX_JOBS + 1
    ensures MeetsLiveJob(Grown(b, id)) <==> !IsTerminal(b.jobs[b.order[0]].state)
  {
    assert Grown(b, id).order[0] == b.order[0];
  }

  /** Starting one more job in a full table whose front is live breaks the order. */
  lemma OneMoreBreaksOrder(s: State, t: State, id: string)
    requires |s.board.order| == MAX_JOBS && s.board.order == s.created
    requires s.board.order[0] in s.board.jobs && !IsTerminal(s.board.jobs[s.board.order[0]].state)
    requires HasStarted(s, t, id) && NoDuplicates(t.created)
    ensures |t.board.order| == MAX_JOBS + 1 && !IsOrdered(t)
  {
    var larger := Grown(s.board, id);
    assert t.created == larger.order;
    assert t.created[MAX_JOBS] == id;
    FrontDecides(s.board, id);
    TrimKeepsOrderIff(larger, t.created);
    TrimmedCases(larger, TerminalPrefix(larger.order, larger.jobs));
  }

  /** The order does break: starting 201 jobs, none of which has finished, rotates the first one,
      and a listing of the whole table is no longer newest-first. */
  lemma NewestFirstBreaks(n: nat, views: seq<JobView>, includeDetails: bool)
    requires n == 200
    requires IsListing(Exec(Starts(n + 1)).board, views, n + 1, includeDetails)
    ensures !NewestFirst(views, Exec(Starts(n + 1)).created)
  {
    var s, t := Exec(Starts(n)), Exec(Starts(n + 1));
    StartsFill(n, JobId(1));
    StartsNext(n);
    StartsOne(s, n);
    InvAlways(Starts(n + 1));
    CreatedAlways(Starts(n + 1));
    OneMoreBreaksOrder(s, t, JobId(n + 1));
    ListingIsNewestFirstIff(t, views, n + 1, includeDetails);
    assert t.board.order[0..] == t.board.order;
  }

  // ---- Eviction and waiting ----

  /** Up to 200 creations nothing is ever evicted. */
  lemma {:induction false} NothingEvictedUpTo200(steps: seq<Step>)
    requires |Exec(steps).created| <= 200
    ensures Exec(steps).board.order == Exec(steps).created
    ensures Exec(steps).board.jobs.Keys == Elements(Exec(steps).created)
  {
    if steps != [] {
      var init, last := steps[..|steps| - 1], steps[|steps| - 1];
      var s := Exec(init);
      CreatedGrows(s, last);
      NothingEvictedUpTo200(init);
      if !last.Create? {
        NoReorder(s, last);
      } else if last.id in s.reserved && last.now > 0 {
        var job := NewRecord(last.id, last.tool, last.args, last.target, last.timeoutMs, last.now, last.logTime);
        var larger := Board(s.board.jobs[last.id := job], s.board.order + [last.id]);
        TrimmedCases(larger, TerminalPrefix(larger.order, larger.jobs));
        assert Elements(s.created + [last.id]) == Elements(s.created) + {last.id};
      }
    }
  }

  lemma CreatedGrows(s: State, step: Step)
    ensures s.created <= Apply(s, step).created
  {
    if !step.Create? {
      NoReorder(s, step);
    }
  }

  lemma {:induction false} CreatedGrowsFrom(s: State, steps: seq<Step>)
    ensures s.created <= ExecFrom(s, steps).created
  {
    if steps != [] {
      CreatedGrowsFrom(s, steps[..|steps| - 1]);
      CreatedGrows(ExecFrom(s, steps[..|steps| - 1]), steps[|steps| - 1]);
    }
  }

  /** A waiter that found its job live after `steps` finds it gone after `more`. */
  ghost predicate WaitThrows(steps: seq<Step>, more: seq<Step>, id: string)
  {
    IsLive(Exec(steps).board, id) && WaitResult(Exec(steps).board, Exec(steps + more).board, id) == Threw
  }

  ghost predicate NoWaitThrows(creations: nat)
  {
    forall steps, more, id ::
      WaitThrows(steps, more, id) ==> |Exec(steps + more).created| > creations
  }

  /** Whether a wait can throw depends on the number of jobs a run creates: with at most 200 it
      never does, with one more it can. */
  lemma NoWaitThrowsIff(creations: nat)
    ensures NoWaitThrows(creations) <==> creations <= 200
  {
    forall steps, more, id | WaitThrows(steps, more, id) ensures |Exec(steps + more).created| > MAX_JOBS {
      ThrowingNeedsEviction(steps, more, id);
    }
    AWaitThrows(MAX_JOBS, JobId(1));
  }

  lemma KeptUpTo200(steps: seq<Step>, more: seq<Step>, id: string)
    requires |Exec(steps + more).created| <= MAX_JOBS && id in Exec(steps).board.jobs
    ensures id in Exec(steps + more).board.jobs
  {
    ExecFromAppend(START, steps, more);
    CreatedGrowsFrom(Exec(steps), more);
    NothingEvictedUpTo200(steps);
    NothingEvictedUpTo200(steps + more);
    var i := MemberAt(Exec(steps).created, id);
    assert Exec(steps + more).created[i] == id;
  }

  lemma ThrowingNeedsEviction(steps: seq<Step>, more: seq<Step>, id: string)
    requires WaitThrows(steps, more, id)
    ensures |Exec(steps + more).created| > MAX_JOBS
  {
    if |Exec(steps + more).created| <= MAX_JOBS {
      KeptUpTo200(steps, more, id);
    }
  }

  /** The first job runs to its end while a waiter sleeps, and one more job is started. */
  function Ending(id: string): seq<Step>
  {
    [Load(id), Report(id, 1, 1), Settle(id, Ok(Null), 1, 1)]
  }

  lemma Loads(s: State, id: string)
    requires IsAt(s, id, Spawned)
    ensures IsAt(Apply(s, Load(id)), id, Loaded)
  {
  }

  lemma Reports(s: State, id: string)
    requires IsAt(s, id, Loaded)
    ensures IsAt(Apply(s, Report(id, 1, 1)), id, SetRunning)
  {
    ReportIsRecord(s, id, 1, 1);
  }

  lemma Settles(s: State, id: string)
    requires IsAt(s, id, SetRunning)
    ensures var e := Apply(s, Settle(id, Ok(Null), 1, 1));
            id in e.board.jobs && IsTerminal(e.board.jobs[id].state)
  {
  }

  /** What creating needs of a state stays the same while the first job ends. */
  ghost predicate SameQueue(s: State, e: State)
  {
    && e.counter == s.counter && e.reserved == s.reserved && e.created == s.created
    && e.board.order == s.board.order
  }

  lemma OneStepSameQueue(s: State, step: Step)
    requires step.Load? || step.Report? || step.Settle?
    ensures SameQueue(s, Apply(s, step))
  {
    NoReorder(s, step);
    match step
    case Load(_) =>
    case Report(id, now, logTime) => ReportSameCounter(s, id, now, logTime);
    case Settle(id, outcome, now, logTime) => SettleSameCounter(s, id, outcome, now, logTime);
  }

  lemma ReportSameCounter(s: State, id: string, now: int, logTime: int)
    ensures var t := ApplyReport(s, id, now, logTime); t.counter == s.counter && t.reserved == s.reserved
  {
  }

  lemma SettleSameCounter(s: State, id: string, outcome: Rpc.ToolResult, now: int, logTime: int)
    ensures var t := ApplySettle(s, id, outcome, now, logTime); t.counter == s.counter && t.reserved == s.reserved
  {
  }

  lemma Ends(s: State, id: string)
    requires IsAt(s, id, Spawned)
    ensures var e := ExecFrom(s, Ending(id));
            SameQueue(s, e) && id in e.board.jobs && IsTerminal(e.board.jobs[id].state)
  {
    ExecThree(s, Load(id), Report(id, 1, 1), Settle(id, Ok(Null), 1, 1));
    var loaded := Apply(s, Load(id));
    Loads(s, id);
    OneStepSameQueue(s, Load(id));
    var reported := Apply(loaded, Report(id, 1, 1));
    Reports(loaded, id);
    OneStepSameQueue(loaded, Report(id, 1, 1));
    Settles(reported, id);
    OneStepSameQueue(reported, Settle(id, Ok(Null), 1, 1));
  }

  /** Starting one more job in a full table whose front is terminal evicts that one. */
  lemma OneMoreEvicts(s: State, t: State, id: string)
    requires |s.board.order| == MAX_JOBS && id != s.board.order[0]
    requires s.board.order[0] in s.board.jobs && IsTerminal(s.board.jobs[s.board.order[0]].state)
    requires HasStarted(s, t, id)
    ensures s.board.order[0] !in t.board.jobs
  {
    var larger := Grown(s.board, id);
    FrontDecides(s.board, id);
    TrimmedCases(larger, TerminalPrefix(larger.order, larger.jobs));
    assert larger.order[0] in larger.order[..1];
  }

  lemma AWaitThrows(n: nat, first: string)
    requires n == 200 && first == JobId(1)
    ensures WaitThrows(Starts(n), Ending(first) + StartOne(n + 1), first)
    ensures |Exec(Starts(n) + (Ending(first) + StartOne(n + 1))).created| == n + 1
  {
    var s := Exec(Starts(n));
    var e := ExecFrom(s, Ending(first));
    StartsFill(n, first);
    ExecFromAppend(START, Starts(n), Ending(first) + StartOne(n + 1));
    ExecFromAppend(s, Ending(first), StartOne(n + 1));
    Ends(s, first);
    StartsOne(e, n);
    JobIdsDiffer(1, n + 1);
    OneMoreEvicts(e, ExecFrom(e, StartOne(n + 1)), JobId(n + 1));
  }
}
