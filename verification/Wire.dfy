/** Session notices and call replies on standard output: the callback of a session event and the
    thread that answers a call write to the same stream. */
module Wire {
  import opened Bridge
  import opened BridgeMachine
  import opened Encodings
  import BI = BridgeInvariant
  import BT = BridgeTheorems
  import Stranding

  /** One line of output: the notice of a session event, the reply to a call, or the reply to a wait
      for an editor that found one. */
  datatype OutLine =
    | ConnectNotice(sessionId: string)
    | DisconnectNotice(sessionId: string)
    | Reply(call: nat)
    | Found(waiter: nat, sessionId: string)

  /** `waiters` maps a waiter that has seen a session to that session. */
  datatype Wired = Wired(bridge: State, out: seq<OutLine>, waiters: map<nat, string>)

  /** A bridge step, at which an event's callback writes its notice before it returns; the writing of
      a returned call's reply; a waiter's look at the session table; or the writing of its reply. */
  datatype Move =
    | Bridge(step: Step)
    | Answer(call: nat)
    | Look(waiter: nat, sessionId: string)
    | Report(waiter: nat)

  /** The notices of a stretch of the trace. */
  function Notices(trace: seq<Observation>): seq<OutLine>
  {
    if trace == [] then []
    else
      Notices(trace[..|trace| - 1]) +
      match trace[|trace| - 1]
      case Joined(e) => [ConnectNotice(e.sessionId)]
      case Left(e) => [DisconnectNotice(e.sessionId)]
      case _ => []
  }

  predicate HasReturned(s: State, call: nat)
  {
    call in s.calls && s.calls[call].Returned?
  }

  /** What a step has added to the trace; the trace only grows. */
  function Added(before: State, after: State): seq<Observation>
  {
    if |before.sh.trace| <= |after.sh.trace| then after.sh.trace[|before.sh.trace|..] else []
  }

  ghost function Do(w: Wired, move: Move): Wired
  {
    match move
    case Bridge(step) =>
      var next := Apply(w.bridge, step);
      w.(bridge := next, out := w.out + Notices(Added(w.bridge, next)))
    case Answer(call) =>
      if HasReturned(w.bridge, call) then w.(out := w.out + [Reply(call)]) else w
    case Look(waiter, id) =>
      if waiter !in w.waiters && id in w.bridge.sh.sessions then w.(waiters := w.waiters[waiter := id]) else w
    case Report(waiter) =>
      if waiter in w.waiters then w.(out := w.out + [Found(waiter, w.waiters[waiter])]) else w
  }

  ghost function Play(moves: seq<Move>): Wired
  {
    if moves == [] then Wired(Start(true), [], map[])
    else Do(Play(moves[..|moves| - 1]), moves[|moves| - 1])
  }

  /** The bridge steps among the moves. */
  ghost function StepsOf(moves: seq<Move>): seq<Step>
  {
    if moves == [] then []
    else
      StepsOf(moves[..|moves| - 1]) +
      match moves[|moves| - 1]
      case Bridge(step) => [step]
      case _ => []
  }

  lemma {:induction false} PlaysBridge(moves: seq<Move>)
    ensures Play(moves).bridge == Exec(true, StepsOf(moves))
  {
    if moves != [] {
      var init := moves[..|moves| - 1];
      PlaysBridge(init);
      match moves[|moves| - 1]
      case Bridge(step) => assert (StepsOf(init) + [step])[..|StepsOf(init)|] == StepsOf(init);
      case _ => assert StepsOf(init) + [] == StepsOf(init);
    }
  }

  // ---- The trace only grows ----

  lemma RoutingKeepsTrace(s: State, call: nat, step: Step)
    ensures ApplyRoute(s, call, step).sh.trace == s.sh.trace
  {
  }

  lemma TraceGrows(s: State, step: Step)
    ensures s.sh.trace <= Apply(s, step).sh.trace
  {
    if BI.IsRouting(step) {
      RoutingKeepsTrace(s, step.call, step);
    }
  }

  lemma {:induction false} NoticeOf(trace: seq<Observation>, i: nat)
    requires i < |trace| && trace[i].Left?
    ensures DisconnectNotice(trace[i].session.sessionId) in Notices(trace)
  {
    if i < |trace| - 1 {
      NoticeOf(trace[..|trace| - 1], i);
    }
  }

  // ---- The order on the wire ----

  /** Every announced leaving has been written. */
  ghost predicate AllNoticed(w: Wired)
  {
    forall i | 0 <= i < |w.bridge.sh.trace| && w.bridge.sh.trace[i].Left? ::
      DisconnectNotice(w.bridge.sh.trace[i].session.sessionId) in w.out
  }

  /** A reply to a call that failed because its editor disconnected stands after the notice. */
  ghost predicate FollowsNotice(w: Wired, k: nat)
    requires k < |w.out|
  {
    w.out[k].Reply? ==>
      && HasReturned(w.bridge, w.out[k].call)
      && var cause := w.bridge.calls[w.out[k].call].cause;
         cause.Disconnected? ==> DisconnectNotice(cause.sessionId) in w.out[..k]
  }

  ghost predicate AllFollowNotices(w: Wired)
  {
    forall k | 0 <= k < |w.out| :: FollowsNotice(w, k)
  }

  lemma BridgeMoveNotices(w: Wired, step: Step)
    requires AllNoticed(w)
    ensures AllNoticed(Do(w, Bridge(step)))
  {
    var t := Apply(w.bridge, step);
    var added := Added(w.bridge, t);
    TraceGrows(w.bridge, step);
    assert t.sh.trace == w.bridge.sh.trace + added;
    forall i | 0 <= i < |t.sh.trace| && t.sh.trace[i].Left?
      ensures DisconnectNotice(t.sh.trace[i].session.sessionId) in w.out + Notices(added)
    {
      if i >= |w.bridge.sh.trace| {
        NoticeOf(added, i - |w.bridge.sh.trace|);
      }
    }
  }

  lemma {:induction false} NoticesAreNoReplies(trace: seq<Observation>)
    ensures forall l | l in Notices(trace) :: !l.Reply? && !l.Found?
  {
    if trace != [] {
      NoticesAreNoReplies(trace[..|trace| - 1]);
    }
  }

  lemma BridgeMoveExplains(w: Wired, step: Step)
    requires AllFollowNotices(w)
    ensures AllFollowNotices(Do(w, Bridge(step)))
  {
    var t := Do(w, Bridge(step));
    NoticesAreNoReplies(Added(w.bridge, t.bridge));
    forall k | 0 <= k < |t.out| ensures FollowsNotice(t, k) {
      if k < |w.out| {
        assert FollowsNotice(w, k) && t.out[..k] == w.out[..k];
        if w.out[k].Reply? {
          BT.ReturnedStaysOneStep(w.bridge, step, w.out[k].call);
        }
      } else {
        assert t.out[k] in Notices(Added(w.bridge, t.bridge));
      }
    }
  }

  /** A call that returned because its session closed returned after the leaving was announced. */
  lemma CauseWasAnnounced(s: State, call: nat) returns (j: nat)
    requires Inv(s) && s.sh.callbackSet
    requires HasReturned(s, call) && s.calls[call].cause.Disconnected?
    ensures j < |s.sh.trace| && s.sh.trace[j].Left?
    ensures s.sh.trace[j].session.sessionId == s.calls[call].cause.sessionId
  {
    BT.ReturnedCall(s, call);
    var tx := s.calls[call].owned.value;
    var i := BT.ResolvingObservation(s.sh.trace, tx);
    assert SetTo(s.sh, tx, s.sh.trace[i].cause);
    assert s.sh.trace[i].txIds != {};
    assert LeftBefore(s.sh.trace, i, s.sh.trace[i].cause.sessionId);
    j :| 0 <= j < i && s.sh.trace[j].Left? && s.sh.trace[j].session.sessionId == s.sh.trace[i].cause.sessionId;
  }

  lemma AnswerMoveExplains(w: Wired, call: nat)
    requires AllFollowNotices(w) && AllNoticed(w) && Inv(w.bridge) && w.bridge.sh.callbackSet
    ensures AllFollowNotices(Do(w, Answer(call)))
  {
    if HasReturned(w.bridge, call) {
      var t := Do(w, Answer(call));
      if w.bridge.calls[call].cause.Disconnected? {
        var j := CauseWasAnnounced(w.bridge, call);
      }
      forall k | 0 <= k < |t.out| ensures FollowsNotice(t, k) {
        assert k < |w.out| ==> FollowsNotice(w, k) && t.out[..k] == w.out[..k];
        assert k == |w.out| ==> t.out[..k] == w.out;
      }
    }
  }

  lemma LookExplains(w: Wired, move: Move)
    requires AllFollowNotices(w) && AllNoticed(w) && move.Look?
    ensures AllFollowNotices(Do(w, move)) && AllNoticed(Do(w, move))
  {
    var t := Do(w, move);
    forall k | 0 <= k < |t.out| ensures FollowsNotice(t, k) {
      assert FollowsNotice(w, k);
    }
  }

  lemma ReportExplains(w: Wired, waiter: nat)
    requires AllFollowNotices(w) && AllNoticed(w)
    ensures AllFollowNotices(Do(w, Report(waiter))) && AllNoticed(Do(w, Report(waiter)))
  {
    var t := Do(w, Report(waiter));
    forall k | 0 <= k < |t.out| ensures FollowsNotice(t, k) {
      assert k < |w.out| ==> FollowsNotice(w, k) && t.out[..k] == w.out[..k];
    }
  }

  lemma {:induction false} WireInvariant(moves: seq<Move>)
    requires Play(moves).bridge.issued <= TWO_TO_64
    ensures AllNoticed(Play(moves)) && AllFollowNotices(Play(moves))
  {
    if moves != [] {
      var init, last := moves[..|moves| - 1], moves[|moves| - 1];
      var w := Play(init);
      PlaysBridge(init);
      IssuedBefore(w, last);
      WireInvariant(init);
      match last
      case Bridge(step) =>
        BridgeMoveNotices(w, step);
        BridgeMoveExplains(w, step);
      case Answer(call) =>
        BI.InvAlways(true, StepsOf(init));
        BT.CallbackStays(true, StepsOf(init));
        AnswerMoveExplains(w, call);
      case Look(_, _) => LookExplains(w, last);
      case Report(waiter) => ReportExplains(w, waiter);
    }
  }

  lemma IssuedBefore(w: Wired, move: Move)
    ensures w.bridge.issued <= Do(w, move).bridge.issued
  {
    match move
    case Bridge(step) => BI.IssuedStep(w.bridge, step);
    case _ =>
  }

  /** However sessions, calls and writers interleave, the reply of a call that failed because its
      editor disconnected stands on standard output after the notice that says so. */
  lemma NoticePrecedesReply(moves: seq<Move>, k: nat)
    requires Play(moves).bridge.issued <= TWO_TO_64
    requires k < |Play(moves).out| && Play(moves).out[k].Reply?
    ensures var w := Play(moves);
            && HasReturned(w.bridge, w.out[k].call)
            && var cause := w.bridge.calls[w.out[k].call].cause;
               cause.Disconnected? ==> exists j :: 0 <= j < k && w.out[j] == DisconnectNotice(cause.sessionId)
  {
    WireInvariant(moves);
    assert FollowsNotice(Play(moves), k);
  }

  // ---- Waiters and the notice of a connect ----

  predicate IsGreeting(s: State, id: string)
  {
    id in s.handlers && s.handlers[id].Greeting?
  }

  /** A session in the table has its notice written, unless its hello is still being handled. */
  ghost predicate AllGreeted(w: Wired)
  {
    && w.bridge.sh.callbackSet
    && (forall id | id in w.bridge.sh.sessions :: IsGreeting(w.bridge, id) || ConnectNotice(id) in w.out)
    && (forall id | IsGreeting(w.bridge, id) :: w.bridge.handlers[id].session.sessionId == id)
  }

  /** A step that gains no session and ends no greeting. */
  lemma QuietStepKeepsGreeted(w: Wired, t: Wired)
    requires AllGreeted(w) && t.bridge.sh.callbackSet && w.out <= t.out
    requires forall id | id in t.bridge.sh.sessions && id !in w.bridge.sh.sessions :: IsGreeting(t.bridge, id)
    requires forall id | IsGreeting(w.bridge, id) :: IsGreeting(t.bridge, id)
    requires forall id | IsGreeting(t.bridge, id) :: t.bridge.handlers[id].session.sessionId == id
    ensures AllGreeted(t)
  {
    assert forall l | l in w.out :: l in t.out;
  }

  lemma HelloKeepsGreeted(w: Wired, t: Wired, session: EditorSession)
    requires AllGreeted(w) && t.bridge == ApplyHello(w.bridge, session) && w.out <= t.out
    ensures AllGreeted(t)
  {
    QuietStepKeepsGreeted(w, t);
  }

  lemma PublishJoinedKeepsGreeted(w: Wired, t: Wired, id: string)
    requires AllGreeted(w) && t.bridge == ApplyPublishJoined(w.bridge, id)
    requires t.out == w.out + Notices(Added(w.bridge, t.bridge))
    ensures AllGreeted(t)
  {
    if IsGreeting(w.bridge, id) {
      var joined := Joined(w.bridge.handlers[id].session);
      assert Added(w.bridge, t.bridge) == [joined];
      assert [joined][..0] == [];
      assert Notices([joined]) == [ConnectNotice(id)];
      assert ConnectNotice(id) in t.out;
    } else {
      assert t.bridge == w.bridge;
    }
    assert forall l | l in w.out :: l in t.out;
  }

  lemma ClosingKeepsGreeted(w: Wired, t: Wired, step: Step)
    requires AllGreeted(w) && (step.Close? || step.PublishLeft? || step.Sweep?)
    requires t.bridge == Apply(w.bridge, step) && w.out <= t.out
    ensures AllGreeted(t)
  {
    match step
    case Close(id) => assert t.bridge == ApplyClose(w.bridge, id);
    case PublishLeft(id) => assert t.bridge == ApplyPublishLeft(w.bridge, id);
    case Sweep(id) => assert t.bridge == ApplySweep(w.bridge, id);
    QuietStepKeepsGreeted(w, t);
  }

  lemma BridgeMoveKeepsGreeted(w: Wired, step: Step)
    requires AllGreeted(w)
    ensures AllGreeted(Do(w, Bridge(step)))
  {
    var t := Do(w, Bridge(step));
    BT.CallbackStaysOneStep(w.bridge, step);
    if BI.IsRouting(step) || BI.IsOwning(step) || step.Dispatch? {
      Stranding.CallStepKeepsCover(w.bridge, step);
      QuietStepKeepsGreeted(w, t);
    } else if step.Hello? {
      HelloKeepsGreeted(w, t, step.session);
    } else if step.PublishJoined? {
      PublishJoinedKeepsGreeted(w, t, step.sessionId);
    } else if step.Close? || step.PublishLeft? || step.Sweep? {
      ClosingKeepsGreeted(w, t, step);
    } else {
      Stranding.SharedStepKeepsCover(w.bridge, step);
      QuietStepKeepsGreeted(w, t);
    }
  }

  lemma {:induction false} GreetedAlways(moves: seq<Move>)
    ensures AllGreeted(Play(moves))
  {
    if moves != [] {
      var init, last := moves[..|moves| - 1], moves[|moves| - 1];
      GreetedAlways(init);
      if last.Bridge? {
        BridgeMoveKeepsGreeted(Play(init), last.step);
      } else {
        QuietStepKeepsGreeted(Play(init), Play(moves));
      }
    }
  }

  // ---- What has been written stays ----

  lemma {:induction false} PlayOn(moves: seq<Move>, more: seq<Move>)
    ensures Play(moves).out <= Play(moves + more).out
  {
    if more == [] {
      assert moves + more == moves;
    } else {
      var init := more[..|more| - 1];
      PlayOn(moves, init);
      assert (moves + more)[..|moves + more| - 1] == moves + init;
    }
  }

  /** A waiter's reply is written only after its look. */
  lemma {:induction false} OnlyLookersReport(moves: seq<Move>)
    ensures forall l | l in Play(moves).out && l.Found? :: l.waiter in Play(moves).waiters
  {
    if moves != [] {
      var init, last := moves[..|moves| - 1], moves[|moves| - 1];
      OnlyLookersReport(init);
      if last.Bridge? {
        NoticesAreNoReplies(Added(Play(init).bridge, Play(moves).bridge));
      }
    }
  }

  // ---- Exactly when a waiter's reply may come first ----

  /** The hello of session `id` is being handled: it is in the table, and its notice, the first for
      this id, is still to come. */
  ghost predicate IsInGap(w: Wired, id: string)
  {
    IsGreeting(w.bridge, id) && ConnectNotice(id) !in w.out
  }

  /** In this continuation of the run a waiter that looks now is answered before any notice of the
      session. */
  ghost predicate AnswersFirst(moves: seq<Move>, waiter: nat, id: string, more: seq<Move>)
  {
    var out := Play(moves + [Look(waiter, id)] + more).out;
    exists k :: 0 <= k < |out| && out[k] == Found(waiter, id) && ConnectNotice(id) !in out[..k]
  }

  lemma AnswersFirstInGap(moves: seq<Move>, waiter: nat, id: string)
    requires id in Play(moves).bridge.sh.sessions && waiter !in Play(moves).waiters
    requires ConnectNotice(id) !in Play(moves).out
    ensures AnswersFirst(moves, waiter, id, [Report(waiter)])
  {
    var looked := moves + [Look(waiter, id)];
    var w := Play(moves);
    assert looked[..|looked| - 1] == moves;
    assert Play(looked) == w.(waiters := w.waiters[waiter := id]);
    assert (looked + [Report(waiter)])[..|looked|] == looked;
    var out := Play(looked + [Report(waiter)]).out;
    assert out == w.out + [Found(waiter, id)];
    assert out[|w.out|] == Found(waiter, id) && out[..|w.out|] == w.out;
  }

  lemma NotAmong(before: seq<OutLine>, out: seq<OutLine>, k: nat)
    requires before <= out && k < |out| && out[k] !in before
    ensures k >= |before|
  {
  }

  lemma NoticeStandsFirst(moves: seq<Move>, waiter: nat, id: string, more: seq<Move>)
    requires waiter !in Play(moves).waiters && ConnectNotice(id) in Play(moves).out
    ensures !AnswersFirst(moves, waiter, id, more)
  {
    var w, out := Play(moves), Play(moves + [Look(waiter, id)] + more).out;
    PlayOn(moves, [Look(waiter, id)] + more);
    assert moves + ([Look(waiter, id)] + more) == moves + [Look(waiter, id)] + more;
    OnlyLookersReport(moves);
    var i :| 0 <= i < |w.out| && w.out[i] == ConnectNotice(id);
    forall k | 0 <= k < |out| && out[k] == Found(waiter, id) ensures ConnectNotice(id) in out[..k] {
      NotAmong(w.out, out, k);
      assert out[..k][i] == ConnectNotice(id);
    }
  }

  /** A waiter that finds a session may be answered before the session's "connected" notice if and
      only if it looks between the registration of the hello and its callback. */
  lemma WaiterAnswersFirstIff(moves: seq<Move>, waiter: nat, id: string)
    requires id in Play(moves).bridge.sh.sessions && waiter !in Play(moves).waiters
    ensures (exists more :: AnswersFirst(moves, waiter, id, more)) <==> IsInGap(Play(moves), id)
  {
    GreetedAlways(moves);
    if ConnectNotice(id) in Play(moves).out {
      forall more ensures !AnswersFirst(moves, waiter, id, more) {
        NoticeStandsFirst(moves, waiter, id, more);
      }
    } else {
      AnswersFirstInGap(moves, waiter, id);
    }
  }

  lemma PlayNext(moves: seq<Move>, move: Move)
    ensures Play(moves + [move]) == Do(Play(moves), move)
  {
    assert (moves + [move])[..|moves|] == moves;
  }

  /** It does happen: a waiter looks, and is answered, while the first hello is handled. */
  lemma WaiterMayAnswerFirst(session: EditorSession)
    ensures var id := session.sessionId;
            && id in Play([Bridge(Hello(session))]).bridge.sh.sessions
            && AnswersFirst([Bridge(Hello(session))], 0, id, [Report(0)])
  {
    var moves := [Bridge(Hello(session))];
    PlayNext([], Bridge(Hello(session)));
    assert [] + moves == moves;
    var w := Play(moves);
    assert w.bridge == ApplyHello(Start(true), session);
    assert Added(Start(true), w.bridge) == [];
    AnswersFirstInGap(moves, 0, session.sessionId);
  }
}
