/** The output stream of the stdio transport as a state machine: one reader and any number
    of publishers write whole lines to it. How a line is handled is a parameter. */
module StdioStream {
  import opened JsonValues
  import opened Results
  import opened Rpc
  import opened McpServer

  /** One line of standard input, with what its handling will find around it. */
  datatype Line = Line(text: string, around: Surroundings)

  /** What handling a line comes to, printing its reply included; a line's handling is a function
      of the line and of what surrounds it. */
  type Handler = handle: Line -> Handled |
    forall line :: handle(line).Reply? ==> Encodable(handle(line).envelope)
    witness (line: Line) => Silent

  /** The replies owed for a stretch of input, in input order. */
  function Replies(lines: seq<Line>, handle: Handler): seq<Json>
  {
    if lines == [] then []
    else
      var handled := handle(lines[|lines| - 1]);
      Replies(lines[..|lines| - 1], handle) + if handled.Reply? then [handled.envelope] else []
  }

  // ---- Framing ----

  function Frame(envelope: Json): string
  {
    Dump(envelope) + "\n"
  }

  function Frames(envelopes: seq<Json>): string
  {
    if envelopes == [] then ""
    else Frames(envelopes[..|envelopes| - 1]) + Frame(envelopes[|envelopes| - 1])
  }

  /** The complete lines of a stream, and its unfinished last line. */
  function SplitLines(s: string): (r: (seq<string>, string))
  {
    if s == "" then ([], "")
    else
      var (done, rest) := SplitLines(s[..|s| - 1]);
      var c := s[|s| - 1];
      if c == '\n' then (done + [rest], "") else (done, rest + [c])
  }

  function Dumps(envelopes: seq<Json>): (r: seq<string>)
    ensures |r| == |envelopes|
    ensures forall i | 0 <= i < |r| :: r[i] == Dump(envelopes[i])
  {
    if envelopes == [] then []
    else Dumps(envelopes[..|envelopes| - 1]) + [Dump(envelopes[|envelopes| - 1])]
  }

  lemma {:induction false} SplitAppend(s: string, line: string)
    requires SplitLines(s).1 == "" && '\n' !in line
    ensures SplitLines(s + line) == (SplitLines(s).0, line)
  {
    if line == "" {
      assert s + line == s;
    } else {
      var init, c := line[..|line| - 1], line[|line| - 1];
      SplitAppend(s, init);
      assert (s + line)[..|s + line| - 1] == s + init;
      assert init + [c] == line;
    }
  }

  /** Splitting the stream on line breaks recovers exactly what was written. */
  lemma {:induction false} SplitRecoversFrames(envelopes: seq<Json>)
    ensures SplitLines(Frames(envelopes)) == (Dumps(envelopes), "")
  {
    if envelopes != [] {
      var init, last := envelopes[..|envelopes| - 1], envelopes[|envelopes| - 1];
      SplitRecoversFrames(init);
      DumpIsOneLine(last);
      SplitAppend(Frames(init), Dump(last));
      SplitNewline(Frames(init) + Dump(last));
      assert Frames(envelopes) == (Frames(init) + Dump(last)) + "\n";
    }
  }

  lemma SplitNewline(s: string)
    ensures SplitLines(s + "\n") == (SplitLines(s).0 + [SplitLines(s).1], "")
  {
    assert (s + "\n")[..|s|] == s;
  }

  lemma FramesSnoc(envelopes: seq<Json>, envelope: Json)
    ensures Frames(envelopes + [envelope]) == Frames(envelopes) + Frame(envelope)
  {
    assert (envelopes + [envelope])[..|envelopes|] == envelopes;
  }

  lemma RepliesSnoc(lines: seq<Line>, n: nat, handle: Handler)
    requires n < |lines|
    ensures Replies(lines[..n + 1], handle)
         == Replies(lines[..n], handle)
            + if handle(lines[n]).Reply? then [handle(lines[n]).envelope] else []
  {
    assert lines[..n + 1][..n] == lines[..n];
  }

  /** What handling one line puts on the stream when nobody else writes. */
  function Owed(handled: Handled): string
  {
    if handled.Reply? then Frame(handled.envelope) else ""
  }

  lemma FramesOfNext(lines: seq<Line>, n: nat, handle: Handler)
    requires n < |lines|
    ensures Frames(Replies(lines[..n + 1], handle))
         == Frames(Replies(lines[..n], handle)) + Owed(handle(lines[n]))
  {
    RepliesSnoc(lines, n, handle);
    if handle(lines[n]).Reply? {
      FramesSnoc(Replies(lines[..n], handle), handle(lines[n]).envelope);
    } else {
      assert Replies(lines[..n], handle) + [] == Replies(lines[..n], handle);
    }
  }

  // ---- The transport object ----

  /** The output after the first n lines, of which at most the last made its handler throw. */
  ghost predicate Served(lines: seq<Line>, n: nat, handle: Handler, threw: bool, before: string, now: string)
  {
    && n <= |lines|
    && now == before + Frames(Replies(lines[..n], handle))
    && (threw ==> n > 0)
    && forall i | 0 <= i < n :: handle(lines[i]) == Throws <==> threw && i == n - 1
  }

  lemma ServedNext(lines: seq<Line>, n: nat, handle: Handler, before: string, now: string)
    requires Served(lines, n, handle, false, before, now) && n < |lines|
    ensures Served(lines, n + 1, handle, handle(lines[n]) == Throws, before, now + Owed(handle(lines[n])))
  {
    FramesOfNext(lines, n, handle);
    Append3(before, Frames(Replies(lines[..n], handle)), Owed(handle(lines[n])));
  }

  lemma Append3(a: string, b: string, c: string)
    ensures (a + b) + c == a + (b + c)
  {
  }

  class Transport {
    var running: bool
    var stdout: string
    const handle: Handler

    constructor (handle: Handler)
      ensures !running && stdout == "" && this.handle == handle
    {
      running := false;
      stdout := "";
      this.handle := handle;
    }

    method WriteJson(envelope: Json)
      requires Encodable(envelope)
      modifies this`stdout
      ensures stdout == old(stdout) + Frame(envelope)
    {
      var serialized := Dump(envelope);
      stdout := stdout + serialized + "\n";
    }

    method Stop()
      modifies this`running
      ensures !running
    {
      running := false;
    }

    /** The read loop, without other writers: every line is answered in input order until the
        input ends or an exception leaves the handler, which ends the process. */
    method Run(lines: seq<Line>) returns (crashed: bool, consumed: nat)
      modifies this
      ensures Served(lines, consumed, handle, crashed, old(stdout), stdout)
      ensures !crashed ==> consumed == |lines| && !running
    {
      running := true;
      crashed, consumed := false, 0;
      while running && !crashed && consumed < |lines|
        invariant running
        invariant Served(lines, consumed, handle, crashed, old(stdout), stdout)
        decreases |lines| - consumed
      {
        ServedNext(lines, consumed, handle, old(stdout), stdout);
        crashed := Serve(lines[consumed]);
        consumed := consumed + 1;
      }
      running := crashed;
    }

    /** Handles one line and writes its reply, if it has one. */
    method Serve(line: Line) returns (threw: bool)
      modifies this`stdout
      ensures stdout == old(stdout) + Owed(handle(line))
      ensures threw <==> handle(line) == Throws
    {
      var handled := handle(line);
      if handled.Reply? {
        WriteJson(handled.envelope);
      }
      threw := handled.Throws?;
    }
  }

  // ---- The interleaved stream ----

  /** Where the reader stands: about to test its flag, about to read a line, holding a
      reply it has not written, or finished. */
  datatype Phase =
    | AtFlag
    | AtRead
    | Writing(envelope: Json)
    | Ended
    | Crashed

  datatype Written =
    | Response(envelope: Json)
    | Notification(envelope: Json)

  datatype State = State(
    running: bool,
    next: nat,
    phase: Phase,
    stdout: string,
    log: seq<Written>)

  /** Each step is one locked section or one read; any thread may take the next one. */
  datatype Step =
    | TestFlag
    | ReadLine
    | WriteReply
    | Publish(name: string, params: Json)
    | RequestStop

  const START := State(true, 0, AtFlag, "", [])

  /** The reader after a line was handled. */
  function PhaseAfter(handled: Handled): Phase
  {
    match handled
    case Silent => AtFlag
    case Reply(envelope) => Writing(envelope)
    case Throws => Crashed
  }

  function NotificationEnvelope(name: string, params: Json): Json
  {
    RequestToJson(Request(name, params, None))
  }

  function Emit(s: State, w: Written): State
  {
    s.(stdout := s.stdout + Frame(w.envelope), log := s.log + [w])
  }

  /** The state after a step; a step that is not enabled changes nothing. A notification that
      cannot be printed throws into its publisher, which writes nothing. */
  function Apply(s: State, step: Step, lines: seq<Line>, handle: Handler): State
  {
    match step
    case TestFlag =>
      if !s.phase.AtFlag? then s
      else if s.running then s.(phase := AtRead)
      else s.(phase := Ended)
    case ReadLine =>
      if !s.phase.AtRead? then s
      else if s.next >= |lines| then s.(phase := Ended)
      else s.(next := s.next + 1, phase := PhaseAfter(handle(lines[s.next])))
    case WriteReply =>
      if s.phase.Writing? then Emit(s, Response(s.phase.envelope)).(phase := AtFlag) else s
    case Publish(name, params) =>
      var envelope := NotificationEnvelope(name, params);
      if s.phase.Crashed? || !Encodable(envelope) then s else Emit(s, Notification(envelope))
    case RequestStop => s.(running := false)
  }

  function Exec(steps: seq<Step>, lines: seq<Line>, handle: Handler): State
  {
    if steps == [] then START
    else Apply(Exec(steps[..|steps| - 1], lines, handle), steps[|steps| - 1], lines, handle)
  }

  function Envelopes(log: seq<Written>): seq<Json>
  {
    if log == [] then [] else Envelopes(log[..|log| - 1]) + [log[|log| - 1].envelope]
  }

  function Responses(log: seq<Written>): seq<Json>
  {
    if log == [] then []
    else
      var w := log[|log| - 1];
      Responses(log[..|log| - 1]) + if w.Response? then [w.envelope] else []
  }

  /** The reply the reader holds but has not written. */
  function Held(phase: Phase): seq<Json>
  {
    if phase.Writing? then [phase.envelope] else []
  }

  ghost predicate Inv(s: State, lines: seq<Line>, handle: Handler)
  {
    && s.next <= |lines|
    && s.stdout == Frames(Envelopes(s.log))
    && Responses(s.log) + Held(s.phase) == Replies(lines[..s.next], handle)
    && (s.phase.Ended? ==> s.next == |lines| || !s.running)
    && OnlyLastThrows(s.next, s.phase, lines, handle)
  }

  lemma EmitKeeps(s: State, w: Written)
    requires s.stdout == Frames(Envelopes(s.log))
    ensures Emit(s, w).stdout == Frames(Envelopes(Emit(s, w).log))
    ensures Responses(Emit(s, w).log) == Responses(s.log) + if w.Response? then [w.envelope] else []
  {
    var log := s.log + [w];
    assert log[..|log| - 1] == s.log;
    FramesSnoc(Envelopes(s.log), w.envelope);
  }

  /** The reply a line is owed becomes the reply the reader holds. */
  lemma HeldAfterRead(handled: Handled)
    ensures Held(PhaseAfter(handled)) == if handled.Reply? then [handled.envelope] else []
  {
  }

  lemma ReadKeepsReplies(s: State, lines: seq<Line>, handle: Handler)
    requires s.phase.AtRead? && s.next < |lines|
    requires Responses(s.log) + Held(s.phase) == Replies(lines[..s.next], handle)
    ensures Responses(s.log) + Held(PhaseAfter(handle(lines[s.next]))) == Replies(lines[..s.next + 1], handle)
  {
    RepliesSnoc(lines, s.next, handle);
    HeldAfterRead(handle(lines[s.next]));
    assert Responses(s.log) + [] == Responses(s.log);
  }

  lemma InvRead(s: State, lines: seq<Line>, handle: Handler)
    requires Inv(s, lines, handle) && s.phase.AtRead? && s.next < |lines|
    ensures Inv(Apply(s, ReadLine, lines, handle), lines, handle)
  {
    ReadKeepsReplies(s, lines, handle);
    var t := s.(next := s.next + 1, phase := PhaseAfter(handle(lines[s.next])));
    assert Responses(t.log) + Held(t.phase) == Replies(lines[..t.next], handle);
    ReadKeepsThrows(s, t, lines, handle);
  }

  /** The lines read so far of which none but the last may have thrown. */
  ghost predicate OnlyLastThrows(next: nat, phase: Phase, lines: seq<Line>, handle: Handler)
    requires next <= |lines|
  {
    && (phase.Crashed? ==> next > 0 && handle(lines[next - 1]) == Throws)
    && (forall i | 0 <= i < next :: handle(lines[i]) == Throws ==> phase.Crashed? && i == next - 1)
  }

  lemma ReadKeepsThrows(s: State, t: State, lines: seq<Line>, handle: Handler)
    requires s.next < |lines| && OnlyLastThrows(s.next, s.phase, lines, handle) && s.phase.AtRead?
    requires t.next == s.next + 1 && t.phase == PhaseAfter(handle(lines[s.next]))
    ensures OnlyLastThrows(t.next, t.phase, lines, handle)
  {
  }

  lemma InvWrite(s: State, lines: seq<Line>, handle: Handler)
    requires Inv(s, lines, handle) && s.phase.Writing?
    ensures Inv(Apply(s, WriteReply, lines, handle), lines, handle)
  {
    EmitKeeps(s, Response(s.phase.envelope));
    var t := Apply(s, WriteReply, lines, handle);
    assert Responses(t.log) + [] == Responses(s.log) + [s.phase.envelope];
  }

  lemma InvPublish(s: State, w: Written, lines: seq<Line>, handle: Handler)
    requires Inv(s, lines, handle) && w.Notification?
    ensures Inv(Emit(s, w), lines, handle)
  {
    EmitKeeps(s, w);
    assert Responses(s.log) + [] == Responses(s.log);
  }

  lemma InvStep(s: State, step: Step, lines: seq<Line>, handle: Handler)
    requires Inv(s, lines, handle)
    ensures Inv(Apply(s, step, lines, handle), lines, handle)
  {
    match step
    case WriteReply =>
      if s.phase.Writing? {
        InvWrite(s, lines, handle);
      }
    case Publish(name, params) =>
      if Encodable(NotificationEnvelope(name, params)) {
        InvPublish(s, Notification(NotificationEnvelope(name, params)), lines, handle);
      }
    case ReadLine =>
      if s.phase.AtRead? && s.next < |lines| {
        InvRead(s, lines, handle);
      }
    case _ =>
  }

  lemma {:induction false} InvAlways(steps: seq<Step>, lines: seq<Line>, handle: Handler)
    ensures Inv(Exec(steps, lines, handle), lines, handle)
  {
    if steps != [] {
      InvAlways(steps[..|steps| - 1], lines, handle);
      InvStep(Exec(steps[..|steps| - 1], lines, handle), steps[|steps| - 1], lines, handle);
    }
  }

  // ---- The stream theorems ----

  /** Under every interleaving of reader, publishers and stop requests, splitting standard
      output on line breaks gives back exactly the envelopes written, and the responses among
      them, with the one still held, are the replies owed for the lines read, in input order. */
  lemma StreamIsExact(steps: seq<Step>, lines: seq<Line>, handle: Handler)
    ensures var s := Exec(steps, lines, handle);
            && s.next <= |lines|
            && SplitLines(s.stdout) == (Dumps(Envelopes(s.log)), "")
            && Responses(s.log) + Held(s.phase) == Replies(lines[..s.next], handle)
  {
    InvAlways(steps, lines, handle);
    SplitRecoversFrames(Envelopes(Exec(steps, lines, handle).log));
  }

  ghost predicate NoStop(steps: seq<Step>)
  {
    forall step | step in steps :: !step.RequestStop?
  }

  lemma RunningStays(s: State, step: Step, lines: seq<Line>, handle: Handler)
    requires s.running && !step.RequestStop?
    ensures Apply(s, step, lines, handle).running
  {
  }

  lemma {:induction false} NeverStopped(steps: seq<Step>, lines: seq<Line>, handle: Handler)
    requires NoStop(steps)
    ensures Exec(steps, lines, handle).running
  {
    if steps != [] {
      var init, last := steps[..|steps| - 1], steps[|steps| - 1];
      assert last in steps;
      NeverStopped(init, lines, handle);
      RunningStays(Exec(init, lines, handle), last, lines, handle);
    }
  }

  /** Without a stop request the reader ends with every line answered, and it can end by
      a crash only at a line whose handling throws: all lines are answered if and only if no
      line throws. */
  lemma EndedAnswersAll(steps: seq<Step>, lines: seq<Line>, handle: Handler)
    requires NoStop(steps)
    requires Exec(steps, lines, handle).phase.Ended? || Exec(steps, lines, handle).phase.Crashed?
    ensures Exec(steps, lines, handle).phase.Ended? <==>
              forall i | 0 <= i < |lines| :: handle(lines[i]) != Throws
    ensures Exec(steps, lines, handle).phase.Ended? ==>
              Responses(Exec(steps, lines, handle).log) == Replies(lines, handle)
  {
    var s := Exec(steps, lines, handle);
    InvAlways(steps, lines, handle);
    NeverStopped(steps, lines, handle);
    assert lines[..|lines|] == lines;
    if s.phase.Ended? {
      assert Held(s.phase) == [];
      assert Responses(s.log) + [] == Responses(s.log);
    }
  }
}
